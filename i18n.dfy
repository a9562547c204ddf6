/** `I18nService` (services/i18n.py): English and Hindi labels with
    fallbacks for unknown languages and keys. */
module I18n {

  type Table = map<string, string>

  const English: Table := map[
    "create_contract" := "Create Contract",
    "verify_document" := "Verify Document",
    "explain_law" := "Explain Law",
    "dashboard" := "Dashboard",
    "templates" := "Templates",
    "settings" := "Settings"]

  const Hindi: Table := map[
    "create_contract" := "अनुबंध बनाएं",
    "verify_document" := "दस्तावेज़ सत्यापित करें",
    "explain_law" := "कानून समझाएं",
    "dashboard" := "डैशबोर्ड",
    "templates" := "टेम्प्लेट",
    "settings" := "सेटिंग्स"]

  const Translations: map<string, Table> := map["en" := English, "hi" := Hindi]

  /** `get_translations`: the language's table, or the English one. */
  function GetTranslations(language: string): (t: Table)
    ensures language in Translations ==> t == Translations[language]
    ensures language !in Translations ==> t == English
  {
    if language in Translations then Translations[language] else Translations["en"]
  }

  /** `translate`: the entry for `key` in the language's table (English for
      an unknown language), or the key itself. */
  function Translate(key: string, language: string): (s: string)
    ensures key in GetTranslations(language) ==> s == GetTranslations(language)[key]
    ensures key !in GetTranslations(language) ==> s == key
  {
    var table := if language in Translations then Translations[language] else Translations["en"];
    if key in table then table[key] else key
  }

  /** Both tables label the same six keys, so a key known in one language
      is translated in the other too. */
  lemma TablesHaveSameKeys()
    ensures English.Keys == Hindi.Keys
    ensures |English.Keys| == 6
  {
    assert English.Keys == {"create_contract", "verify_document", "explain_law", "dashboard", "templates", "settings"};
  }

  /** An unknown language reads exactly like English, key by key. */
  lemma UnknownLanguageIsEnglish(key: string, language: string)
    requires language != "en" && language != "hi"
    ensures Translate(key, language) == Translate(key, "en")
  {
  }

  /** A key no table knows comes back as itself in every language. */
  lemma UnknownKeyEchoes(key: string, language: string)
    requires key !in English
    ensures Translate(key, language) == key
  {
    TablesHaveSameKeys();
  }

  lemma HindiDashboard()
    ensures Translate("dashboard", "hi") == "डैशबोर्ड"
  {
  }
}
