/** `ContractGenerator` (services/generator.py): the markdown-to-plain-lines
    converter used for the PDF and DOCX exports, the jurisdiction profiles
    and the template variables with their defaults. */
module Generator {
  import opened Wrappers
  import opened Text
  import opened Lists

  // ---------------------------------------------------------------------
  // Line splitting

  /** The characters at which Python's `str.splitlines()` breaks a line. */
  predicate IsLineBreak(c: char) {
    c == '\n' || c == '\r' || c == '\U{0b}' || c == '\U{0c}' || ('\U{1c}' <= c <= '\U{1e}')
    || c == '\U{85}' || c == '\U{2028}' || c == '\U{2029}'
  }

  /** The first line break at or after `i`, or the end of `s`. */
  function LineEnd(s: string, i: nat): (e: nat)
    requires i <= |s|
    ensures i <= e <= |s| && (e == |s| || IsLineBreak(s[e]))
    ensures forall k :: i <= k < e ==> !IsLineBreak(s[k])
    decreases |s| - i
  {
    if i == |s| || IsLineBreak(s[i]) then i else LineEnd(s, i + 1)
  }

  /** The lines of `s[i..]`; `\r\n` is one break, and a break at the very end
      does not start another line. */
  function SplitLinesFrom(s: string, i: nat): (r: seq<string>)
    requires i <= |s|
    ensures forall k, m :: 0 <= k < |r| && 0 <= m < |r[k]| ==> !IsLineBreak(r[k][m])
    decreases |s| - i
  {
    if i == |s| then []
    else
      var e := LineEnd(s, i);
      if e == |s| then [s[i..e]]
      else
        var next := if s[e] == '\r' && e + 1 < |s| && s[e + 1] == '\n' then e + 2 else e + 1;
        [s[i..e]] + SplitLinesFrom(s, next)
  }

  /** `s.splitlines()` */
  function SplitLines(s: string): seq<string> {
    SplitLinesFrom(s, 0)
  }

  /** `\r\n` is one break and a final break adds no empty line. */
  lemma CrLfIsOneBreak()
    ensures SplitLines("a\r\nb\n") == ["a", "b"]
  {
    var s := "a\r\nb\n";
    assert LineEnd(s, 1) == 1;
    assert LineEnd(s, 0) == 1;
    assert LineEnd(s, 4) == 4;
    assert LineEnd(s, 3) == 4;
    assert SplitLinesFrom(s, 5) == [];
    assert SplitLinesFrom(s, 3) == [s[3..4]] + SplitLinesFrom(s, 5);
    assert SplitLinesFrom(s, 0) == [s[0..1]] + SplitLinesFrom(s, 3);
    assert s[0..1] == "a" && s[3..4] == "b";
  }

  // ---------------------------------------------------------------------
  // One line

  /** The bullet the exporter writes: the UTF-8 bytes of U+2022 read as
      Windows-1252 (three characters), then a space. */
  const Bullet: string := ['\U{e2}', '\U{20ac}', '\U{a2}', ' ']

  /** A heading loses its leading `#` run, is re-stripped and upper-cased. */
  function Heading(line: string): string {
    if StartsWith(line, "#") then Upper(Strip(LStripChar(line, '#'))) else line
  }

  predicate IsBulletLine(line: string) {
    StartsWith(line, "- ") || StartsWith(line, "* ")
  }

  /** A `- ` or `* ` item becomes the bullet and the stripped rest. */
  function BulletItem(line: string): string {
    if IsBulletLine(line) then Bullet + Strip(line[2..]) else line
  }

  /** `replace('**', '').replace('__', '')` */
  function DropEmphasis(line: string): string {
    RemovePair(RemovePair(line, '*'), '_')
  }

  /** The output line for a stripped, non-blank input line. */
  function ConvertLine(line: string): string {
    DropEmphasis(BulletItem(Heading(line)))
  }

  /** The output for a list of raw lines: blank ones dropped, the others
      stripped and converted, in order. */
  function PlainLines(raws: seq<string>): seq<string> {
    FlatMap(raws, LineOutput)
  }

  /** What one raw line contributes: nothing if blank, else its conversion. */
  function LineOutput(raw: string): (r: seq<string>)
    ensures |r| <= 1
  {
    if IsBlank(raw) then [] else [ConvertLine(Strip(raw))]
  }

  /** `_markdown_to_plaintext_lines` */
  method MarkdownToPlaintextLines(markdown: string) returns (lines: seq<string>)
    ensures lines == PlainLines(SplitLines(markdown))
  {
    var raws := SplitLines(markdown);
    lines := [];
    var i := 0;
    while i < |raws|
      invariant 0 <= i <= |raws|
      invariant lines == FlatMap(raws[..i], LineOutput)
    {
      FlatMapSnoc(raws[..i], raws[i], LineOutput);
      PrefixSnoc(raws, i);
      var out := ConvertRawLine(raws[i]);
      lines := lines + out;
      i := i + 1;
    }
    assert raws[..i] == raws;
  }

  /** One turn of the loop: strip the line, skip it if empty, else convert. */
  method ConvertRawLine(raw: string) returns (out: seq<string>)
    ensures out == LineOutput(raw)
  {
    var line := Strip(raw);
    StripEmptyIffBlank(raw);
    out := [];
    if line != [] {
      line := ConvertStrippedLine(line);
      out := [line];
    }
  }

  /** The body of the loop for a stripped, non-blank line, rebinding `line`
      step by step. */
  method ConvertStrippedLine(stripped: string) returns (line: string)
    ensures line == ConvertLine(stripped)
  {
    line := stripped;
    if StartsWith(line, "#") {
      line := Upper(Strip(LStripChar(line, '#')));
    }
    assert line == Heading(stripped);
    ghost var heading := line;
    if StartsWith(line, "- ") || StartsWith(line, "* ") {
      line := Bullet + Strip(line[2..]);
    }
    assert line == BulletItem(heading);
    line := RemovePair(RemovePair(line, '*'), '_');
  }

  // ---------------------------------------------------------------------
  // Properties of the converter

  /** Exactly the non-blank lines survive, each converted, in order. */
  lemma PlainLinesAreNonBlankLines(raws: seq<string>)
    ensures |PlainLines(raws)| == |Filter(raws, NonBlank())|
    ensures forall k :: 0 <= k < |PlainLines(raws)| ==>
      PlainLines(raws)[k] == ConvertLine(Strip(Filter(raws, NonBlank())[k]))
  {
    FlatMapOfFiltered(raws, NonBlank(), raw => ConvertLine(Strip(raw)), LineOutput);
  }

  function NonBlank(): string -> bool {
    line => !IsBlank(line)
  }

  /** No output line holds `__`: the second replacement runs last. */
  lemma NoDoubleUnderscore(line: string)
    ensures NoDoubled(ConvertLine(line), '_')
  {
    RemovePairLeavesNoPair(RemovePair(BulletItem(Heading(line)), '*'), '_');
  }

  /** `**` can survive: deleting `__` from `*__*` brings two stars together. */
  lemma StarsCanSurvive()
    ensures ConvertLine("*__*") == "**"
  {
    StarsJoin("*__*");
  }

  lemma StarsJoin(s: string)
    requires |s| == 4 && s[0] == '*' && s[1] == '_' && s[2] == '_' && s[3] == '*'
    ensures ConvertLine(s) == ['*', '*']
  {
    assert s[..1][0] == '*' && s[..2][1] == '_';
    NoMarkupConvert(s);
    RemovePairNoop(s, '*');
    assert s[1..][2..] == s[3..] == ['*'];
    assert RemovePair(['*'], '_') == ['*'] by {
      assert ['*'][1..] == [];
    }
    assert RemovePair(s[1..], '_') == ['*'];
    assert RemovePair(s, '_') == [s[0]] + RemovePair(s[1..], '_');
  }

  /** A line that is neither a heading nor a bullet item only loses its
      emphasis markers. */
  lemma NoMarkupConvert(line: string)
    requires !StartsWith(line, "#") && !IsBulletLine(line)
    ensures ConvertLine(line) == DropEmphasis(line)
  {
    assert Heading(line) == line;
  }

  /** A heading comes out with no lower-case ASCII letter. */
  lemma HeadingIsUpperCase(line: string)
    requires StartsWith(line, "#")
    ensures forall i :: 0 <= i < |ConvertLine(line)| ==> !IsLowerAscii(ConvertLine(line)[i])
  {
    var b := BulletItem(Heading(line));
    HeadingHasNoLower(line);
    BulletItemKeepsNoLower(Heading(line));
    RemovePairKeepsCharProperty(b, '*', NotLower);
    RemovePairKeepsCharProperty(RemovePair(b, '*'), '_', NotLower);
  }

  predicate NotLower(c: char) {
    !IsLowerAscii(c)
  }

  lemma HeadingHasNoLower(line: string)
    requires StartsWith(line, "#")
    ensures forall i :: 0 <= i < |Heading(line)| ==> NotLower(Heading(line)[i])
  {
  }

  lemma BulletItemKeepsNoLower(h: string)
    requires forall i :: 0 <= i < |h| ==> NotLower(h[i])
    ensures forall i :: 0 <= i < |BulletItem(h)| ==> NotLower(BulletItem(h)[i])
  {
    if IsBulletLine(h) {
      var tail := h[2..];
      assert forall i :: 0 <= i < |tail| ==> NotLower(tail[i]) by {
        forall i | 0 <= i < |tail| ensures NotLower(tail[i]) {
          assert tail[i] == h[i + 2];
        }
      }
      StripKeepsCharProperty(tail, NotLower);
      var b := Bullet + Strip(tail);
      forall i | 0 <= i < |b| ensures NotLower(b[i]) {
        if i >= |Bullet| {
          assert b[i] == Strip(tail)[i - |Bullet|];
        }
      }
    }
  }

  /** A bullet item keeps the bullet in front, whatever the emphasis
      removal does to the rest. */
  lemma BulletKeepsPrefix(line: string)
    requires !StartsWith(line, "#") && IsBulletLine(line)
    ensures StartsWith(ConvertLine(line), Bullet)
  {
    var rest := Strip(line[2..]);
    assert Heading(line) == line;
    assert BulletItem(Heading(line)) == Bullet + rest;
    BulletHasNoEmphasis();
    RemovePairKeepsCleanPrefix(Bullet, rest, '*');
    RemovePairKeepsCleanPrefix(Bullet, RemovePair(rest, '*'), '_');
    assert ConvertLine(line) == Bullet + RemovePair(RemovePair(rest, '*'), '_');
    assert ConvertLine(line)[..|Bullet|] == Bullet;
  }

  lemma BulletHasNoEmphasis()
    ensures forall i :: 0 <= i < |Bullet| ==> Bullet[i] != '*' && Bullet[i] != '_'
  {
  }

  /** A line with nothing to convert is passed through as it is. */
  lemma PlainLineUnchanged(line: string)
    requires !StartsWith(line, "#") && !IsBulletLine(line)
    requires NoDoubled(line, '*') && NoDoubled(line, '_')
    ensures ConvertLine(line) == line
  {
    NoMarkupConvert(line);
    RemovePairNoop(line, '*');
    RemovePairNoop(line, '_');
  }

  // ---------------------------------------------------------------------
  // Jurisdiction profiles and template variables

  datatype Profile = Profile(governingLaw: string, defaultDispute: string, mandatoryClauses: seq<string>)

  const ProfileClauses: seq<string> := ["parties", "consideration", "governing_law", "signatures"]

  const IndiaProfile: Profile :=
    Profile("Laws of India", "Arbitration in accordance with Arbitration and Conciliation Act, 1996",
            ProfileClauses)
  const UsProfile: Profile :=
    Profile("Laws of the United States", "Arbitration in accordance with Federal Arbitration Act",
            ProfileClauses)
  const UkProfile: Profile :=
    Profile("Laws of England and Wales", "Arbitration in accordance with Arbitration Act 1996",
            ProfileClauses)

  /** `jurisdiction_profiles.get(jurisdiction, jurisdiction_profiles['IN'])` */
  function ProfileFor(jurisdiction: string): (p: Profile)
    ensures jurisdiction !in {"IN", "US", "UK"} ==> p == IndiaProfile
    ensures p.mandatoryClauses == ProfileClauses
  {
    if jurisdiction == "US" then UsProfile
    else if jurisdiction == "UK" then UkProfile
    else IndiaProfile
  }

  /** The three known jurisdictions each name their own governing law. */
  lemma ProfilesDiffer()
    ensures ProfileFor("IN").governingLaw != ProfileFor("US").governingLaw
    ensures ProfileFor("IN").governingLaw != ProfileFor("UK").governingLaw
    ensures ProfileFor("US").governingLaw != ProfileFor("UK").governingLaw
  {
    assert IndiaProfile.governingLaw[8] == 'I';
    assert UsProfile.governingLaw[8] == 't';
    assert UkProfile.governingLaw[8] == 'E';
  }

  /** The variables handed to the template. `terms` holds the caller's
      string terms; `nda` is its `nda` entry, if any; `today` stands for the
      current date the source reads from the clock. */
  datatype TemplateVars = TemplateVars(
    contractType: string,
    parties: seq<string>,
    effectiveDate: string,
    consideration: string,
    scope: string,
    payment: string,
    taxes: string,
    ip: string,
    confidentiality: string,
    termination: string,
    governingLaw: string,
    disputeResolution: string,
    nda: bool,
    jurisdiction: string,
    language: string)

  const DefaultParties: seq<string> := ["Party A", "Party B"]
  const DefaultIp := "All IP shall vest in the service provider"
  const DefaultConfidentiality := "Standard confidentiality obligations"
  const DefaultTermination := "Either party may terminate with 30 days notice"

  /** `terms.get(key, default)` */
  function Term(terms: map<string, string>, key: string, default: string): (v: string)
    ensures key in terms ==> v == terms[key]
    ensures key !in terms ==> v == default
  {
    if key in terms then terms[key] else default
  }

  /** The `template_vars` dictionary built in `generate`. */
  function MakeTemplateVars(contractType: string, parties: Option<seq<string>>, terms: map<string, string>,
                            nda: Option<bool>, jurisdiction: string, language: string, today: string)
    : (v: TemplateVars)
    ensures v.parties != []
    ensures v.governingLaw == ProfileFor(jurisdiction).governingLaw
    ensures v.disputeResolution == Term(terms, "dispute", ProfileFor(jurisdiction).defaultDispute)
  {
    var profile := ProfileFor(jurisdiction);
    TemplateVars(
      contractType,
      if parties.None? || parties.value == [] then DefaultParties else parties.value,
      Term(terms, "effective_date", today),
      Term(terms, "consideration", "Mutual promises"),
      Term(terms, "scope", "Services to be provided"),
      Term(terms, "payment", "As agreed"),
      Term(terms, "taxes", "As per applicable law"),
      Term(terms, "ip", DefaultIp),
      Term(terms, "confidentiality", DefaultConfidentiality),
      Term(terms, "termination", DefaultTermination),
      profile.governingLaw,
      Term(terms, "dispute", profile.defaultDispute),
      nda.GetOr(true),
      jurisdiction,
      language)
  }

  /** With no terms at all, every term takes its fixed default, parties
      default to Party A and Party B, and an NDA clause is included. */
  lemma EmptyTermsDefaults(contractType: string, jurisdiction: string, language: string, today: string)
    ensures var v := MakeTemplateVars(contractType, None, map[], None, jurisdiction, language, today);
      && v.parties == ["Party A", "Party B"]
      && v.effectiveDate == today
      && v.termination == DefaultTermination
      && v.consideration == "Mutual promises"
      && v.nda
      && v.disputeResolution == ProfileFor(jurisdiction).defaultDispute
  {
  }

  /** Given parties and terms override the defaults; the governing law
      always follows the jurisdiction, whatever the terms say. */
  lemma GivenTermsWin(contractType: string, parties: seq<string>, terms: map<string, string>,
                      jurisdiction: string, language: string, today: string)
    requires parties != [] && "termination" in terms && "governing_law" in terms
    ensures var v := MakeTemplateVars(contractType, Some(parties), terms, None, jurisdiction, language, today);
      && v.parties == parties
      && v.termination == terms["termination"]
      && v.governingLaw == ProfileFor(jurisdiction).governingLaw
  {
  }
}
