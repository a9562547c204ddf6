# LawBot360 contract checks, modelled in Dafny

LawBot360 is a legal assistant for Indian (and some US and UK) contracts.
This project models the deterministic logic at its centre:

- **The contract verifier** (`DocumentVerifier`, module `Verifier`). From the
  extracted contract text it detects the contract type, lists missing
  mandatory clauses, raises risk flags, computes a 0–100 risk score, and
  composes findings and suggestions.
- **The statutory compliance checker** (`ComplianceChecker`, module
  `Compliance`). It runs the GST, TDS, Companies Act, MSME Act and data
  protection rules on Indian contracts, using the regular expressions in
  module `Patterns`.
- **Smaller pieces** around them:
  - the markdown-to-plain-lines converter and the template defaults of the
    contract generator (`Generator`);
  - the front-end form validation hook (`FormValidation`);
  - the dashboard's risk histogram and top missing clauses (`Dashboard`);
  - the in-memory e-signature envelope store (`Signer`);
  - the English/Hindi label lookup (`I18n`);
  - the upload extension check (`Upload`).

Shared modules:

- `Text` gives the Python string operations the sources use (`in`, `strip`,
  `lower`, `upper`, `replace`, `title`, `str(int)`) over `seq<char>`.
- `Lists` gives list comprehension, counting and slicing.
- `Wrappers` gives `Option` and `Result`, which stand for `None` and a
  raised `ValueError`.

Where the source loops or mutates, the model does too. For example:

- `CheckMandatoryClauses`, `AnalyzeRisks`, `CalculateRiskScore`,
  `GenerateFindings` and `GenerateSuggestions` are methods with loops.
- `SignatureService` and `FormState` are classes whose methods update maps.

Each such method is proved equal to a specification function, and the
lemmas state the properties of that function. The sources are Python and
TypeScript. Integers are unbounded, as Python's are.

## Model

| member | source | states |
|---|---|---|
| Verifier.DetectContractType | services/verifier.py:114-126 | The type returned has its keywords in the lower-cased text, and no type earlier in the order nda, employment, lease, service, generic has its keywords. |
| Verifier.KeywordInsideAWord | services/verifier.py:117-118 | Keywords are substrings, so the word "standard" makes a document an NDA. |
| Verifier.MandatoryClauses | services/verifier.py:26-32 | Every type has a non-empty clause list, and an unknown type name gets the generic list. |
| Verifier.ClauseKeywords | services/verifier.py:154-164 | No clause keyword is empty, so no keyword occurs in the empty text. |
| Verifier.CheckMandatoryClauses | services/verifier.py:148-172 | The missing clauses are exactly the type's clauses, in list order, none of whose keywords occurs in the lower-cased text. |
| Verifier.MissingClauses | services/verifier.py:166-170 | The loop appends exactly the clauses with no keyword found, in list order. |
| Verifier.MissingClausesShape | services/verifier.py:148-172 | The missing clauses are an order-preserving subsequence of the type's list, and a clause is in it iff it is in the list and none of its keywords occurs. |
| Verifier.ClauseWithoutKeywordsAlwaysMissing | services/verifier.py:167-170 | A clause id without a keyword entry (salary, rent, deposit, payment, ...) is always reported missing. |
| Verifier.Risks | services/verifier.py:174-196 | A word is among the found hedge words (vague phrases) iff it is in that list and occurs in the text; both found-lists keep list order; no_indemnity holds iff "indemnity" does not occur. |
| Verifier.AnalyzeRisks | services/verifier.py:174-196 | The risk flags and found-lists are those of `Risks` on the lower-cased text. |
| Verifier.FoundWords | services/verifier.py:186-194 | The loop keeps exactly the words of the list that occur, in list order. |
| Verifier.FoundWordsShape | services/verifier.py:35-36 | The found words are a subsequence of the fixed list and contain exactly the listed words that occur. |
| Verifier.FailCount | services/verifier.py:220 | The number of failed checks is at most the number of checks, and is zero iff no check fails. |
| Verifier.RiskScore | services/verifier.py:198-223 | The score is always between 0 and 100. |
| Verifier.CalculateRiskScore | services/verifier.py:198-223 | The accumulated score equals min(100, min(10·missing, 40) + 10/8/7/5 for the four flags + min(2·hedge, 10) + min(vague, 10) + min(5·fails, 30)) and lies in 0..100. |
| Verifier.CountFails | services/verifier.py:220 | The loop counts exactly the failed compliance records. |
| Verifier.WarningsDoNotScore | services/verifier.py:220-221 | Checks that pass or warn add nothing: the score equals the score with no checks at all. |
| Verifier.ComplianceNeverScores | services/verifier.py:220-221 | Because no compliance checker emits fail, the compliance term of the score is always zero. |
| Verifier.MissingTermCapped | services/verifier.py:203 | Any number of missing clauses from four up scores like four. |
| Verifier.MissingClauseFinding | services/verifier.py:230-236 | A missing clause's finding is critical iff the clause is parties, consideration or signatures, and high otherwise. |
| Verifier.MissingClauseFindings | services/verifier.py:230-236 | One finding per missing clause, in order. |
| Verifier.ComplianceFindings | services/verifier.py:256-263 | There are never more compliance findings than checks. |
| Verifier.FindingsForMissing | services/verifier.py:230-236 | The loop yields the finding of each missing clause, in order. |
| Verifier.FindingsForChecks | services/verifier.py:256-263 | The loop yields one finding per failing or warning check, in order. |
| Verifier.GenerateFindings | services/verifier.py:225-265 | The findings are the missing-clause findings, then the unclear-payment and liability-cap findings, then the compliance findings. |
| Verifier.ComplianceFindingsOfNotPassed | services/verifier.py:256-263 | The compliance findings are, in order, the findings of exactly the checks whose status is not pass. |
| Verifier.ComplianceFindingsCount | services/verifier.py:256-263 | The k-th compliance finding comes from the k-th check that did not pass: it carries that check's category name as clause and its message as issue, and it is high iff the check failed and medium iff it warned. |
| Verifier.FindingsLayout | services/verifier.py:225-265 | The findings list has length missing + [unclear payment] + [no liability cap] + non-pass checks, with the clause findings first, then the payment finding, then the liability finding, and the compliance findings as the rest. |
| Verifier.FindingsIgnoreIndemnityAndTermination | services/verifier.py:238-253 | The no_indemnity and unclear_termination flags never change the findings. |
| Verifier.PassedChecksAddNoFinding | services/verifier.py:257 | A passing check adds no finding. |
| Verifier.SeriousSuggestions | services/verifier.py:271-273 | At most one suggestion per finding. |
| Verifier.GenerateSuggestions | services/verifier.py:267-279 | The suggestions are "Add {clause}: {suggestion}" for each critical or high finding, in finding order, then the lawyer line if there are more than five findings, cut to the first ten; so there are never more than ten. |
| Verifier.SeriousSuggestionsStartWithAdd | services/verifier.py:273 | Every finding-derived suggestion starts with "Add ". |
| Verifier.LawyerLineRule | services/verifier.py:276-279 | The lawyer line is present iff there are more than five findings and fewer than ten serious ones; otherwise the cut drops it. |
| Verifier.Verify | services/verifier.py:38-82 | `verify` (from the text on) runs detection, clause check, risk analysis, compliance, score, findings and suggestions on the same text and returns their composition. |
| Verifier.AssembleBounds | services/verifier.py:198-223 | For any stage outputs, the risk score lies in 0..100 and at most ten suggestions are returned. |
| Verifier.EmptyDocumentStages | services/verifier.py:114-196 | For the empty text the stages give: generic type, all four generic clauses missing, only no_indemnity raised, no compliance record. |
| Verifier.EmptyDocumentScore | services/verifier.py:203-211 | Four missing clauses plus the missing indemnity score 47. |
| Verifier.EmptyDocument | services/verifier.py:38-82 | The empty text verifies as generic, with score 47, exactly the four missing-clause findings and four suggestions (no lawyer line). |
| Verifier.FindingsWithoutRisks | services/verifier.py:225-265 | Without the payment or liability flag and with no checks, the findings are exactly the missing-clause findings. |
| Verifier.SuggestionsForMissing | services/verifier.py:267-279 | Up to five missing clauses give exactly one suggestion each. |
| Verifier.EmptyIsGeneric | services/verifier.py:114-126 | The empty text is a generic contract. |
| Verifier.EmptyMissesEveryClause | services/verifier.py:148-172 | Every generic clause is missing from the empty text. |
| Verifier.EmptyHasNoRisks | services/verifier.py:174-196 | The empty text raises only no_indemnity, with no hedge word or vague phrase. |
| Verifier.EmptyHasNoRiskWords | services/verifier.py:186-194 | No hedge word or vague phrase occurs in the empty text. |
| Verifier.SeriousCount | services/verifier.py:271-273 | Findings that are all critical or high give one suggestion each. |
| Compliance.Warning | services/compliance.py:89-102 | A warning is a single record of its category with status warn and a citation. |
| Compliance.Passed | services/compliance.py:104-109 | A pass is a single record of its category with status pass and no citation. |
| Compliance.GstRule | services/compliance.py:79-111 | GST yields at most one record, and one exactly on commercial texts; it passes iff both the registration and invoice-field patterns match, and warns otherwise. |
| Compliance.TdsRule | services/compliance.py:113-145 | TDS yields a record iff a large payment is seen or TDS is mentioned; it passes iff TDS and a rate are both mentioned, where the rate's `\d` is any Unicode decimal digit. |
| Compliance.DevanagariTdsRate | services/compliance.py:17-20 | "tds at १०%" has a rate in Devanagari digits, so TDS passes. |
| Compliance.CompaniesActRule | services/compliance.py:147-163 | The Companies Act check only ever warns, exactly when a related party appears without board approval or resolution. |
| Compliance.MsmeRule | services/compliance.py:165-187 | MSME yields a record iff a supplier or the payment rule appears, and passes iff the payment rule appears. |
| Compliance.DataProtectionRule | services/compliance.py:189-212 | Data protection yields a record iff data processing is mentioned, and passes iff breach notification is too. |
| Compliance.HasLargePayment | services/compliance.py:214-229 | The scan answers true iff some amount matched after a prefix character has integer part at least 100000. |
| Compliance.NoPrefixNoAmounts | services/compliance.py:217-218 | Without one of the three prefix characters the amount pattern finds nothing. |
| Compliance.RupeeSignIsNotAPrefix | services/compliance.py:217 | A text without those characters (amounts written with the real rupee sign ₹) never counts as a large payment. |
| Compliance.PrefixesSkipped | services/compliance.py:217-218 | When the three prefix characters appear together, only the last one starts an amount. |
| Compliance.FiveLakhRead | services/compliance.py:217-218 | After the prefix, "500000" is read as the single amount 500000. |
| Compliance.DevanagariAmountIsLarge | services/compliance.py:217-225 | `\d` and `float()` read Devanagari digits, so "â५००००० fee" holds a payment of five lakh. |
| Compliance.PrefixedAmountIsLarge | services/compliance.py:214-225 | Five lakh after the prefix is a large payment. |
| Compliance.IndianGroupingRead | services/compliance.py:217-218 | After the prefix, "1,50,000" is read as the single amount 1, because comma groups must have three digits. |
| Compliance.IndianGroupingReadsLeadingDigits | services/compliance.py:214-225 | Hence one and a half lakh written with Indian digit grouping is not a large payment. |
| Compliance.CheckCompliance | services/compliance.py:40-72 | The records come from the lower-cased text in the order GST (only on commercial texts), TDS, Companies Act, MSME, Data Protection for "IN", with none elsewhere; the overall status is derived from them. |
| Compliance.OverallIsWorst | services/compliance.py:62-67 | The overall status is the worst status among the records, and pass when there are none. |
| Compliance.OtherJurisdictionsPass | services/compliance.py:45-72 | A jurisdiction other than "IN" gives no records and overall pass. |
| Compliance.ChecksShape | services/compliance.py:45-60 | There are at most five records, in strict category order; none fails, every warning has a citation and no pass has one. |
| Compliance.EmptyTextHasNoChecks | services/compliance.py:45-60 | The empty text gets no record in any jurisdiction. |
| Compliance.NeverFails | services/compliance.py:62-67 | The overall status is never fail. |
| Patterns.LiteralsSearch | services/compliance.py:10-38 | Searching an alternation of plain words succeeds iff one of the words occurs. |
| Patterns.LiteralSearchIsContains | services/compliance.py:10-38 | A one-word pattern searches like Python's `in`. |
| Patterns.NothingInEmpty | services/compliance.py:10-38 | A pattern whose alternatives each need a character matches nothing in the empty text. |
| Generator.SplitLinesFrom | services/generator.py:244 | No line produced by `splitlines` contains a line-break character. |
| Generator.CrLfIsOneBreak | services/generator.py:244 | "\r\n" is one break, and a trailing break adds no empty line. |
| Generator.LineOutput | services/generator.py:245-258 | One raw line gives at most one output line. |
| Generator.MarkdownToPlaintextLines | services/generator.py:241-259 | The output is the conversion of each split line, with blank lines dropped. |
| Generator.ConvertRawLine | services/generator.py:245-258 | One pass of the loop gives nothing for a line that strips to empty, else the line stripped and converted. |
| Generator.ConvertStrippedLine | services/generator.py:249-257 | Rebinding `line` for heading, bullet and emphasis gives the line's conversion. |
| Generator.PlainLinesAreNonBlankLines | services/generator.py:244-258 | Exactly the non-blank lines survive, in their original order, each stripped and converted. |
| Generator.NoDoubleUnderscore | services/generator.py:257 | No output line contains "__". |
| Generator.StarsCanSurvive | services/generator.py:257 | "**" can survive: "*__*" becomes "**". |
| Generator.StarsJoin | services/generator.py:257 | Removing "__" from "*__*" joins the two stars. |
| Generator.NoMarkupConvert | services/generator.py:249-257 | A line that is neither a heading nor a bullet only loses "**" and then "__". |
| Generator.HeadingIsUpperCase | services/generator.py:250-257 | A heading line comes out with no lower-case letter. |
| Generator.HeadingHasNoLower | services/generator.py:250-251 | The heading step upper-cases the rest of the line. |
| Generator.BulletItemKeepsNoLower | services/generator.py:254-255 | The bullet step adds no lower-case letter. |
| Generator.BulletKeepsPrefix | services/generator.py:254-257 | A "- " or "* " item always starts with the literal bullet prefix, whatever the emphasis removal does. |
| Generator.BulletHasNoEmphasis | services/generator.py:255 | The bullet prefix contains no "*" or "_". |
| Generator.PlainLineUnchanged | services/generator.py:249-257 | A line with no heading, no bullet and no doubled "*" or "_" passes through unchanged. |
| Generator.ProfileFor | services/generator.py:38-67 | A jurisdiction other than IN, US or UK gets the IN profile, and every profile has the same four mandatory clauses. |
| Generator.ProfilesDiffer | services/generator.py:38-54 | IN, US and UK each name a different governing law. |
| Generator.MakeTemplateVars | services/generator.py:70-86 | Parties are never empty; the governing law always comes from the jurisdiction profile; the dispute term defaults to the profile's. |
| Generator.EmptyTermsDefaults | services/generator.py:70-86 | With no parties and no terms: Party A and Party B, today's date, the fixed termination and consideration defaults, nda true, and the profile's dispute clause. |
| Generator.GivenTermsWin | services/generator.py:70-86 | Given parties and terms override the defaults, but a `governing_law` term never does. |
| FormValidation.Utf16Length | frontend/src/components/FormValidation.tsx:35-39 | `value.length` counts at least one and at most two units per character. |
| FormValidation.MessageOr | frontend/src/components/FormValidation.tsx:32-44 | A truthy `rule.message` replaces the built-in message; otherwise the built-in message is used. |
| FormValidation.ValidateField | frontend/src/components/FormValidation.tsx:27-52 | A field with no rule is valid, and a blank optional field is valid. |
| FormValidation.ValidateFieldIsFirstFailure | frontend/src/components/FormValidation.tsx:31-51 | The first failing built-in check, in the order required, minimum length, maximum length, pattern, decides the message (`rule.message` or that check's own text); if all pass, a non-blank value gets the custom check's answer unchanged and otherwise there is no error. |
| FormValidation.MinimumLengthWinsOverMaximum | frontend/src/components/FormValidation.tsx:35-41 | A value failing both length checks reports the minimum-length message. |
| FormValidation.MessageOverridesBuiltIns | frontend/src/components/FormValidation.tsx:31-45 | With a truthy message, every built-in failure reports that message. |
| FormValidation.RequiredComesFirst | frontend/src/components/FormValidation.tsx:31-33 | A blank required field always reports the required message, whatever else the rule says. |
| FormValidation.LengthCountsSpaces | frontend/src/components/FormValidation.tsx:35 | The minimum length counts the untrimmed value, so "a  " meets a minimum of 3. |
| FormValidation.ErrorMap | frontend/src/components/FormValidation.tsx:54-66 | The errors map holds exactly the given fields whose check reports a truthy error. |
| FormValidation.FormState.constructor | frontend/src/components/FormValidation.tsx:23-25 | A new form has no values, no errors and nothing touched. |
| FormValidation.FormState.ValidateAll | frontend/src/components/FormValidation.tsx:54-68 | The errors are replaced by exactly the failing declared fields; the result is true iff there are none; values and touched are unchanged. |
| FormValidation.FormState.HandleChange | frontend/src/components/FormValidation.tsx:70-81 | The value is stored; only that field's error is removed, and only if it is truthy; touched is unchanged. |
| FormValidation.FormState.HandleBlur | frontend/src/components/FormValidation.tsx:83-89 | The field becomes touched and its error (if any) is recorded; no existing error is removed. |
| FormValidation.FormState.HandleSubmit | frontend/src/components/FormValidation.tsx:91-104 | Exactly the declared fields become touched; the values are submitted iff no declared field errs. |
| FormValidation.ErrorMapAdd | frontend/src/components/FormValidation.tsx:58-64 | Validating one more field adds its error, if any, and changes nothing else. |
| FormValidation.UndeclaredFieldsHaveNoError | frontend/src/components/FormValidation.tsx:28-29 | A field with no rule never appears in the errors map. |
| FormValidation.SubmitsIffAllPass | frontend/src/components/FormValidation.tsx:54-68 | The form is valid iff no declared field reports a truthy error. |
| Dashboard.CountInRange | routers/dashboard.py:30 | A bucket never counts more reports than there are. |
| Dashboard.CountReportsIn | routers/dashboard.py:30 | The count is the number of reports whose score (0 when missing) lies in the closed range. |
| Dashboard.RiskHistogram | routers/dashboard.py:27-31 | There are exactly five buckets, in the order 0-30, 31-50, 51-70, 71-85, 86-100, each labelled "low-high" and counting the reports with low ≤ score ≤ high (missing score 0). |
| Dashboard.RangesDisjoint | routers/dashboard.py:28-30 | A score lies in range k iff k is the one range that holds it. |
| Dashboard.WholeScoresAreCovered | routers/dashboard.py:28-30 | Every whole score from 0 to 100 falls in some range. |
| Dashboard.FractionalScoreIsDropped | routers/dashboard.py:28-30 | A score of 30.5 falls in no range. |
| Dashboard.HistogramCountsCovered | routers/dashboard.py:27-31 | The bucket counts add up to the number of reports whose score is in some range, so never to more than the number of reports. |
| Dashboard.HistogramCountsAll | routers/dashboard.py:27-31 | With whole scores in 0..100 the bucket counts add up to the number of reports. |
| Dashboard.ClausesOf | routers/dashboard.py:36-41 | A report gives one clause name per stored finding, and none when its findings are absent or unreadable. |
| Dashboard.Names | routers/dashboard.py:39 | Each finding gives its `clause` entry, or "" when it has none. |
| Dashboard.FirstOccurrences | routers/dashboard.py:44-46 | The dictionary's keys, in insertion order, are distinct and are exactly the clauses seen. |
| Dashboard.GatherClauses | routers/dashboard.py:34-41 | The loop concatenates each report's clause names, report by report. |
| Dashboard.CountClauses | routers/dashboard.py:43-46 | The counting loop ends with the keys in first-occurrence order, each mapped to its number of occurrences. |
| Dashboard.TallyNew | routers/dashboard.py:46 | A clause seen for the first time becomes a new last key with count one. |
| Dashboard.TallyBump | routers/dashboard.py:46 | A clause seen again keeps its place and counts one more. |
| Dashboard.TallyIsClauseCounts | routers/dashboard.py:43-46 | The finished dictionary is the occurrence count of every clause seen. |
| Dashboard.ClauseCounts | routers/dashboard.py:43-46 | Exactly the clauses seen are keys, each with its positive number of occurrences. |
| Dashboard.UnreadableFindingsIgnored | routers/dashboard.py:36-41 | A report with absent or unparsable findings adds no clause. |
| Dashboard.MissingClauseCountsAsEmpty | routers/dashboard.py:39 | A finding without a `clause` key counts once under "". |
| Dashboard.InsertDesc | routers/dashboard.py:48 | Inserting keeps every entry and adds the new one. |
| Dashboard.InsertDescSorted | routers/dashboard.py:48 | Inserting into a list sorted by decreasing count keeps it sorted. |
| Dashboard.SortDesc | routers/dashboard.py:48 | Sorting with `reverse=True` gives a permutation of the items in non-increasing count order. |
| Dashboard.InsertDescStable | routers/dashboard.py:48 | Insertion places the new item after all items of equal count. |
| Dashboard.SortDescStable | routers/dashboard.py:48 | Items with equal counts keep their dictionary order. |
| Dashboard.Keys | routers/dashboard.py:49 | The top clause names are the items' keys, in order. |
| Dashboard.Items | routers/dashboard.py:48 | `clause_counts.items()` lists each key with its count, in dictionary order. |
| Dashboard.TopClausesAreTheMostFrequent | routers/dashboard.py:48-49 | There are min(5, number of distinct clauses) top clauses; each is a counted item; none has a lower count than an item left out. |
| Dashboard.TopClausesDistinct | routers/dashboard.py:44-49 | The top clauses are distinct. |
| Dashboard.Metrics | routers/dashboard.py:27-49 | Five histogram buckets, and at most five distinct top clauses taken from the stable descending sort of the clause counts. |
| Signer.EnvelopeId | services/signer.py:15 | Every envelope id starts with "env_". |
| Signer.SignatureService.constructor | services/signer.py:10-11 | A new service stores no envelope. |
| Signer.SignatureService.CreateEnvelope | services/signer.py:13-39 | A pending envelope with the given contract, path, signer and hash, no signing time and no signer address is stored under "env_{contract_id}_{ts}", replacing any envelope with that id; the status URL and signer link are derived from the id. |
| Signer.SignatureService.GetEnvelopeStatus | services/signer.py:41-53 | An unknown id is the "Envelope not found" error; otherwise the stored status, creation time, signing time and signer are returned, and a pending envelope shows no signing time while a signed one does. |
| Signer.SignatureService.SignEnvelope | services/signer.py:55-74 | An unknown id is an error and changes nothing. Otherwise only that envelope's status, signing time and signer address change (re-signing is allowed), and the audit record carries the hash stored at creation. |
| Signer.EnvelopeIdInjective | services/signer.py:15-21 | Different contracts or different creation seconds get different ids, so a create overwrites another envelope only when both match. |
| Signer.EnvelopeIdTail | services/signer.py:15 | After "env_", the id is the contract id, "_" and the timestamp. |
| I18n.GetTranslations | services/i18n.py:32-34 | A known language gets its table; an unknown one gets the English table. |
| I18n.Translate | services/i18n.py:28-30 | The key's entry in the language's table (English for an unknown language), or the key itself. |
| I18n.TablesHaveSameKeys | services/i18n.py:9-26 | The English and Hindi tables have the same six keys. |
| I18n.UnknownLanguageIsEnglish | services/i18n.py:30 | Any language other than en and hi translates like English. |
| I18n.UnknownKeyEchoes | services/i18n.py:30 | An unknown key comes back as itself in every language. |
| I18n.HindiDashboard | services/i18n.py:22 | "dashboard" in Hindi is "डैशबोर्ड". |
| Upload.LastDot | routers/verify.py:16 | The position found holds a dot with no dot after it, and none is found only when there is no dot. |
| Upload.AllowedFileIff | routers/verify.py:13-16 | A file is allowed iff it has a dot and the text after the last dot, lower-cased, is pdf, docx or doc. |
| Upload.LastDotIsTheLastDot | routers/verify.py:16 | A dot with no dot after it is the one `rsplit('.', 1)` splits at. |
| Upload.OnlyLastExtensionCounts | routers/verify.py:16 | "a.pdf.exe" is rejected and "a.exe.PDF" is accepted. |
| Upload.EdgeCases | routers/verify.py:16 | ".pdf" is accepted; "file." and "pdf" are rejected. |
| Text.Lower | services/verifier.py:116 | `lower()` keeps the length and lower-cases each character. |
| Text.Upper | services/generator.py:251 | `upper()` keeps the length and upper-cases each character. |
| Text.StripEmptyIffBlank | services/generator.py:245-247 | `strip()` gives the empty string iff every character is white space. |
| Text.RemovePairLeavesNoPair | services/generator.py:257 | After `replace(cc, '')` no two adjacent c remain. |
| Text.RemovePairKeepsCleanPrefix | services/generator.py:257 | A prefix without c passes through `replace(cc, '')` unchanged. |
| Text.RemovePairNoop | services/generator.py:257 | A string with no adjacent pair of c is unchanged by `replace(cc, '')`. |
| Text.ReplaceChar | services/verifier.py:232 | `replace('_', ' ')` keeps the length and replaces exactly the underscores. |
| Text.NatToStringRoundTrip | services/signer.py:15 | `str(n)` writes decimal digits, and reading them back gives n. |
| Text.DevanagariDigit | services/compliance.py:217-218 | `\d` matches the Devanagari digits ० to ९, and they are worth 0 to 9. |
| Text.NatToStringInjective | services/signer.py:15 | Different numbers print differently. |

## Left out

- Text extraction (services/verifier.py:84-112) is not modelled. PDF and DOCX reading are library I/O, so the model starts from the extracted text.
- Unsupported extensions, which yield empty text at services/verifier.py:90-91, are not modelled either; the empty text is covered by `Verifier.EmptyDocument`.
- `_extract_metadata` (services/verifier.py:128-146) is not modelled. It is a side output, and its party list passes through `set()`, whose order is unspecified.
- The summary PDF, the DOCX and PDF exports, template rendering and file writes are not modelled (services/verifier.py:67-73, 281-339; services/generator.py:88-116, 221-239, 261-304). These are library calls and file I/O.
- LLM, vector search, database, routes and authentication are not modelled. These are network and storage.
- The `language` argument of `verify` and the `contract_type` and `jurisdiction` arguments of `_generate_suggestions` are not modelled: the source never uses them.
- The GST payment-timeline pattern (services/compliance.py:13, 86) is not modelled: it is matched but its result is never used.
- The Python `re` engine is modelled only as far as the compliance patterns use it: literals, `\s+`, `\d+`, `.*` and top-level alternation. `\d` is any decimal digit of Unicode 15.0 (general category Nd), as in a `str` pattern; a later Unicode version's new digits are not modelled. The amount pattern of `_has_large_payment` is modelled as a greedy scan.
- Text.Lower, Text.Upper: case mapping is ASCII only. Python's `lower()`/`upper()` and JavaScript's are Unicode-wide, so keyword tests on non-ASCII capitals and the upper-cased non-ASCII heading letters are not modelled; neither is a length change such as `'ß'.upper() == 'SS'`.
- Verifier.CalculateRiskScore: the source accumulates a float. Every term is an integer, so the model's `int` is exact.
- Compliance.HasLargePayment: `float(amount)` is compared through the integer part. With at most two decimal digits this decides `>= 100000` exactly.
- The dashboard's database query, the 30-day window and the `compliance_scores` monthly averages (routers/dashboard.py:14-25, 51-66) are not modelled. They involve the database, the clock and float rounding, so the reports are an input.
- The dashboard's JSON parsing is not modelled: a report's findings are given as absent, unreadable or a list of optional clause names.
- The SHA-256 file hash (services/signer.py:76-85) and the clock are not modelled: the hash, the creation second and the ISO timestamps are parameters.
- Signer.EnvelopeIdInjective: proved for non-negative contract ids and timestamps only.
- FormValidation.ValidateField: `rule.pattern.test` is a pure predicate. A `RegExp` with the global flag, which keeps `lastIndex` between calls, is not modelled.
- FormValidation.FormState.HandleSubmit: `onSubmit` is not awaited or called; the values it would receive are returned.
- React's asynchronous, batched state updates are not modelled: each handler's updates are applied at once, and `validateField` sees the current values.
- The empty-document score follows the code, not the system's design notes:
  - the notes give 40 for the empty document;
  - the code also adds 7 because "indemnity" is absent;
  - the model gives 47 (`Verifier.EmptyDocument`).
- The design notes also describe an `InvalidInput` error for empty text and a configuration error for clause ids without keywords. The code has neither: empty text is verified like any other, and such clauses are always reported missing (`Verifier.ClauseWithoutKeywordsAlwaysMissing`). The model follows the code.
