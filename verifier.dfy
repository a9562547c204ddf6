/** `DocumentVerifier` (services/verifier.py) from the extracted text onward:
    contract-type detection, mandatory-clause check, risk indicators, risk
    score, findings and suggestions. */
module Verifier {
  import opened Wrappers
  import opened Text
  import opened Lists
  import opened Compliance

  // ---------------------------------------------------------------------
  // Contract type

  datatype ContractType = Generic | Employment | Nda | Service | Lease

  /** The name the source uses for the type (the key of its clause table). */
  function TypeName(t: ContractType): string {
    match t
    case Generic => "generic"
    case Employment => "employment"
    case Nda => "nda"
    case Service => "service"
    case Lease => "lease"
  }

  /** The order in which the detector tries the types; generic is the catch-all. */
  function Priority(t: ContractType): nat {
    match t
    case Nda => 0
    case Employment => 1
    case Lease => 2
    case Service => 3
    case Generic => 4
  }

  /** The keyword evidence for a type in the lower-cased text `lt`. */
  predicate HasSignal(t: ContractType, lt: string) {
    match t
    case Nda => Contains(lt, "non-disclosure") || Contains(lt, "nda")
    case Employment => Contains(lt, "employment") || Contains(lt, "employee")
    case Lease => Contains(lt, "lease") || Contains(lt, "rent")
    case Service => Contains(lt, "service") && Contains(lt, "agreement")
    case Generic => true
  }

  /** `_detect_contract_type`: the first type, in priority order, whose
      keywords the text contains. */
  function DetectContractType(text: string): (r: ContractType)
    ensures HasSignal(r, Lower(text))
    ensures forall u :: Priority(u) < Priority(r) ==> !HasSignal(u, Lower(text))
  {
    var lt := Lower(text);
    if Contains(lt, "non-disclosure") || Contains(lt, "nda") then Nda
    else if Contains(lt, "employment") || Contains(lt, "employee") then Employment
    else if Contains(lt, "lease") || Contains(lt, "rent") then Lease
    else if Contains(lt, "service") && Contains(lt, "agreement") then Service
    else Generic
  }

  /** Keywords are plain substrings, so "nda" inside "standard" makes any
      standard-terms document an NDA. */
  lemma KeywordInsideAWord()
    ensures DetectContractType("standard") == Nda
  {
    assert Lower("standard") == "standard";
    assert "standard"[3..6] == "nda";
    assert OccursAt("standard", "nda", 3);
  }

  // ---------------------------------------------------------------------
  // Mandatory clauses

  const GenericClauses: seq<string> := ["parties", "consideration", "governing_law", "signatures"]

  /** `mandatory_clauses.get(contract_type, mandatory_clauses['generic'])` */
  function MandatoryClauses(typeName: string): (r: seq<string>)
    ensures r != []
    ensures typeName !in {"employment", "nda", "service", "lease"} ==> r == GenericClauses
  {
    if typeName == "employment" then
      ["parties", "position", "salary", "notice_period", "confidentiality", "ip_ownership", "termination"]
    else if typeName == "nda" then
      ["parties", "confidential_info_definition", "obligations", "duration", "exceptions", "governing_law"]
    else if typeName == "service" then
      ["parties", "scope", "payment", "deliverables", "termination", "intellectual_property"]
    else if typeName == "lease" then
      ["parties", "premises", "rent", "duration", "deposit", "maintenance", "termination"]
    else GenericClauses
  }

  /** `clause_keywords.get(clause, [])` */
  function ClauseKeywords(clause: string): (r: seq<string>)
    ensures forall w :: w in r ==> w != []
  {
    if clause == "parties" then ["party", "between", "hereinafter"]
    else if clause == "consideration" then ["consideration", "payment", "compensation"]
    else if clause == "governing_law" then ["governing law", "jurisdiction", "laws of"]
    else if clause == "signatures" then ["signature", "signed", "witness"]
    else if clause == "confidentiality" then ["confidential", "non-disclosure", "nda"]
    else if clause == "ip_ownership" then ["intellectual property", "ip", "copyright", "patent"]
    else if clause == "termination" then ["termination", "terminate", "end of agreement"]
    else if clause == "notice_period" then ["notice", "notice period"]
    else if clause == "scope" then ["scope", "work", "services", "deliverables"]
    else []
  }

  /** Some keyword of the clause occurs in the lower-cased text. */
  predicate ClauseFound(clause: string, lt: string) {
    exists w :: w in ClauseKeywords(clause) && Contains(lt, w)
  }

  function IsMissing(lt: string): string -> bool {
    clause => !ClauseFound(clause, lt)
  }

  /** `_check_mandatory_clauses` */
  method CheckMandatoryClauses(text: string, typeName: string) returns (missing: seq<string>)
    ensures missing == Filter(MandatoryClauses(typeName), IsMissing(Lower(text)))
  {
    missing := MissingClauses(MandatoryClauses(typeName), Lower(text));
  }

  /** The loop of `_check_mandatory_clauses`: the clauses none of whose
      keywords occurs in `lt`, in list order. */
  method MissingClauses(mandatory: seq<string>, lt: string) returns (missing: seq<string>)
    ensures missing == Filter(mandatory, IsMissing(lt))
  {
    missing := [];
    var i := 0;
    while i < |mandatory|
      invariant 0 <= i <= |mandatory|
      invariant missing == Filter(mandatory[..i], IsMissing(lt))
    {
      var clause := mandatory[i];
      var found := exists w :: w in ClauseKeywords(clause) && Contains(lt, w);
      PrefixSnoc(mandatory, i);
      FilterSnoc(mandatory[..i], clause, IsMissing(lt));
      if !found {
        missing := missing + [clause];
      }
      i := i + 1;
    }
    assert mandatory[..i] == mandatory;
  }

  /** The missing clauses keep the order of the type's clause list, and a
      clause is reported exactly when none of its keywords occurs. */
  lemma MissingClausesShape(lt: string, typeName: string)
    ensures IsSubsequence(Filter(MandatoryClauses(typeName), IsMissing(lt)), MandatoryClauses(typeName))
    ensures forall c :: c in Filter(MandatoryClauses(typeName), IsMissing(lt)) <==>
      c in MandatoryClauses(typeName) && !ClauseFound(c, lt)
  {
    var m := MandatoryClauses(typeName);
    FilterIsSubsequence(m, IsMissing(lt));
    forall c | c in m && !ClauseFound(c, lt)
      ensures c in Filter(m, IsMissing(lt))
    {
      var i :| 0 <= i < |m| && m[i] == c;
      assert IsMissing(lt)(m[i]);
    }
  }

  /** A clause with no keyword entry can never be found, so it is always
      reported missing. */
  lemma ClauseWithoutKeywordsAlwaysMissing(lt: string, typeName: string, clause: string)
    requires clause in MandatoryClauses(typeName) && ClauseKeywords(clause) == []
    ensures clause in Filter(MandatoryClauses(typeName), IsMissing(lt))
  {
    MissingClausesShape(lt, typeName);
  }

  // ---------------------------------------------------------------------
  // Risk indicators

  const HedgeWords: seq<string> :=
    ["best effort", "reasonable", "as soon as practicable", "approximately", "about", "may", "could"]
  const VaguePhrases: seq<string> := ["subject to", "unless otherwise", "to the extent", "as applicable"]

  datatype RiskFactors = RiskFactors(
    hedgeWordsFound: seq<string>,
    vaguePhrasesFound: seq<string>,
    unclearPayment: bool,
    noLiabilityCap: bool,
    noIndemnity: bool,
    unclearTermination: bool)

  function Occurs(lt: string): string -> bool {
    w => Contains(lt, w)
  }

  /** The risk indicators of the lower-cased text `lt`: the hedge words and
      vague phrases that occur, in list order, and the four keyword flags. */
  function Risks(lt: string): (r: RiskFactors)
    ensures forall w :: w in r.hedgeWordsFound <==> w in HedgeWords && Contains(lt, w)
    ensures forall w :: w in r.vaguePhrasesFound <==> w in VaguePhrases && Contains(lt, w)
    ensures IsSubsequence(r.hedgeWordsFound, HedgeWords) && IsSubsequence(r.vaguePhrasesFound, VaguePhrases)
    ensures r.noIndemnity <==> !Contains(lt, "indemnity")
  {
    FoundWordsShape(lt, HedgeWords);
    FoundWordsShape(lt, VaguePhrases);
    RiskFactors(
      Filter(HedgeWords, Occurs(lt)), Filter(VaguePhrases, Occurs(lt)),
      Contains(lt, "payment") && (Contains(lt, "tbd") || Contains(lt, "to be determined")),
      Contains(lt, "liability") && !Contains(lt, "limited") && !Contains(lt, "cap"),
      !Contains(lt, "indemnity"),
      Contains(lt, "termination") && !Contains(lt, "30 days") && !Contains(lt, "notice"))
  }

  /** `_analyze_risks` */
  method AnalyzeRisks(text: string) returns (r: RiskFactors)
    ensures r == Risks(Lower(text))
  {
    var lt := Lower(text);
    var hedges := FoundWords(lt, HedgeWords);
    var vague := FoundWords(lt, VaguePhrases);
    r := RiskFactors(
      hedges, vague,
      Contains(lt, "payment") && (Contains(lt, "tbd") || Contains(lt, "to be determined")),
      Contains(lt, "liability") && !Contains(lt, "limited") && !Contains(lt, "cap"),
      !Contains(lt, "indemnity"),
      Contains(lt, "termination") && (!Contains(lt, "30 days") && !Contains(lt, "notice")));
  }

  /** The words of `list` that occur in `lt`, in list order: the list
      comprehensions `_analyze_risks` builds. */
  method FoundWords(lt: string, list: seq<string>) returns (found: seq<string>)
    ensures found == Filter(list, Occurs(lt))
  {
    found := [];
    var i := 0;
    while i < |list|
      invariant 0 <= i <= |list|
      invariant found == Filter(list[..i], Occurs(lt))
    {
      FilterSnoc(list[..i], list[i], Occurs(lt));
      PrefixSnoc(list, i);
      if Contains(lt, list[i]) {
        found := found + [list[i]];
      }
      i := i + 1;
    }
    assert list[..i] == list;
  }

  /** The found hedge words and vague phrases are the listed ones that occur,
      in list order. */
  lemma FoundWordsShape(lt: string, list: seq<string>)
    ensures IsSubsequence(Filter(list, Occurs(lt)), list)
    ensures forall w :: w in Filter(list, Occurs(lt)) <==> w in list && Contains(lt, w)
  {
    FilterIsSubsequence(list, Occurs(lt));
    forall w | w in list && Contains(lt, w)
      ensures w in Filter(list, Occurs(lt))
    {
      var i :| 0 <= i < |list| && list[i] == w;
      assert Occurs(lt)(list[i]);
    }
  }

  // ---------------------------------------------------------------------
  // Risk score

  function FailCount(checks: seq<Check>): (n: nat)
    ensures n <= |checks|
    ensures n == 0 <==> forall i :: 0 <= i < |checks| ==> checks[i].status != Fail
  {
    if checks == [] then 0
    else (if checks[0].status == Fail then 1 else 0) + FailCount(checks[1..])
  }

  function BoolPoints(b: bool, points: nat): nat {
    if b then points else 0
  }

  /** The points the risk indicators add: the four flags, then the capped
      hedge-word and vague-phrase terms. */
  function FactorPoints(rf: RiskFactors): nat {
    BoolPoints(rf.unclearPayment, 10) + BoolPoints(rf.noLiabilityCap, 8)
    + BoolPoints(rf.noIndemnity, 7) + BoolPoints(rf.unclearTermination, 5)
    + Min(|rf.hedgeWordsFound| * 2, 10) + Min(|rf.vaguePhrasesFound| * 1, 10)
  }

  /** The risk score: capped missing-clause term, risk-indicator term and
      capped compliance term, capped at 100. */
  function RiskScore(missingCount: nat, rf: RiskFactors, checks: seq<Check>): (r: int)
    ensures 0 <= r <= 100
  {
    Min(Min(missingCount * 10, 40) + FactorPoints(rf) + Min(FailCount(checks) * 5, 30), 100)
  }

  /** `_calculate_risk_score`. The source accumulates a float; every term is
      an integer, so the score is too. */
  method CalculateRiskScore(missingClauses: seq<string>, rf: RiskFactors, compliance: ComplianceResult)
    returns (score: int)
    ensures 0 <= score <= 100
    ensures score == RiskScore(|missingClauses|, rf, compliance.checks)
  {
    score := 0;
    score := score + Min(|missingClauses| * 10, 40);
    if rf.unclearPayment {
      score := score + 10;
    }
    if rf.noLiabilityCap {
      score := score + 8;
    }
    if rf.noIndemnity {
      score := score + 7;
    }
    if rf.unclearTermination {
      score := score + 5;
    }
    score := score + Min(|rf.hedgeWordsFound| * 2, 10);
    score := score + Min(|rf.vaguePhrasesFound| * 1, 10);
    assert score == Min(|missingClauses| * 10, 40) + FactorPoints(rf);
    var fails := CountFails(compliance.checks);
    score := score + Min(fails * 5, 30);
    score := Min(score, 100);
  }

  /** The number of failed compliance records. */
  method CountFails(checks: seq<Check>) returns (fails: nat)
    ensures fails == FailCount(checks)
  {
    fails := 0;
    var i := 0;
    while i < |checks|
      invariant 0 <= i <= |checks|
      invariant fails == FailCount(checks[..i])
    {
      FailCountSnoc(checks[..i], checks[i]);
      PrefixSnoc(checks, i);
      if checks[i].status == Fail {
        fails := fails + 1;
      }
      i := i + 1;
    }
    assert checks[..i] == checks;
  }

  lemma {:induction false} FailCountSnoc(checks: seq<Check>, c: Check)
    ensures FailCount(checks + [c]) == FailCount(checks) + (if c.status == Fail then 1 else 0)
  {
    if checks == [] {
      assert [c][1..] == [];
    } else {
      assert (checks + [c])[1..] == checks[1..] + [c];
      FailCountSnoc(checks[1..], c);
    }
  }

  /** Only failed checks score: a list of passes and warnings scores like no
      checks at all. */
  lemma WarningsDoNotScore(missingCount: nat, rf: RiskFactors, checks: seq<Check>)
    requires forall i :: 0 <= i < |checks| ==> checks[i].status != Fail
    ensures RiskScore(missingCount, rf, checks) == RiskScore(missingCount, rf, [])
  {
  }

  /** Since no compliance checker ever fails, the compliance term of the
      score is always zero. */
  lemma ComplianceNeverScores(missingCount: nat, rf: RiskFactors, t: string, jurisdiction: string)
    ensures RiskScore(missingCount, rf, ChecksFor(t, jurisdiction)) == RiskScore(missingCount, rf, [])
  {
    ChecksShape(t, jurisdiction);
    WarningsDoNotScore(missingCount, rf, ChecksFor(t, jurisdiction));
  }

  /** More than four missing clauses score like four. */
  lemma MissingTermCapped(missingCount: nat, rf: RiskFactors, checks: seq<Check>)
    requires missingCount >= 4
    ensures RiskScore(missingCount, rf, checks) == RiskScore(4, rf, checks)
  {
  }

  // ---------------------------------------------------------------------
  // Findings

  datatype Severity = Critical | High | Medium | Low

  datatype Finding = Finding(clause: string, issue: string, severity: Severity, suggestion: string)

  /** The clauses whose absence is critical. */
  predicate IsCriticalClause(clause: string) {
    clause == "parties" || clause == "consideration" || clause == "signatures"
  }

  /** The finding for one missing clause id. */
  function MissingClauseFinding(clause: string): (f: Finding)
    ensures f.severity == Critical <==> IsCriticalClause(clause)
    ensures f.severity != Critical ==> f.severity == High
  {
    Finding(
      Title(ReplaceChar(clause, '_', ' ')),
      "Missing mandatory clause: " + clause,
      if IsCriticalClause(clause) then Critical else High,
      "Add a clear " + clause + " clause to the contract")
  }

  function MissingClauseFindings(missing: seq<string>): (r: seq<Finding>)
    ensures |r| == |missing|
    ensures forall i :: 0 <= i < |missing| ==> r[i] == MissingClauseFinding(missing[i])
  {
    if missing == [] then [] else [MissingClauseFinding(missing[0])] + MissingClauseFindings(missing[1..])
  }

  const UnclearPaymentFinding: Finding :=
    Finding("Payment Terms", "Payment terms are unclear or TBD", High,
            "Specify exact payment amounts, timelines, and methods")
  const NoLiabilityCapFinding: Finding :=
    Finding("Liability", "No liability cap or limitation clause", Medium,
            "Add a limitation of liability clause with reasonable caps")

  function RiskFindings(rf: RiskFactors): seq<Finding> {
    (if rf.unclearPayment then [UnclearPaymentFinding] else [])
    + (if rf.noLiabilityCap then [NoLiabilityCapFinding] else [])
  }

  /** The finding for a failed or warning compliance record. */
  function ComplianceFinding(c: Check): Finding {
    Finding(CategoryName(c.category), c.message, if c.status == Fail then High else Medium, c.message)
  }

  function ComplianceFindings(checks: seq<Check>): (r: seq<Finding>)
    ensures |r| <= |checks|
  {
    if checks == [] then []
    else (if checks[0].status != Pass then [ComplianceFinding(checks[0])] else [])
         + ComplianceFindings(checks[1..])
  }

  /** The findings: missing clauses in order, then unclear payment and
      missing liability cap, then one per failed or warning check. */
  function Findings(missing: seq<string>, rf: RiskFactors, checks: seq<Check>): seq<Finding> {
    MissingClauseFindings(missing) + RiskFindings(rf) + ComplianceFindings(checks)
  }

  /** One finding per missing clause, in order. */
  method FindingsForMissing(missing: seq<string>) returns (clauseFindings: seq<Finding>)
    ensures clauseFindings == MissingClauseFindings(missing)
  {
    clauseFindings := [];
    var i := 0;
    while i < |missing|
      invariant 0 <= i <= |missing|
      invariant |clauseFindings| == i
      invariant forall j :: 0 <= j < i ==> clauseFindings[j] == MissingClauseFinding(missing[j])
    {
      clauseFindings := clauseFindings + [MissingClauseFinding(missing[i])];
      i := i + 1;
    }
  }

  /** One finding per compliance record that fails or warns, in order. */
  method FindingsForChecks(checks: seq<Check>) returns (checkFindings: seq<Finding>)
    ensures checkFindings == ComplianceFindings(checks)
  {
    checkFindings := [];
    var k := 0;
    while k < |checks|
      invariant 0 <= k <= |checks|
      invariant checkFindings == ComplianceFindings(checks[..k])
    {
      ComplianceFindingsSnoc(checks[..k], checks[k]);
      PrefixSnoc(checks, k);
      if checks[k].status == Fail || checks[k].status == Warn {
        checkFindings := checkFindings + [ComplianceFinding(checks[k])];
      }
      k := k + 1;
    }
    assert checks[..k] == checks;
  }

  /** `_generate_findings` */
  method GenerateFindings(missing: seq<string>, rf: RiskFactors, compliance: ComplianceResult)
    returns (findings: seq<Finding>)
    ensures findings == Findings(missing, rf, compliance.checks)
  {
    var clauseFindings := FindingsForMissing(missing);
    var riskFindings: seq<Finding> := [];
    if rf.unclearPayment {
      riskFindings := riskFindings + [UnclearPaymentFinding];
    }
    if rf.noLiabilityCap {
      riskFindings := riskFindings + [NoLiabilityCapFinding];
    }
    assert riskFindings == RiskFindings(rf);
    var checkFindings := FindingsForChecks(compliance.checks);
    findings := clauseFindings + riskFindings + checkFindings;
  }

  lemma {:induction false} ComplianceFindingsSnoc(checks: seq<Check>, c: Check)
    ensures ComplianceFindings(checks + [c]) ==
      ComplianceFindings(checks) + (if c.status != Pass then [ComplianceFinding(c)] else [])
  {
    var e := if c.status != Pass then [ComplianceFinding(c)] else [];
    if checks == [] {
      assert [c][1..] == [];
      assert ComplianceFindings([c]) == e + [];
    } else {
      var rest := checks[1..];
      var h := if checks[0].status != Pass then [ComplianceFinding(checks[0])] else [];
      assert (checks + [c])[0] == checks[0];
      assert (checks + [c])[1..] == rest + [c];
      ComplianceFindingsSnoc(rest, c);
      calc {
        ComplianceFindings(checks + [c]);
        h + ComplianceFindings(rest + [c]);
        h + (ComplianceFindings(rest) + e);
        (h + ComplianceFindings(rest)) + e;
      }
    }
  }


  function NonPassCount(checks: seq<Check>): nat {
    if checks == [] then 0 else (if checks[0].status != Pass then 1 else 0) + NonPassCount(checks[1..])
  }

  /** A compliance record that produces a finding. */
  predicate NotPassed(c: Check) { c.status != Pass }

  /** The compliance findings are the findings of the records that did not
      pass, in order. */
  lemma {:induction false} ComplianceFindingsOfNotPassed(checks: seq<Check>)
    ensures |ComplianceFindings(checks)| == NonPassCount(checks) == |Filter(checks, NotPassed)|
    ensures forall k :: 0 <= k < |ComplianceFindings(checks)| ==>
      ComplianceFindings(checks)[k] == ComplianceFinding(Filter(checks, NotPassed)[k])
  {
    if checks != [] {
      ComplianceFindingsOfNotPassed(checks[1..]);
      assert Filter(checks, NotPassed) ==
        (if NotPassed(checks[0]) then [checks[0]] else []) + Filter(checks[1..], NotPassed);
    }
  }

  /** The compliance findings are the records that did not pass, one each
      and in order: titled with the record's category, carrying its message,
      high for a failed record and medium for a warning. */
  lemma ComplianceFindingsCount(checks: seq<Check>)
    ensures |ComplianceFindings(checks)| == NonPassCount(checks) == |Filter(checks, NotPassed)|
    ensures forall k :: 0 <= k < |ComplianceFindings(checks)| ==>
      var c := Filter(checks, NotPassed)[k];
      var f := ComplianceFindings(checks)[k];
      && f.clause == CategoryName(c.category) && f.issue == c.message
      && (f.severity == High <==> c.status == Fail)
      && (f.severity == Medium <==> c.status == Warn)
  {
    ComplianceFindingsOfNotPassed(checks);
  }

  /** The findings list has one entry per missing clause (in order, critical
      for parties, consideration and signatures, otherwise high), then the
      unclear-payment and liability-cap findings, then one per failed or
      warning check, in order; a passed check, a missing indemnity and an
      unclear termination produce nothing. */
  lemma FindingsLayout(missing: seq<string>, rf: RiskFactors, checks: seq<Check>)
    ensures var fs := Findings(missing, rf, checks);
      && |fs| == |missing| + (if rf.unclearPayment then 1 else 0) + (if rf.noLiabilityCap then 1 else 0)
                 + NonPassCount(checks)
      && (forall i :: 0 <= i < |missing| ==> fs[i] == MissingClauseFinding(missing[i]))
      && (rf.unclearPayment ==> fs[|missing|] == UnclearPaymentFinding)
      && (rf.noLiabilityCap ==>
            fs[|missing| + (if rf.unclearPayment then 1 else 0)] == NoLiabilityCapFinding)
      && fs[|missing| + |RiskFindings(rf)|..] == ComplianceFindings(checks)
  {
    ComplianceFindingsCount(checks);
    var fs := Findings(missing, rf, checks);
    assert fs == (MissingClauseFindings(missing) + RiskFindings(rf)) + ComplianceFindings(checks);
  }

  lemma FindingsIgnoreIndemnityAndTermination(missing: seq<string>, rf: RiskFactors, checks: seq<Check>,
                                              noIndemnity: bool, unclearTermination: bool)
    ensures Findings(missing, rf, checks) ==
      Findings(missing, rf.(noIndemnity := noIndemnity, unclearTermination := unclearTermination), checks)
  {
  }

  lemma {:induction false} PassedChecksAddNoFinding(checks: seq<Check>, c: Check)
    requires c.status == Pass
    ensures ComplianceFindings(checks + [c]) == ComplianceFindings(checks)
  {
    ComplianceFindingsSnoc(checks, c);
  }

  // ---------------------------------------------------------------------
  // Suggestions

  const LawyerSuggestion: string := "Consider " + "having a lawyer review this contract before signing"

  function SuggestionFor(f: Finding): string {
    "Add " + f.clause + ": " + f.suggestion
  }

  predicate IsSerious(f: Finding) {
    f.severity == Critical || f.severity == High
  }

  /** One suggestion per critical or high finding, in finding order. */
  function SeriousSuggestions(findings: seq<Finding>): (r: seq<string>)
    ensures |r| <= |findings|
  {
    if findings == [] then []
    else (if IsSerious(findings[0]) then [SuggestionFor(findings[0])] else [])
         + SeriousSuggestions(findings[1..])
  }

  /** The suggestions, lawyer line included when there are more than five
      findings, cut to the first ten. */
  function Suggestions(findings: seq<Finding>): seq<string> {
    Take(SeriousSuggestions(findings) + (if |findings| > 5 then [LawyerSuggestion] else []), 10)
  }

  lemma {:induction false} SeriousSuggestionsSnoc(findings: seq<Finding>, f: Finding)
    ensures SeriousSuggestions(findings + [f]) ==
      SeriousSuggestions(findings) + (if IsSerious(f) then [SuggestionFor(f)] else [])
  {
    if findings == [] {
      assert [f][1..] == [];
    } else {
      var h := if IsSerious(findings[0]) then [SuggestionFor(findings[0])] else [];
      var e := if IsSerious(f) then [SuggestionFor(f)] else [];
      assert (findings + [f])[0] == findings[0];
      assert (findings + [f])[1..] == findings[1..] + [f];
      SeriousSuggestionsSnoc(findings[1..], f);
      calc {
        SeriousSuggestions(findings + [f]);
        h + SeriousSuggestions(findings[1..] + [f]);
        h + (SeriousSuggestions(findings[1..]) + e);
        (h + SeriousSuggestions(findings[1..])) + e;
      }
    }
  }

  /** `_generate_suggestions` */
  method GenerateSuggestions(findings: seq<Finding>) returns (suggestions: seq<string>)
    ensures suggestions == Suggestions(findings)
    ensures |suggestions| <= 10
  {
    suggestions := [];
    var i := 0;
    while i < |findings|
      invariant 0 <= i <= |findings|
      invariant suggestions == SeriousSuggestions(findings[..i])
    {
      SeriousSuggestionsSnoc(findings[..i], findings[i]);
      PrefixSnoc(findings, i);
      if findings[i].severity == Critical || findings[i].severity == High {
        suggestions := suggestions + [SuggestionFor(findings[i])];
      }
      i := i + 1;
    }
    assert findings[..i] == findings;
    if |findings| > 5 {
      suggestions := suggestions + [LawyerSuggestion];
    }
    suggestions := if |suggestions| <= 10 then suggestions else suggestions[..10];
  }

  lemma {:induction false} SeriousSuggestionsStartWithAdd(findings: seq<Finding>)
    ensures forall i :: 0 <= i < |SeriousSuggestions(findings)| ==> StartsWith(SeriousSuggestions(findings)[i], "Add ")
  {
    if findings != [] {
      SeriousSuggestionsStartWithAdd(findings[1..]);
      var f := findings[0];
      assert StartsWith(SuggestionFor(f), "Add ") by {
        assert SuggestionFor(f)[..4] == "Add ";
      }
    }
  }

  /** The lawyer line is in the list exactly when there are more than five
      findings and fewer than ten serious ones (otherwise the cut drops it). */
  lemma LawyerLineRule(findings: seq<Finding>)
    ensures LawyerSuggestion in Suggestions(findings) <==>
      |findings| > 5 && |SeriousSuggestions(findings)| < 10
  {
    var ss := SeriousSuggestions(findings);
    SeriousSuggestionsStartWithAdd(findings);
    assert !StartsWith(LawyerSuggestion, "Add ") by {
      assert LawyerSuggestion[..4] == "Cons";
    }
    var all := ss + (if |findings| > 5 then [LawyerSuggestion] else []);
    var s := Suggestions(findings);
    if LawyerSuggestion in s {
      var i :| 0 <= i < |s| && s[i] == LawyerSuggestion;
      assert all[i] == LawyerSuggestion;
      assert i >= |ss|;
    }
    if |findings| > 5 && |ss| < 10 {
      assert s[|ss|] == LawyerSuggestion;
    }
  }

  // ---------------------------------------------------------------------
  // The pipeline

  datatype VerificationResult = VerificationResult(
    contractType: ContractType,
    riskScore: int,
    findings: seq<Finding>,
    suggestions: seq<string>)

  /** The result `verify` assembles from the contract type, the missing
      clauses, the risk indicators and the compliance records. */
  function Assemble(t: ContractType, missing: seq<string>, rf: RiskFactors, checks: seq<Check>): VerificationResult {
    var findings := Findings(missing, rf, checks);
    VerificationResult(t, RiskScore(|missing|, rf, checks), findings, Suggestions(findings))
  }

  /** What `verify` returns for extracted text and a jurisdiction code. */
  function Verification(text: string, jurisdiction: string): VerificationResult {
    var lt := Lower(text);
    var t := DetectContractType(text);
    Assemble(t, Filter(MandatoryClauses(TypeName(t)), IsMissing(lt)), Risks(lt), ChecksFor(lt, jurisdiction))
  }

  /** `verify`, from the extracted text onward: every stage runs once, in
      order, on the same text. */
  method Verify(text: string, jurisdiction: string) returns (r: VerificationResult)
    ensures r == Verification(text, jurisdiction)
  {
    var contractType := DetectContractType(text);
    var missing := CheckMandatoryClauses(text, TypeName(contractType));
    var risks := AnalyzeRisks(text);
    var compliance := CheckCompliance(text, jurisdiction);
    var score := CalculateRiskScore(missing, risks, compliance);
    var findings := GenerateFindings(missing, risks, compliance);
    var suggestions := GenerateSuggestions(findings);
    r := VerificationResult(contractType, score, findings, suggestions);
  }

  /** The only risk indicator an empty text raises: no indemnity. */
  const IndemnityOnly := RiskFactors([], [], false, false, true, false)

  /** Whatever the stages produce, the risk score lies between 0 and 100 and
      there are at most ten suggestions. */
  lemma AssembleBounds(t: ContractType, missing: seq<string>, rf: RiskFactors, checks: seq<Check>)
    ensures 0 <= Assemble(t, missing, rf, checks).riskScore <= 100
    ensures |Assemble(t, missing, rf, checks).suggestions| <= 10
  {
  }

  /** The verification of an empty document, stage by stage: a generic
      contract, every generic clause missing, no compliance record. */
  lemma EmptyDocumentStages(jurisdiction: string)
    ensures Verification("", jurisdiction) == Assemble(Generic, GenericClauses, IndemnityOnly, [])
  {
    assert Lower("") == "";
    EmptyIsGeneric();
    assert MandatoryClauses(TypeName(Generic)) == GenericClauses;
    EmptyMissesEveryClause();
    EmptyHasNoRisks();
    EmptyTextHasNoChecks(jurisdiction);
    VerificationOf("", jurisdiction);
  }

  /** Proof step: `verify` is its four stages put together. It unfolds
      `Verification` once, so the lemmas about a concrete text can work on
      the stage results. */
  lemma VerificationOf(text: string, jurisdiction: string)
    ensures var lt := Lower(text);
      var t := DetectContractType(text);
      Verification(text, jurisdiction) ==
        Assemble(t, Filter(MandatoryClauses(TypeName(t)), IsMissing(lt)), Risks(lt), ChecksFor(lt, jurisdiction))
  {
  }

  /** Four missing clauses hit the cap of 40; the missing indemnity adds 7. */
  lemma EmptyDocumentScore()
    ensures RiskScore(|GenericClauses|, IndemnityOnly, []) == 47
  {
    assert |GenericClauses| == 4;
  }

  /** An empty document is a generic contract missing all four generic
      clauses; only the missing-clause cap (40) and the missing indemnity (7)
      score, and each missing clause gives one finding and one suggestion. */
  lemma EmptyDocument(jurisdiction: string)
    ensures var r := Verification("", jurisdiction);
      && r.contractType == Generic
      && r.riskScore == 47
      && r.findings == MissingClauseFindings(GenericClauses)
      && |r.suggestions| == 4
  {
    EmptyDocumentStages(jurisdiction);
    EmptyDocumentScore();
    FindingsWithoutRisks(GenericClauses, IndemnityOnly, []);
    SuggestionsForMissing(GenericClauses);
  }

  /** With no payment or liability flag and no compliance records, the
      findings are exactly the missing-clause findings. */
  lemma FindingsWithoutRisks(missing: seq<string>, rf: RiskFactors, checks: seq<Check>)
    requires !rf.unclearPayment && !rf.noLiabilityCap && checks == []
    ensures Findings(missing, rf, checks) == MissingClauseFindings(missing)
  {
    assert MissingClauseFindings(missing) + [] + [] == MissingClauseFindings(missing);
  }

  /** Every missing clause is critical or high, so each yields a suggestion;
      up to five missing clauses the lawyer line is not added. */
  lemma SuggestionsForMissing(missing: seq<string>)
    requires |missing| <= 5
    ensures |Suggestions(MissingClauseFindings(missing))| == |missing|
  {
    var fs := MissingClauseFindings(missing);
    SeriousCount(fs);
    assert SeriousSuggestions(fs) + [] == SeriousSuggestions(fs);
  }

  lemma EmptyIsGeneric()
    ensures DetectContractType("") == Generic
  {
    assert Lower("") == "";
    assert !Contains("", "non-disclosure") && !Contains("", "nda");
    assert !Contains("", "employment") && !Contains("", "employee");
    assert !Contains("", "lease") && !Contains("", "rent");
    assert !Contains("", "service");
  }

  lemma EmptyMissesEveryClause()
    ensures Filter(GenericClauses, IsMissing("")) == GenericClauses
  {
    forall c | c in GenericClauses
      ensures IsMissing("")(c)
    {
      assert !ClauseFound(c, "");
    }
    FilterAll(GenericClauses, IsMissing(""));
  }

  /** Of the risk indicators, an empty text raises only the missing
      indemnity. */
  lemma EmptyHasNoRisks()
    ensures Risks("") == IndemnityOnly
  {
    EmptyHasNoRiskWords();
    assert !Contains("", "payment") && !Contains("", "liability") && !Contains("", "indemnity");
    assert !Contains("", "termination");
  }

  lemma EmptyHasNoRiskWords()
    ensures Filter(HedgeWords, Occurs("")) == []
    ensures Filter(VaguePhrases, Occurs("")) == []
  {
    FilterNone(HedgeWords, Occurs(""));
    FilterNone(VaguePhrases, Occurs(""));
  }

  /** Every missing-clause finding is serious, so it yields a suggestion. */
  lemma {:induction false} SeriousCount(fs: seq<Finding>)
    requires forall i :: 0 <= i < |fs| ==> IsSerious(fs[i])
    ensures |SeriousSuggestions(fs)| == |fs|
  {
    if fs != [] {
      SeriousCount(fs[1..]);
    }
  }
}
