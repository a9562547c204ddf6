/** `ComplianceChecker` (services/compliance.py): Indian statutory checks
    (GST, TDS, Companies Act, MSME Act, data protection) over the lower-cased
    contract text. Every other jurisdiction gets no checks at all. */
module Compliance {
  import opened Wrappers
  import opened Text
  import opened Patterns

  datatype Status = Pass | Warn | Fail

  /** The five statutory categories, in the order `check` visits them. */
  datatype Category = Gst | Tds | CompaniesAct | Msme | DataProtection

  /** The category label a record carries. */
  function CategoryName(c: Category): string {
    match c
    case Gst => "GST"
    case Tds => "TDS"
    case CompaniesAct => "Companies Act"
    case Msme => "MSME Act"
    case DataProtection => "Data Protection"
  }

  /** One compliance record: category, status, message and citation. */
  datatype Check = Check(category: Category, status: Status, message: string, citation: Option<string>)

  datatype ComplianceResult = ComplianceResult(checks: seq<Check>, overallStatus: Status)

  // ---------------------------------------------------------------------
  // The rule tables, one pattern per regular expression of the source.

  const GstRegistration: Pattern :=
    [[Lit("gstin")], [Lit("gst"), Spaces, Lit("registration")],
     [Lit("goods"), Spaces, Lit("and"), Spaces, Lit("services"), Spaces, Lit("tax")]]
  const GstInvoiceFields: Pattern :=
    [[Lit("invoice")], [Lit("tax"), Spaces, Lit("invoice")], [Lit("gstin")], [Lit("hsn")], [Lit("sac")]]
  // The source also matches a payment-timeline pattern here and never uses the result.

  const TdsMention: Pattern :=
    [[Lit("tds")], [Lit("tax"), Spaces, Lit("deducted"), Spaces, Lit("at"), Spaces, Lit("source")],
     [Lit("withholding")]]
  const TdsRates: Pattern :=
    [[Digits, Lit("%"), Spaces, Lit("tds")], [Lit("tds"), Spaces, Lit("at"), Spaces, Digits, Lit("%")]]

  const BoardApproval: Pattern :=
    [[Lit("board"), Spaces, Lit("approval")], [Lit("board"), Spaces, Lit("resolution")]]
  const RelatedParty: Pattern :=
    [[Lit("related"), Spaces, Lit("party")], [Lit("related"), Spaces, Lit("person")]]

  const MsmePaymentRule: Pattern :=
    [[Lit("45"), Spaces, Lit("days")], [Lit("msme")],
     [Lit("micro"), AnyRun, Lit("small"), AnyRun, Lit("medium")]]
  const SupplierRelation: Pattern :=
    [[Lit("supplier")], [Lit("vendor")], [Lit("service"), Spaces, Lit("provider")]]

  const DataProcessing: Pattern :=
    [[Lit("data"), Spaces, Lit("processing")], [Lit("personal"), Spaces, Lit("data")],
     [Lit("personal"), Spaces, Lit("information")]]
  const BreachNotification: Pattern :=
    [[Lit("data"), Spaces, Lit("breach")], [Lit("breach"), Spaces, Lit("notification")],
     [Lit("security"), Spaces, Lit("incident")]]

  const CommercialKeywords: seq<string> := ["payment", "invoice", "purchase", "sale", "service", "supply"]

  /** One lakh rupees, the large-payment threshold. */
  const Lakh: nat := 100000

  // ---------------------------------------------------------------------
  // The messages and citations the records carry.

  const GstNotMentioned := "GST registration and invoicing requirements not mentioned"
  const GstFieldsUnclear := "GST invoice fields (GSTIN, HSN/SAC) not clearly specified"
  const GstMentioned := "GST compliance elements mentioned"
  const TdsNotMentioned := "TDS withholding not mentioned for large payments"
  const TdsRatesMissing := "TDS mentioned but rates/thresholds not specified"
  const TdsMentioned := "TDS compliance mentioned"
  const BoardApprovalMissing := "Related party transaction mentioned but board approval not referenced"
  const MsmeRuleMissing := "Supplier relationship mentioned but 45-day payment rule not specified"
  const MsmeMentioned := "MSME payment timelines mentioned"
  const BreachProcedureMissing := "Data processing mentioned but breach notification procedures not specified"
  const DataProtectionMentioned := "Data protection measures mentioned"

  const GstAct := "GST Act, 2017"
  const IncomeTaxAct := "Income Tax Act, 1961"
  const CompaniesAct2013 := "Companies Act, 2013"
  const MsmeAct := "MSME Development Act, 2006"
  const ItAct := "IT Act 2000, DPDP Act"

  // ---------------------------------------------------------------------
  // The category checkers. Each yields at most one record.

  /** A single warning record of category `c`; a warning always cites the
      statute. */
  function Warning(c: Category, message: string, citation: string): (r: seq<Check>)
    ensures IsBlock(r, CategoryRank(c)) && |r| == 1 && r[0].category == c && r[0].status == Warn
  {
    [Check(c, Warn, message, Some(citation))]
  }

  /** A single pass record of category `c`, which cites nothing. */
  function Passed(c: Category, message: string): (r: seq<Check>)
    ensures IsBlock(r, CategoryRank(c)) && |r| == 1 && r[0].category == c && r[0].status == Pass
  {
    [Check(c, Pass, message, None)]
  }

  predicate HasCommercialTransaction(t: string) {
    exists w :: w in CommercialKeywords && Contains(t, w)
  }

  function CheckGst(t: string): seq<Check>
  {
    var hasGst := Search(GstRegistration, t);
    var hasInvoiceFields := Search(GstInvoiceFields, t);
    if HasCommercialTransaction(t) then
      if !hasGst then
        Warning(Gst, GstNotMentioned, GstAct)
      else if !hasInvoiceFields then
        Warning(Gst, GstFieldsUnclear, GstAct)
      else
        Passed(Gst, GstMentioned)
    else []
  }

  /** The TDS checker, given the outcome of the large-payment heuristic. */
  function CheckTds(t: string, largePayment: bool): seq<Check>
  {
    var hasTdsMention := Search(TdsMention, t);
    var hasTdsRates := Search(TdsRates, t);
    if largePayment && !hasTdsMention then
      Warning(Tds, TdsNotMentioned, IncomeTaxAct)
    else if hasTdsMention then
      if !hasTdsRates then
        Warning(Tds, TdsRatesMissing, IncomeTaxAct)
      else
        Passed(Tds, TdsMentioned)
    else []
  }

  function CheckCompaniesAct(t: string): seq<Check>
  {
    var hasRelatedParty := Search(RelatedParty, t);
    var hasBoardApproval := Search(BoardApproval, t);
    if hasRelatedParty && !hasBoardApproval then
      Warning(CompaniesAct, BoardApprovalMissing, CompaniesAct2013)
    else []
  }

  function CheckMsme(t: string): seq<Check>
  {
    var hasMsme := Search(MsmePaymentRule, t);
    var hasSupplier := Search(SupplierRelation, t);
    if hasSupplier && !hasMsme then
      Warning(Msme, MsmeRuleMissing, MsmeAct)
    else if hasMsme then
      Passed(Msme, MsmeMentioned)
    else []
  }

  function CheckDataProtection(t: string): seq<Check>
  {
    var hasDataProcessing := Search(DataProcessing, t);
    var hasBreachNotification := Search(BreachNotification, t);
    if hasDataProcessing then
      if !hasBreachNotification then
        Warning(DataProtection, BreachProcedureMissing, ItAct)
      else
        Passed(DataProtection, DataProtectionMentioned)
    else []
  }

  // ---------------------------------------------------------------------
  // What each checker records: at most one record of its own category,
  // never a failure, a citation exactly on warnings.

  /** GST: a record exactly for commercial texts; it passes when both the
      registration and the invoice-field patterns are found. */
  lemma GstRule(t: string)
    ensures var r := CheckGst(t);
      && IsBlock(r, 0)
      && (r != [] <==> HasCommercialTransaction(t))
      && (r != [] ==> (r[0].status == Pass <==> Search(GstRegistration, t) && Search(GstInvoiceFields, t)))
  {
  }

  /** TDS: a record when a large payment is seen or TDS is mentioned; it
      passes when TDS and a rate are both mentioned. */
  lemma TdsRule(t: string, largePayment: bool)
    ensures var r := CheckTds(t, largePayment);
      && IsBlock(r, 1)
      && (r != [] <==> largePayment || Search(TdsMention, t))
      && (r != [] ==> (r[0].status == Pass <==> Search(TdsMention, t) && Search(TdsRates, t)))
  {
  }

  /** A rate written in Devanagari digits is a rate: "tds at १०%" passes. */
  lemma DevanagariTdsRate(largePayment: bool)
    ensures CheckTds("tds at \U{967}\U{966}%", largePayment) == Passed(Tds, TdsMentioned)
  {
    var t := "tds at \U{967}\U{966}%";
    DevanagariDigit('\U{967}');
    DevanagariDigit('\U{966}');
    var rate := TdsRates[1];
    assert t[0..3] == "tds" && t[4..6] == "at" && t[9..10] == "%";
    assert MatchAt(rate[5..], t, 9);
    assert StarThen(rate[5..], t, 8, IsDigit);
    assert MatchAt(rate[4..], t, 7);
    assert StarThen(rate[4..], t, 7, IsSpace);
    assert MatchAt(rate[3..], t, 6);
    assert MatchAt(rate[2..], t, 4);
    assert StarThen(rate[2..], t, 4, IsSpace);
    assert MatchAt(rate[1..], t, 3);
    assert MatchAt(rate, t, 0);
    assert Search(TdsRates, t);
    assert MatchAt(TdsMention[0], t, 0);
  }

  /** Companies Act: a warning exactly when a related party appears without a
      board approval or resolution. */
  lemma CompaniesActRule(t: string)
    ensures var r := CheckCompaniesAct(t);
      && IsBlock(r, 2)
      && (r != [] <==> Search(RelatedParty, t) && !Search(BoardApproval, t))
      && (r != [] ==> r[0].status == Warn)
  {
  }

  /** MSME Act: a record when a supplier or the payment rule appears; it
      passes exactly when the payment rule does. */
  lemma MsmeRule(t: string)
    ensures var r := CheckMsme(t);
      && IsBlock(r, 3)
      && (r != [] <==> Search(SupplierRelation, t) || Search(MsmePaymentRule, t))
      && (r != [] ==> (r[0].status == Pass <==> Search(MsmePaymentRule, t)))
  {
  }

  /** Data protection: a record exactly when data processing is mentioned; it
      passes when breach notification is too. */
  lemma DataProtectionRule(t: string)
    ensures var r := CheckDataProtection(t);
      && IsBlock(r, 4)
      && (r != [] <==> Search(DataProcessing, t))
      && (r != [] ==> (r[0].status == Pass <==> Search(BreachNotification, t)))
  {
  }

  // ---------------------------------------------------------------------
  // The large-payment heuristic: `re.findall` of a currency-prefixed amount.

  /** The prefix class of the source's amount pattern. It holds the three
      characters U+00E2, U+201A and U+00B9 (the UTF-8 bytes of the rupee sign
      read as another encoding), not the rupee sign U+20B9 itself. */
  predicate IsAmountPrefix(c: char) {
    c == '\U{e2}' || c == '\U{201a}' || c == '\U{b9}'
  }

  function SkipSpaces(t: string, j: nat): (e: nat)
    requires j <= |t|
    ensures j <= e <= |t| && (e == |t| || !IsSpace(t[e]))
    decreases |t| - j
  {
    if j < |t| && IsSpace(t[j]) then SkipSpaces(t, j + 1) else j
  }

  function DigitRunEnd(t: string, j: nat): (e: nat)
    requires j <= |t|
    ensures j <= e <= |t| && AllDigits(t[j..e]) && (e == |t| || !IsDigit(t[e]))
    decreases |t| - j
  {
    if j < |t| && IsDigit(t[j]) then DigitRunEnd(t, j + 1) else j
  }

  /** Greedy `(?:,\d{3})*` from `j`, folding each group into the integer
      value `v`; gives the value and the end of the groups. */
  function Groups(t: string, j: nat, v: nat): (r: (nat, nat))
    requires j <= |t|
    ensures j <= r.1 <= |t|
    decreases |t| - j
  {
    if j + 4 <= |t| && t[j] == ',' && AllDigits(t[j + 1..j + 4]) then
      Groups(t, j + 4, v * 1000 + DigitsValue(t[j + 1..j + 4]))
    else (v, j)
  }

  /** Greedy optional `(?:\.\d{2})`. */
  function DecimalEnd(t: string, j: nat): (e: nat)
    requires j <= |t|
    ensures j <= e <= |t|
  {
    if j + 3 <= |t| && t[j] == '.' && IsDigit(t[j + 1]) && IsDigit(t[j + 2]) then j + 3 else j
  }

  /** The amount matched right after a prefix character at `j - 1`: its
      integer part (commas removed) and the end of the match, if there is one. */
  function AmountAt(t: string, j: nat): (r: Option<(nat, nat)>)
    requires j <= |t|
    ensures r.Some? ==> j < r.value.1 <= |t|
  {
    var d := SkipSpaces(t, j);
    if d < |t| && IsDigit(t[d]) then
      var e := DigitRunEnd(t, d);
      var g := Groups(t, e, DigitsValue(t[d..e]));
      Some((g.0, DecimalEnd(t, g.1)))
    else None
  }

  /** `re.findall(amount_pattern, t[i:])`, each amount as its integer part.
      Comparing the integer part with one lakh decides `float(amount) >= 100000`,
      since the fraction has two digits at most. */
  function Amounts(t: string, i: nat): seq<nat>
    requires i <= |t|
    decreases |t| - i
  {
    if i == |t| then []
    else if IsAmountPrefix(t[i]) && AmountAt(t, i + 1).Some? then
      [AmountAt(t, i + 1).value.0] + Amounts(t, AmountAt(t, i + 1).value.1)
    else Amounts(t, i + 1)
  }

  predicate LargePayment(t: string) {
    exists a :: a in Amounts(t, 0) && a >= Lakh
  }

  /** `_has_large_payment`: scan the found amounts and stop at the first one
      of at least one lakh. */
  method HasLargePayment(t: string) returns (b: bool)
    ensures b <==> LargePayment(t)
  {
    var amounts := Amounts(t, 0);
    var k := 0;
    while k < |amounts|
      invariant 0 <= k <= |amounts|
      invariant forall m :: 0 <= m < k ==> amounts[m] < Lakh
    {
      if amounts[k] >= Lakh {
        assert amounts[k] in amounts;
        return true;
      }
      k := k + 1;
    }
    return false;
  }

  /** Without one of the three prefix characters nothing is found, so an
      amount written with the real rupee sign never counts as large. */
  lemma {:induction false} NoPrefixNoAmounts(t: string, i: nat)
    requires i <= |t|
    requires forall k :: i <= k < |t| ==> !IsAmountPrefix(t[k])
    ensures Amounts(t, i) == []
    decreases |t| - i
  {
    if i < |t| {
      NoPrefixNoAmounts(t, i + 1);
    }
  }

  lemma RupeeSignIsNotAPrefix(t: string)
    requires forall k :: 0 <= k < |t| ==> !IsAmountPrefix(t[k])
    ensures !LargePayment(t)
  {
    NoPrefixNoAmounts(t, 0);
  }

  /** A text that starts with the three prefix characters: the first two
      are each followed by another prefix character, not by an amount, so
      the search moves on to the third. */
  predicate StartsWithPrefixes(t: string) {
    |t| >= 3 && t[0] == '\U{e2}' && t[1] == '\U{201a}' && t[2] == '\U{b9}'
  }

  lemma PrefixesSkipped(t: string)
    requires StartsWithPrefixes(t)
    ensures Amounts(t, 0) == Amounts(t, 2)
  {
    assert SkipSpaces(t, 1) == 1 && SkipSpaces(t, 2) == 2;
    assert Amounts(t, 0) == Amounts(t, 1);
  }

  lemma FiveLakhDigits()
    ensures DigitsValue("500000") == 500000
  {
    assert "500000"[..5] == "50000";
    assert "50000"[..4] == "5000";
    assert "5000"[..3] == "500";
    assert "500"[..2] == "50";
    assert "50"[..1] == "5";
    assert "5"[..0] == "";
  }

  /** After the prefixes, `500000` is read in full. */
  lemma {:induction false} FiveLakhRead(t: string)
    requires StartsWithPrefixes(t) && |t| == 9 && t[3..] == "500000"
    ensures Amounts(t, 0) == [500000]
  {
    PrefixesSkipped(t);
    assert forall k :: 3 <= k < 9 ==> IsDigit(t[k]) by {
      forall k | 3 <= k < 9 ensures IsDigit(t[k]) {
        assert t[k] == t[3..][k - 3];
      }
    }
    assert DigitRunEnd(t, 8) == 9;
    assert DigitRunEnd(t, 6) == 9;
    assert DigitRunEnd(t, 4) == 9;
    assert DigitRunEnd(t, 3) == 9;
    assert t[3..9] == "500000";
    FiveLakhDigits();
    assert AmountAt(t, 3) == Some((500000, 9));
  }

  /** The amount pattern reads a plain amount after the third prefix character. */
  lemma PrefixedAmountIsLarge()
    ensures LargePayment("\U{e2}\U{201a}\U{b9}500000")
  {
    var t := "\U{e2}\U{201a}\U{b9}500000";
    FiveLakhRead(t);
    assert Amounts(t, 0)[0] in Amounts(t, 0);
  }

  /** `\d` is Unicode-wide: Devanagari digits are read as an amount, so
      "â५००००० fee" holds a payment of five lakh. */
  lemma DevanagariAmountIsLarge()
    ensures LargePayment("\U{e2}\U{96b}\U{966}\U{966}\U{966}\U{966}\U{966} fee")
  {
    var t := "\U{e2}\U{96b}\U{966}\U{966}\U{966}\U{966}\U{966} fee";
    DevanagariDigit('\U{96b}');
    DevanagariDigit('\U{966}');
    assert SkipSpaces(t, 1) == 1;
    assert DigitRunEnd(t, 7) == 7;
    assert DigitRunEnd(t, 1) == 7;
    var ds := t[1..7];
    assert ds == "\U{96b}\U{966}\U{966}\U{966}\U{966}\U{966}";
    assert DigitsValue(ds) == 500000 by {
      assert DigitsValue(ds[..1]) == 5 by { assert ds[..1][..0] == ""; }
      assert DigitsValue(ds[..2]) == 50 by { assert ds[..2][..1] == ds[..1]; }
      assert DigitsValue(ds[..3]) == 500 by { assert ds[..3][..2] == ds[..2]; }
      assert DigitsValue(ds[..4]) == 5000 by { assert ds[..4][..3] == ds[..3]; }
      assert DigitsValue(ds[..5]) == 50000 by { assert ds[..5][..4] == ds[..4]; }
      assert ds[..6] == ds;
    }
    assert Groups(t, 7, 500000) == (500000, 7);
    assert AmountAt(t, 1) == Some((500000, 7));
    assert Amounts(t, 0)[0] == 500000;
    assert Amounts(t, 0)[0] in Amounts(t, 0);
  }

  /** After the prefixes, `1,50,000` is read as `1`: the group `,50` has
      two digits only, so the match ends after the leading digit. */
  lemma {:induction false} IndianGroupingRead(t: string)
    requires StartsWithPrefixes(t) && |t| == 11 && t[3..] == "1,50,000"
    ensures Amounts(t, 0) == [1]
  {
    PrefixesSkipped(t);
    assert t[3] == '1' && t[4] == ',' && t[7] == ',' by {
      assert t[3] == t[3..][0] && t[4] == t[3..][1] && t[7] == t[3..][4];
    }
    assert DigitRunEnd(t, 3) == 4;
    assert t[3..4] == "1";
    assert DigitsValue("1") == 1 by { assert "1"[..0] == ""; }
    assert !AllDigits(t[5..8]) by { assert t[5..8][2] == t[7]; }
    assert AmountAt(t, 3) == Some((1, 4));
    assert forall k :: 4 <= k < |t| ==> !IsAmountPrefix(t[k]) by {
      forall k | 4 <= k < |t| ensures !IsAmountPrefix(t[k]) {
        assert t[k] == t[3..][k - 3];
      }
    }
    NoPrefixNoAmounts(t, 4);
  }

  /** Comma groups must have three digits, so an amount written with Indian
      digit grouping (1,50,000 for one and a half lakh) is read as 1. */
  lemma IndianGroupingReadsLeadingDigits()
    ensures Amounts("\U{e2}\U{201a}\U{b9}1,50,000", 0) == [1]
    ensures !LargePayment("\U{e2}\U{201a}\U{b9}1,50,000")
  {
    IndianGroupingRead("\U{e2}\U{201a}\U{b9}1,50,000");
  }

  // ---------------------------------------------------------------------
  // The whole check.

  /** The records `check` collects for the lower-cased text `t`. */
  function ChecksFor(t: string, jurisdiction: string): seq<Check> {
    if jurisdiction == "IN" then
      (if HasCommercialTransaction(t) then CheckGst(t) else [])
      + CheckTds(t, LargePayment(t))
      + CheckCompaniesAct(t)
      + CheckMsme(t)
      + CheckDataProtection(t)
    else []
  }

  /** `fail` if any record fails, else `warn` if any warns, else `pass`. */
  function OverallStatus(checks: seq<Check>): Status {
    if exists i :: 0 <= i < |checks| && checks[i].status == Fail then Fail
    else if exists i :: 0 <= i < |checks| && checks[i].status == Warn then Warn
    else Pass
  }

  /** `ComplianceChecker.check` */
  method CheckCompliance(text: string, jurisdiction: string) returns (r: ComplianceResult)
    ensures r.checks == ChecksFor(Lower(text), jurisdiction)
    ensures r.overallStatus == OverallStatus(r.checks)
  {
    var t := Lower(text);
    var checks: seq<Check> := [];
    if jurisdiction == "IN" {
      var gst := if HasCommercialTransaction(t) then CheckGst(t) else [];
      var large := HasLargePayment(t);
      checks := gst + CheckTds(t, large) + CheckCompaniesAct(t) + CheckMsme(t) + CheckDataProtection(t);
    }
    r := ComplianceResult(checks, OverallStatus(checks));
  }

  // ---------------------------------------------------------------------
  // Properties

  function StatusRank(s: Status): nat {
    match s
    case Pass => 0
    case Warn => 1
    case Fail => 2
  }

  /** The overall status is the worst status among the records, and `pass`
      when there are none. */
  lemma OverallIsWorst(checks: seq<Check>)
    ensures forall i :: 0 <= i < |checks| ==> StatusRank(checks[i].status) <= StatusRank(OverallStatus(checks))
    ensures OverallStatus(checks) == Pass || exists i :: 0 <= i < |checks| && checks[i].status == OverallStatus(checks)
  {
  }

  /** Outside India there is nothing to check, and that is a pass. */
  lemma OtherJurisdictionsPass(t: string, jurisdiction: string)
    requires jurisdiction != "IN"
    ensures ChecksFor(t, jurisdiction) == []
    ensures OverallStatus(ChecksFor(t, jurisdiction)) == Pass
  {
  }

  function CategoryRank(category: Category): nat {
    match category
    case Gst => 0
    case Tds => 1
    case CompaniesAct => 2
    case Msme => 3
    case DataProtection => 4
  }

  predicate IsCitationRight(c: Check) {
    (c.status == Warn ==> c.citation.Some?) && (c.status == Pass ==> c.citation.None?)
  }

  predicate InCategoryOrder(cs: seq<Check>) {
    forall i, j :: 0 <= i < j < |cs| ==> CategoryRank(cs[i].category) < CategoryRank(cs[j].category)
  }

  predicate RanksBelow(cs: seq<Check>, n: nat) {
    forall i :: 0 <= i < |cs| ==> CategoryRank(cs[i].category) < n
  }

  predicate WellFormed(cs: seq<Check>) {
    forall i :: 0 <= i < |cs| ==> cs[i].status != Fail && IsCitationRight(cs[i])
  }

  /** Appending the (at most one) record of the next category keeps the list
      in category order. */
  lemma ExtendInOrder(a: seq<Check>, b: seq<Check>, n: nat)
    requires InCategoryOrder(a) && RanksBelow(a, n) && WellFormed(a) && |a| <= n
    requires |b| <= 1 && WellFormed(b)
    requires forall i :: 0 <= i < |b| ==> CategoryRank(b[i].category) == n
    ensures InCategoryOrder(a + b) && RanksBelow(a + b, n + 1) && WellFormed(a + b) && |a + b| <= n + 1
  {
  }

  /** The records come in the order GST, TDS, Companies Act, MSME Act, Data
      Protection, at most one per category; none of them ever fails, every
      warning carries a citation and no pass does. */
  lemma ChecksShape(t: string, jurisdiction: string)
    ensures |ChecksFor(t, jurisdiction)| <= 5
    ensures InCategoryOrder(ChecksFor(t, jurisdiction))
    ensures WellFormed(ChecksFor(t, jurisdiction))
  {
    if jurisdiction == "IN" {
      var gst := if HasCommercialTransaction(t) then CheckGst(t) else [];
      GstRule(t);
      TdsRule(t, LargePayment(t));
      CompaniesActRule(t);
      MsmeRule(t);
      DataProtectionRule(t);
      FiveBlocksInOrder(gst, CheckTds(t, LargePayment(t)), CheckCompaniesAct(t), CheckMsme(t),
                        CheckDataProtection(t));
    }
  }

  predicate IsBlock(b: seq<Check>, n: nat) {
    |b| <= 1 && WellFormed(b) && forall i :: 0 <= i < |b| ==> CategoryRank(b[i].category) == n
  }

  lemma FiveBlocksInOrder(b0: seq<Check>, b1: seq<Check>, b2: seq<Check>, b3: seq<Check>, b4: seq<Check>)
    requires IsBlock(b0, 0) && IsBlock(b1, 1) && IsBlock(b2, 2) && IsBlock(b3, 3) && IsBlock(b4, 4)
    ensures var all := b0 + b1 + b2 + b3 + b4;
      |all| <= 5 && InCategoryOrder(all) && WellFormed(all)
  {
    ExtendInOrder([], b0, 0);
    assert [] + b0 == b0;
    ExtendInOrder(b0, b1, 1);
    ExtendInOrder(b0 + b1, b2, 2);
    ExtendInOrder(b0 + b1 + b2, b3, 3);
    ExtendInOrder(b0 + b1 + b2 + b3, b4, 4);
  }

  /** An empty document gets no records, even in India: every rule needs
      some character to match. */
  lemma EmptyTextHasNoChecks(jurisdiction: string)
    ensures ChecksFor("", jurisdiction) == []
  {
    NoPrefixNoAmounts("", 0);
    TdsRule("", false);
    CompaniesActRule("");
    MsmeRule("");
    DataProtectionRule("");
    NothingInEmpty(TdsMention);
    NothingInEmpty(RelatedParty);
    NothingInEmpty(SupplierRelation);
    NothingInEmpty(MsmePaymentRule);
    NothingInEmpty(DataProcessing);
  }

  /** Hence the overall status is never `fail`. */
  lemma NeverFails(t: string, jurisdiction: string)
    ensures OverallStatus(ChecksFor(t, jurisdiction)) != Fail
  {
    ChecksShape(t, jurisdiction);
    var cs := ChecksFor(t, jurisdiction);
    assert forall i :: 0 <= i < |cs| ==> cs[i].status != Fail;
  }
}
