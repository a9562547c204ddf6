/** The metrics computed in `get_metrics` (routers/dashboard.py): the risk
    histogram over recent reports and the five clauses most often named in
    their findings. The database query that selects the recent reports is
    not modelled; the reports are the input. */
module Dashboard {
  import opened Wrappers
  import opened Text
  import opened Lists

  // ---------------------------------------------------------------------
  // Reports

  /** The stored findings JSON of a report: absent or empty, not a list of
      objects (parsing fails), or the `clause` entry of each finding. */
  datatype StoredFindings = NoFindings | Unreadable | Clauses(clauses: seq<Option<string>>)

  datatype Report = Report(riskScore: Option<real>, findings: StoredFindings)

  /** `r.risk_score or 0` */
  function Score(r: Report): real {
    r.riskScore.GetOr(0.0)
  }

  // ---------------------------------------------------------------------
  // Risk histogram

  const Ranges: seq<(int, int)> := [(0, 30), (31, 50), (51, 70), (71, 85), (86, 100)]

  datatype Bucket = Bucket(rangeLabel: string, count: nat)

  predicate InRange(r: Report, low: int, high: int) {
    low as real <= Score(r) <= high as real
  }

  /** How many reports score within `[low, high]`. */
  function CountInRange(reports: seq<Report>, low: int, high: int): (n: nat)
    ensures n <= |reports|
  {
    if reports == [] then 0
    else CountInRange(reports[..|reports| - 1], low, high) + (if InRange(reports[|reports| - 1], low, high) then 1 else 0)
  }

  function RangeLabel(low: int, high: int): string {
    IntToString(low) + "-" + IntToString(high)
  }

  /** The histogram bucket for one range. */
  function BucketFor(reports: seq<Report>, range: (int, int)): Bucket {
    Bucket(RangeLabel(range.0, range.1), CountInRange(reports, range.0, range.1))
  }

  /** The `risk_histogram` loop: one bucket per range, in range order. */
  method RiskHistogram(reports: seq<Report>) returns (histogram: seq<Bucket>)
    ensures |histogram| == |Ranges| == 5
    ensures forall k :: 0 <= k < 5 ==> histogram[k] == BucketFor(reports, Ranges[k])
  {
    histogram := [];
    var k := 0;
    while k < |Ranges|
      invariant 0 <= k <= |Ranges|
      invariant |histogram| == k
      invariant forall m :: 0 <= m < k ==> histogram[m] == BucketFor(reports, Ranges[m])
    {
      var (low, high) := Ranges[k];
      var count := CountReportsIn(reports, low, high);
      histogram := histogram + [Bucket(RangeLabel(low, high), count)];
      k := k + 1;
    }
  }

  /** The inner loop of the histogram: the reports whose score (0 when
      absent) lies in `low..high`. */
  method CountReportsIn(reports: seq<Report>, low: int, high: int) returns (count: nat)
    ensures count == CountInRange(reports, low, high)
  {
    count := 0;
    var i := 0;
    while i < |reports|
      invariant 0 <= i <= |reports|
      invariant count == CountInRange(reports[..i], low, high)
    {
      assert reports[..i + 1][..i] == reports[..i];
      if low as real <= Score(reports[i]) <= high as real {
        count := count + 1;
      }
      i := i + 1;
    }
    assert reports[..i] == reports;
  }

  /** Number of the range a score falls in, if any. */
  function RangeOf(s: real): Option<nat> {
    if 0.0 <= s <= 30.0 then Some(0)
    else if 31.0 <= s <= 50.0 then Some(1)
    else if 51.0 <= s <= 70.0 then Some(2)
    else if 71.0 <= s <= 85.0 then Some(3)
    else if 86.0 <= s <= 100.0 then Some(4)
    else None
  }

  /** The ranges do not overlap: a score is in range `k` exactly when
      `RangeOf` names `k`. */
  lemma RangesDisjoint(r: Report, k: nat)
    requires k < 5
    ensures InRange(r, Ranges[k].0, Ranges[k].1) <==> RangeOf(Score(r)) == Some(k)
  {
  }

  /** A whole score between 0 and 100 lands in exactly one range; a
      fractional one such as 30.5 lands in none. */
  lemma WholeScoresAreCovered(s: real)
    requires 0.0 <= s <= 100.0 && s == s.Floor as real
    ensures RangeOf(s).Some?
  {
  }

  lemma FractionalScoreIsDropped()
    ensures RangeOf(30.5).None?
  {
  }

  function BucketTotal(reports: seq<Report>): nat {
    CountInRange(reports, 0, 30) + CountInRange(reports, 31, 50) + CountInRange(reports, 51, 70)
    + CountInRange(reports, 71, 85) + CountInRange(reports, 86, 100)
  }

  function CoveredCount(reports: seq<Report>): (n: nat)
    ensures n <= |reports|
  {
    if reports == [] then 0
    else CoveredCount(reports[..|reports| - 1]) + (if RangeOf(Score(reports[|reports| - 1])).Some? then 1 else 0)
  }

  /** The bucket counts add up to the reports whose score lies in some range,
      so never to more than the number of reports. */
  lemma {:induction false} HistogramCountsCovered(reports: seq<Report>)
    ensures BucketTotal(reports) == CoveredCount(reports)
    ensures BucketTotal(reports) <= |reports|
  {
    if reports != [] {
      var last := reports[|reports| - 1];
      HistogramCountsCovered(reports[..|reports| - 1]);
      RangesDisjoint(last, 0);
      RangesDisjoint(last, 1);
      RangesDisjoint(last, 2);
      RangesDisjoint(last, 3);
      RangesDisjoint(last, 4);
    }
  }

  /** With whole scores from 0 to 100 (or no score at all), every report is
      counted exactly once. */
  lemma {:induction false} HistogramCountsAll(reports: seq<Report>)
    requires forall i :: 0 <= i < |reports| ==>
      0.0 <= Score(reports[i]) <= 100.0 && Score(reports[i]) == Score(reports[i]).Floor as real
    ensures BucketTotal(reports) == |reports|
  {
    HistogramCountsCovered(reports);
    AllCovered(reports);
  }

  lemma {:induction false} AllCovered(reports: seq<Report>)
    requires forall i :: 0 <= i < |reports| ==>
      0.0 <= Score(reports[i]) <= 100.0 && Score(reports[i]) == Score(reports[i]).Floor as real
    ensures CoveredCount(reports) == |reports|
  {
    if reports != [] {
      AllCovered(reports[..|reports| - 1]);
      WholeScoresAreCovered(Score(reports[|reports| - 1]));
    }
  }

  // ---------------------------------------------------------------------
  // Clause counts

  /** The clauses a report contributes: `f.get('clause', '')` for each
      finding, nothing when the JSON is absent or unreadable. */
  function ClausesOf(r: Report): (cs: seq<string>)
    ensures r.findings.Clauses? ==> |cs| == |r.findings.clauses|
    ensures !r.findings.Clauses? ==> cs == []
  {
    match r.findings
    case Clauses(entries) => Names(entries)
    case _ => []
  }

  function Names(entries: seq<Option<string>>): (cs: seq<string>)
    ensures |cs| == |entries|
    ensures forall i :: 0 <= i < |entries| ==> cs[i] == entries[i].GetOr("")
  {
    if entries == [] then [] else [entries[0].GetOr("")] + Names(entries[1..])
  }

  /** `all_findings`: the clauses of every report, report by report. */
  function AllClauses(reports: seq<Report>): seq<string> {
    if reports == [] then [] else AllClauses(reports[..|reports| - 1]) + ClausesOf(reports[|reports| - 1])
  }

  /** The keys of `clause_counts` in insertion order: each clause at its
      first occurrence. */
  function FirstOccurrences(s: seq<string>): (keys: seq<string>)
    ensures Distinct(keys)
    ensures forall x :: x in keys <==> x in s
  {
    if s == [] then []
    else
      var p := FirstOccurrences(s[..|s| - 1]);
      var x := s[|s| - 1];
      assert forall y :: y in s <==> y in s[..|s| - 1] || y == x by {
        assert s == s[..|s| - 1] + [x];
      }
      if x in p then p else p + [x]
  }

  /** The `all_findings` loop. */
  method GatherClauses(reports: seq<Report>) returns (all: seq<string>)
    ensures all == AllClauses(reports)
  {
    all := [];
    var r := 0;
    while r < |reports|
      invariant 0 <= r <= |reports|
      invariant all == AllClauses(reports[..r])
    {
      assert reports[..r + 1][..r] == reports[..r];
      all := all + ClausesOf(reports[r]);
      r := r + 1;
    }
    assert reports[..r] == reports;
  }

  /** The dictionary after the clauses `seen`: its keys in insertion order
      are the first occurrences, and each key maps to its count. */
  predicate Tally(seen: seq<string>, keys: seq<string>, counts: map<string, nat>) {
    && keys == FirstOccurrences(seen)
    && counts.Keys == set k | k in keys
    && forall k :: k in counts ==> counts[k] == Count(seen, k)
  }

  /** The `clause_counts` loop. The dictionary is the map `counts` with its
      insertion order kept in `keys`. */
  method CountClauses(all: seq<string>) returns (keys: seq<string>, counts: map<string, nat>)
    ensures keys == FirstOccurrences(all)
    ensures counts == ClauseCounts(all)
  {
    keys := [];
    counts := map[];
    var i := 0;
    while i < |all|
      invariant 0 <= i <= |all|
      invariant Tally(all[..i], keys, counts)
    {
      var clause := all[i];
      PrefixSnoc(all, i);
      if clause !in counts {
        TallyNew(all[..i], clause, keys, counts);
        keys := keys + [clause];
        counts := counts[clause := 1];
      } else {
        TallyBump(all[..i], clause, keys, counts);
        counts := counts[clause := counts[clause] + 1];
      }
      i := i + 1;
    }
    assert all[..i] == all;
    TallyIsClauseCounts(all, keys, counts);
  }

  /** A clause seen for the first time becomes a new key with count one. */
  lemma TallyNew(seen: seq<string>, clause: string, keys: seq<string>, counts: map<string, nat>)
    requires Tally(seen, keys, counts) && clause !in counts
    ensures Tally(seen + [clause], keys + [clause], counts[clause := 1])
  {
    assert (seen + [clause])[..|seen|] == seen;
    forall k | k in counts[clause := 1]
      ensures counts[clause := 1][k] == Count(seen + [clause], k)
    {
      CountSnoc(seen, clause, k);
    }
  }

  /** A clause seen again keeps its place and counts one more. */
  lemma TallyBump(seen: seq<string>, clause: string, keys: seq<string>, counts: map<string, nat>)
    requires Tally(seen, keys, counts) && clause in counts
    ensures Tally(seen + [clause], keys, counts[clause := counts[clause] + 1])
  {
    assert (seen + [clause])[..|seen|] == seen;
    var next := counts[clause := counts[clause] + 1];
    forall k | k in next
      ensures next[k] == Count(seen + [clause], k)
    {
      CountSnoc(seen, clause, k);
    }
  }

  lemma TallyIsClauseCounts(all: seq<string>, keys: seq<string>, counts: map<string, nat>)
    requires Tally(all, keys, counts)
    ensures counts == ClauseCounts(all)
  {
    assert counts.Keys == ClauseCounts(all).Keys;
  }

  /** `clause_counts` as a map: each clause named to its number of
      occurrences. */
  function ClauseCounts(all: seq<string>): (m: map<string, nat>)
    ensures forall k :: k in m <==> k in all
    ensures forall k :: k in m ==> m[k] == Count(all, k) && m[k] > 0
  {
    map k | k in all :: Count(all, k)
  }

  /** Findings stored as absent or unreadable JSON add nothing to the counts. */
  lemma UnreadableFindingsIgnored(reports: seq<Report>, r: Report)
    requires !r.findings.Clauses?
    ensures AllClauses(reports + [r]) == AllClauses(reports)
  {
    assert (reports + [r])[..|reports|] == reports;
  }

  /** A finding without a `clause` entry counts as the empty clause name. */
  lemma MissingClauseCountsAsEmpty(reports: seq<Report>, entries: seq<Option<string>>)
    ensures Count(AllClauses(reports + [Report(None, Clauses(entries + [None]))]), "") ==
      Count(AllClauses(reports), "") + Count(Names(entries), "") + 1
  {
    var r := Report(None, Clauses(entries + [None]));
    assert (reports + [r])[..|reports|] == reports;
    assert Names(entries + [None]) == Names(entries) + [""];
    CountAppend(AllClauses(reports), Names(entries) + [""], "");
    CountSnoc(Names(entries), "", "");
  }

  lemma {:induction false} CountAppend(a: seq<string>, b: seq<string>, x: string)
    ensures Count(a + b, x) == Count(a, x) + Count(b, x)
  {
    if a != [] {
      CountAppend(a[1..], b, x);
      assert (a + b)[1..] == a[1..] + b;
    } else {
      assert a + b == b;
    }
  }

  // ---------------------------------------------------------------------
  // Top clauses: `sorted(..., key=count, reverse=True)[:5]`

  type Entry = (string, nat)

  predicate NonIncreasing(s: seq<Entry>) {
    forall i, j :: 0 <= i < j < |s| ==> s[i].1 >= s[j].1
  }

  /** Insert `x` after every entry whose count is at least its own. */
  function InsertDesc(sorted: seq<Entry>, x: Entry): (r: seq<Entry>)
    ensures |r| == |sorted| + 1
    ensures multiset(r) == multiset(sorted) + multiset{x}
  {
    if sorted == [] || sorted[|sorted| - 1].1 >= x.1 then sorted + [x]
    else
      var init := sorted[..|sorted| - 1];
      var last := sorted[|sorted| - 1];
      assert sorted == init + [last];
      InsertDesc(init, x) + [last]
  }

  lemma {:induction false} InsertDescSorted(sorted: seq<Entry>, x: Entry)
    requires NonIncreasing(sorted)
    ensures NonIncreasing(InsertDesc(sorted, x))
  {
    if !(sorted == [] || sorted[|sorted| - 1].1 >= x.1) {
      var init := sorted[..|sorted| - 1];
      var last := sorted[|sorted| - 1];
      InsertDescSorted(init, x);
      var r := InsertDesc(init, x);
      forall i | 0 <= i < |r|
        ensures r[i].1 >= last.1
      {
        assert r[i] in multiset(r);
        if r[i] != x {
          assert r[i] in multiset(init);
          var k :| 0 <= k < |init| && init[k] == r[i];
          assert sorted[k] == init[k];
        }
      }
    }
  }

  /** Python's stable sort by count, descending: each entry, from the left,
      goes after the entries already placed with a count at least its own. */
  function SortDesc(s: seq<Entry>): (r: seq<Entry>)
    ensures |r| == |s|
    ensures multiset(r) == multiset(s)
    ensures NonIncreasing(r)
  {
    if s == [] then []
    else
      assert s == s[..|s| - 1] + [s[|s| - 1]];
      InsertDescSorted(SortDesc(s[..|s| - 1]), s[|s| - 1]);
      InsertDesc(SortDesc(s[..|s| - 1]), s[|s| - 1])
  }

  function HasCount(c: nat): Entry -> bool {
    (e: Entry) => e.1 == c
  }

  lemma {:induction false} InsertDescStable(sorted: seq<Entry>, x: Entry, c: nat)
    ensures Filter(InsertDesc(sorted, x), HasCount(c)) ==
      Filter(sorted, HasCount(c)) + (if x.1 == c then [x] else [])
  {
    if sorted == [] || sorted[|sorted| - 1].1 >= x.1 {
      FilterSnoc(sorted, x, HasCount(c));
    } else {
      var init := sorted[..|sorted| - 1];
      var last := sorted[|sorted| - 1];
      assert sorted == init + [last];
      InsertDescStable(init, x, c);
      FilterSnoc(InsertDesc(init, x), last, HasCount(c));
      FilterSnoc(init, last, HasCount(c));
    }
  }

  /** Ties keep their order: the entries with any one count appear in the
      sorted list in the order they had before. */
  lemma {:induction false} SortDescStable(s: seq<Entry>, c: nat)
    ensures Filter(SortDesc(s), HasCount(c)) == Filter(s, HasCount(c))
  {
    if s != [] {
      var init := s[..|s| - 1];
      var x := s[|s| - 1];
      assert s == init + [x];
      SortDescStable(init, c);
      InsertDescStable(SortDesc(init), x, c);
      FilterSnoc(init, x, HasCount(c));
    }
  }

  function Keys(entries: seq<Entry>): (r: seq<string>)
    ensures |r| == |entries|
    ensures forall i :: 0 <= i < |entries| ==> r[i] == entries[i].0
  {
    if entries == [] then [] else [entries[0].0] + Keys(entries[1..])
  }

  /** The counted items in dictionary order. */
  function Items(keys: seq<string>, counts: map<string, nat>): (items: seq<Entry>)
    requires forall k :: k in keys ==> k in counts
    ensures |items| == |keys|
    ensures forall i :: 0 <= i < |keys| ==> items[i] == (keys[i], counts[keys[i]])
  {
    if keys == [] then [] else [(keys[0], counts[keys[0]])] + Items(keys[1..], counts)
  }

  /** `top_missing_clauses` */
  function TopClauses(items: seq<Entry>): seq<string> {
    Keys(Take(SortDesc(items), 5))
  }

  /** At most five clauses, the ones with the highest counts: every item
      left out has a count no higher than any item kept, and each kept
      item is one of the counted items. */
  lemma TopClausesAreTheMostFrequent(items: seq<Entry>)
    ensures |TopClauses(items)| == Min(5, |items|)
    ensures var top := Take(SortDesc(items), 5);
      forall i, j :: 0 <= i < |top| <= j < |items| ==> top[i].1 >= SortDesc(items)[j].1
    ensures forall i :: 0 <= i < |Take(SortDesc(items), 5)| ==> Take(SortDesc(items), 5)[i] in multiset(items)
  {
    var sorted := SortDesc(items);
    var top := Take(sorted, 5);
    forall i | 0 <= i < |top|
      ensures top[i] in multiset(items)
    {
      assert top[i] == sorted[i];
      assert sorted[i] in multiset(sorted);
    }
  }

  /** Distinct dictionary keys give distinct top clauses. */
  lemma TopClausesDistinct(keys: seq<string>, counts: map<string, nat>)
    requires Distinct(keys) && forall k :: k in keys ==> k in counts
    ensures Distinct(TopClauses(Items(keys, counts)))
  {
    var items := Items(keys, counts);
    var sorted := SortDesc(items);
    var top := TopClauses(items);
    forall i, j | 0 <= i < j < |top|
      ensures top[i] != top[j]
    {
      assert top[i] == sorted[i].0 && top[j] == sorted[j].0;
      SortedKeysDistinct(keys, counts, sorted, i, j);
    }
  }

  /** A permutation of the items of distinct keys holds each key once. */
  lemma SortedKeysDistinct(keys: seq<string>, counts: map<string, nat>, sorted: seq<Entry>, i: nat, j: nat)
    requires Distinct(keys) && forall k :: k in keys ==> k in counts
    requires multiset(sorted) == multiset(Items(keys, counts))
    requires i < j < |sorted|
    ensures sorted[i].0 != sorted[j].0
  {
    var items := Items(keys, counts);
    if sorted[i].0 == sorted[j].0 {
      assert sorted[i] in multiset(items) && sorted[j] in multiset(items);
      var a :| 0 <= a < |items| && items[a] == sorted[i];
      var b :| 0 <= b < |items| && items[b] == sorted[j];
      assert keys[a] == keys[b];
      assert a == b;
      MultisetCountOfDistinct(keys, counts, sorted[i]);
      TwoPositionsCountTwo(sorted, i, j);
    }
  }

  /** An item built from distinct keys occurs at most once. */
  lemma MultisetCountOfDistinct(keys: seq<string>, counts: map<string, nat>, e: Entry)
    requires Distinct(keys) && forall k :: k in keys ==> k in counts
    ensures multiset(Items(keys, counts))[e] <= 1
  {
    var items := Items(keys, counts);
    if keys != [] {
      MultisetCountOfDistinct(keys[1..], counts, e);
      assert items == [items[0]] + Items(keys[1..], counts);
      if items[0] == e {
        assert e !in Items(keys[1..], counts);
      }
    }
  }

  lemma TwoPositionsCountTwo(s: seq<Entry>, i: nat, j: nat)
    requires i < j < |s| && s[i] == s[j]
    ensures multiset(s)[s[i]] >= 2
  {
    assert s == s[..j] + [s[j]] + s[j + 1..];
    assert s[..j] == s[..i] + [s[i]] + s[i + 1..j];
  }

  // ---------------------------------------------------------------------
  // The metrics

  /** The histogram and top-clause part of `get_metrics`. */
  method Metrics(reports: seq<Report>) returns (histogram: seq<Bucket>, topMissingClauses: seq<string>)
    ensures |histogram| == 5
    ensures forall k :: 0 <= k < 5 ==> histogram[k] == BucketFor(reports, Ranges[k])
    ensures |topMissingClauses| <= 5 && Distinct(topMissingClauses)
    ensures topMissingClauses ==
      TopClauses(Items(FirstOccurrences(AllClauses(reports)), ClauseCounts(AllClauses(reports))))
  {
    histogram := RiskHistogram(reports);
    var all := GatherClauses(reports);
    var keys, counts := CountClauses(all);
    topMissingClauses := TopClauses(Items(keys, counts));
    TopClausesAreTheMostFrequent(Items(keys, counts));
    TopClausesDistinct(keys, counts);
  }
}
