/** Confidence scoring: the blended score, its band, per-domain confidence, and the bounded score history. */
module AdaptivePostcheck {
  import opened Ordering
  import opened Outcomes
  import opened Rounding
  import ScenarioDatabase
  import ScenarioBuild

  // ---------------------------------------------------------------- score history

  /** A stored history entry; only JSON objects carry a score. */
  datatype Entry = Scored(score: int) | NotAnObject

  datatype Trend = InsufficientHistory | Improving | Regressing | Stable

  const MAX_ENTRIES: nat := 20
  const WINDOW: nat := 7

  function Scores(entries: seq<Entry>): seq<int> {
    if entries == [] then []
    else
      var last := entries[|entries| - 1];
      Scores(entries[..|entries| - 1]) + if last.Scored? then [last.score] else []
  }

  function Average(s: seq<int>): real { Sum(s) as real / (if |s| < 1 then 1 else |s|) as real }

  /** The second half of the window, longer by one when its length is odd, is compared with the first. */
  function TrendOf(window: seq<int>): Trend {
    if |window| < 4 then InsufficientHistory
    else
      var split := |window| / 2;
      var delta := Average(window[split..]) - Average(window[..split]);
      if delta >= 3.0 then Improving else if delta <= -3.0 then Regressing else Stable
  }

  class ConfidenceHistory {
    var entries: seq<Entry>

    constructor (loaded: seq<Entry>)
      ensures entries == loaded
    {
      entries := loaded;
    }

    method Update(score: int) returns (trend: Trend, windowSize: nat)
      modifies this
      ensures entries == LastN(old(entries) + [Scored(score)], MAX_ENTRIES)
      ensures trend == TrendOf(Scores(LastN(entries, WINDOW)))
      ensures windowSize == |Scores(LastN(entries, WINDOW))|
    {
      entries := entries + [Scored(score)];
      entries := LastN(entries, MAX_ENTRIES);
      var window := Scores(LastN(entries, WINDOW));
      trend := InsufficientHistory;
      if |window| >= 4 {
        var split := |window| / 2;
        var delta := Average(window[split..]) - Average(window[..split]);
        trend := if delta >= 3.0 then Improving else if delta <= -3.0 then Regressing else Stable;
      }
      windowSize := |window|;
    }
  }

  /** The stored entries after recording a run of scores, one update each, from an empty history. */
  function Run(scores: seq<int>): seq<Entry> {
    if scores == [] then []
    else LastN(Run(scores[..|scores| - 1]) + [Scored(scores[|scores| - 1])], MAX_ENTRIES)
  }

  function ScoredOf(score: int): Entry { Scored(score) }

  lemma {:induction false} ScoresOfScored(s: seq<int>)
    ensures Scores(Map(ScoredOf, s)) == s
  {
    if s != [] {
      ScoresOfScored(s[..|s| - 1]);
      assert Map(ScoredOf, s)[..|s| - 1] == Map(ScoredOf, s[..|s| - 1]);
      assert s == s[..|s| - 1] + [s[|s| - 1]];
    }
  }

  /** Stored values that are no objects have no score, wherever they stand. */
  lemma {:induction false} OnlyObjectsScore(before: seq<Entry>, after: seq<Entry>)
    ensures Scores(before + [NotAnObject] + after) == Scores(before + after)
  {
    if after == [] {
      assert (before + [NotAnObject] + after)[..|before|] == before;
      assert before + after == before;
      assert Scores(before) + [] == Scores(before);
    } else {
      var n := |after| - 1;
      assert (before + [NotAnObject] + after)[..|before| + 1 + n] == before + [NotAnObject] + after[..n];
      assert (before + after)[..|before| + n] == before + after[..n];
      OnlyObjectsScore(before, after[..n]);
    }
  }

  lemma {:induction false} RunIsLast(scores: seq<int>)
    ensures Run(scores) == Map(ScoredOf, LastN(scores, MAX_ENTRIES))
  {
    if scores != [] {
      var front, last := scores[..|scores| - 1], scores[|scores| - 1];
      RunIsLast(front);
      var stored := Map(ScoredOf, LastN(front, MAX_ENTRIES)) + [Scored(last)];
      assert stored == Map(ScoredOf, LastN(front, MAX_ENTRIES) + [last]);
      assert LastN(LastN(front, MAX_ENTRIES) + [last], MAX_ENTRIES) == LastN(scores, MAX_ENTRIES);
    }
  }

  /** After any run the history holds exactly the last twenty scores, in order. */
  lemma RunKeepsLast(scores: seq<int>)
    ensures Run(scores) == Map(ScoredOf, if |scores| <= 20 then scores else scores[|scores| - 20..])
  {
    RunIsLast(scores);
  }

  function TrendAfter(scores: seq<int>): Trend { TrendOf(Scores(LastN(Run(scores), WINDOW))) }

  lemma TrendOfLast(scores: seq<int>)
    ensures TrendAfter(scores) == TrendOf(LastN(scores, WINDOW))
  {
    hide TrendOf;
    RunIsLast(scores);
    var kept := LastN(scores, MAX_ENTRIES);
    assert LastN(Map(ScoredOf, kept), WINDOW) == Map(ScoredOf, LastN(scores, WINDOW));
    ScoresOfScored(LastN(scores, WINDOW));
  }

  /** The trend after any run looks at the last seven scores only, and is missing exactly below four scores. */
  lemma RunTrend(scores: seq<int>)
    ensures TrendAfter(scores) == TrendOf(if |scores| <= 7 then scores else scores[|scores| - 7..])
    ensures TrendAfter(scores) == InsufficientHistory <==> |scores| < 4
  {
    hide TrendAfter;
    TrendOfLast(scores);
  }

  lemma Cancel(a: real, b: real, n: real)
    requires n > 0.0 && a * n <= b * n
    ensures a <= b
  {
    assert a > b ==> a * n > b * n;
  }

  lemma DivideUpper(x: int, n: int, hi: int)
    requires n > 0 && x <= hi * n
    ensures x as real / n as real <= hi as real
  {
    var q := x as real / n as real;
    assert q * n as real == x as real;
    assert hi as real * n as real == (hi * n) as real;
    Cancel(q, hi as real, n as real);
  }

  lemma DivideLower(x: int, n: int, lo: int)
    requires n > 0 && lo * n <= x
    ensures lo as real <= x as real / n as real
  {
    var q := x as real / n as real;
    assert q * n as real == x as real;
    assert lo as real * n as real == (lo * n) as real;
    Cancel(lo as real, q, n as real);
  }

  lemma AverageBounds(s: seq<int>, lo: int, hi: int)
    requires s != [] && forall i :: 0 <= i < |s| ==> lo <= s[i] <= hi
    ensures lo as real <= Average(s) <= hi as real
  {
    AverageAtLeast(s, lo);
    AverageAtMost(s, hi);
  }

  /** A trend is only reported when scores really moved that way, despite halves of unequal length. */
  lemma TrendFollowsScores(window: seq<int>)
    requires |window| >= 4
    ensures (forall i, j :: 0 <= i < j < |window| ==> window[i] <= window[j]) ==> TrendOf(window) != Regressing
    ensures (forall i, j :: 0 <= i < j < |window| ==> window[i] >= window[j]) ==> TrendOf(window) != Improving
  {
    hide Average;
    var split := |window| / 2;
    var first, second := window[..split], window[split..];
    if forall i, j :: 0 <= i < j < |window| ==> window[i] <= window[j] {
      AverageBounds(first, window[0], window[split]);
      AverageBounds(second, window[split], window[|window| - 1]);
    }
    if forall i, j :: 0 <= i < j < |window| ==> window[i] >= window[j] {
      AverageBounds(first, window[split], window[0]);
      AverageBounds(second, window[|window| - 1], window[split]);
    }
  }

  /** Scores that stay within less than three points of each other are always stable. */
  lemma SmallMovesAreStable(window: seq<int>, lo: int)
    requires |window| >= 4 && forall i :: 0 <= i < |window| ==> lo <= window[i] <= lo + 2
    ensures TrendOf(window) == Stable
  {
    var split := |window| / 2;
    AverageBounds(window[..split], lo, lo + 2);
    AverageBounds(window[split..], lo, lo + 2);
  }

  lemma MoveOfAverages(x: int, k: int, y: int, m: int, points: int)
    requires k > 0 && m > 0
    ensures y as real / m as real - x as real / k as real >= points as real <==> k * y - m * x >= points * k * m
    ensures y as real / m as real - x as real / k as real <= points as real <==> k * y - m * x <= points * k * m
  {
    var a, b := x as real / k as real, y as real / m as real;
    var w := k as real * m as real;
    assert a * k as real == x as real && b * m as real == y as real;
    assert (k * y) as real == w * b && (m * x) as real == w * a;
    assert (points * k * m) as real == w * points as real;
    Scaled(b - a, points as real, w);
    assert w * (b - a) == w * b - w * a;
  }

  lemma Scaled(a: real, b: real, w: real)
    requires w > 0.0
    ensures a >= b <==> w * a >= w * b
    ensures a <= b <==> w * a <= w * b
  {
  }

  /** The trend compares the averages of the halves: it moves exactly when they are three points apart. */
  lemma TrendIff(window: seq<int>)
    requires |window| >= 4
    ensures var k, m := |window| / 2, |window| - |window| / 2;
            var move := k * Sum(window[k..]) - m * Sum(window[..k]);
            && (TrendOf(window) == Improving <==> move >= 3 * k * m)
            && (TrendOf(window) == Regressing <==> move <= -3 * k * m)
            && (TrendOf(window) == Stable <==> -3 * k * m < move < 3 * k * m)
  {
    var k, m := |window| / 2, |window| - |window| / 2;
    MoveOfAverages(Sum(window[..k]), k, Sum(window[k..]), m, 3);
    MoveOfAverages(Sum(window[..k]), k, Sum(window[k..]), m, -3);
  }

  lemma SumOfThree(s: seq<int>)
    requires |s| == 3
    ensures Sum(s) == s[0] + s[1] + s[2]
  {
    hide Sum;
    NothingSummed();
    SumLastOf(s);
    SumLastOf(s[..2]);
    SumLastOf(s[..2][..1]);
    assert s[..2][..1][..0] == [];
  }

  lemma NothingSummed()
    ensures Sum([]) == 0
  {
  }

  /** In a full window the last four scores are compared with the three before them. */
  lemma FullWindowTrend(w: seq<int>)
    requires |w| == 7
    ensures var move := 3 * (w[3] + w[4] + w[5] + w[6]) - 4 * (w[0] + w[1] + w[2]);
            && (TrendOf(w) == Improving <==> move >= 36)
            && (TrendOf(w) == Regressing <==> move <= -36)
  {
    hide TrendOf, Sum;
    TrendIff(w);
    SumOfThree(w[..3]);
    SumOfThree(w[3..][..3]);
    SumLastOf(w[3..]);
  }

  lemma SumLastOf(s: seq<int>)
    requires s != []
    ensures Sum(s) == Sum(s[..|s| - 1]) + s[|s| - 1]
  {
  }

  /** A later half that lies three points above the first is an improvement, one that lies three below a regression. */
  lemma HalvesApart(window: seq<int>, low: int, high: int)
    requires |window| >= 4 && high >= low + 3
    ensures (forall i :: 0 <= i < |window| ==> if i < |window| / 2 then window[i] <= low else window[i] >= high) ==>
              TrendOf(window) == Improving
    ensures (forall i :: 0 <= i < |window| ==> if i < |window| / 2 then window[i] >= high else window[i] <= low) ==>
              TrendOf(window) == Regressing
  {
    hide Average, Sum;
    var split := |window| / 2;
    var first, second := window[..split], window[split..];
    if forall i :: 0 <= i < |window| ==> if i < split then window[i] <= low else window[i] >= high {
      AverageAtMost(first, low);
      AverageAtLeast(second, high);
    }
    if forall i :: 0 <= i < |window| ==> if i < split then window[i] >= high else window[i] <= low {
      AverageAtLeast(first, high);
      AverageAtMost(second, low);
    }
  }

  lemma {:induction false} AverageAtMost(s: seq<int>, hi: int)
    requires s != [] && forall i :: 0 <= i < |s| ==> s[i] <= hi
    ensures Average(s) <= hi as real
  {
    SumAtMost(s, hi);
    DivideUpper(Sum(s), |s|, hi);
  }

  lemma {:induction false} SumAtMost(s: seq<int>, hi: int)
    requires forall i :: 0 <= i < |s| ==> s[i] <= hi
    ensures Sum(s) <= hi * |s|
  {
    if s != [] {
      SumAtMost(s[..|s| - 1], hi);
      assert hi * |s| == hi * (|s| - 1) + hi;
    }
  }

  lemma {:induction false} AverageAtLeast(s: seq<int>, lo: int)
    requires s != [] && forall i :: 0 <= i < |s| ==> s[i] >= lo
    ensures Average(s) >= lo as real
  {
    SumAtLeast(s, lo);
    DivideLower(Sum(s), |s|, lo);
  }

  lemma {:induction false} SumAtLeast(s: seq<int>, lo: int)
    requires forall i :: 0 <= i < |s| ==> s[i] >= lo
    ensures Sum(s) >= lo * |s|
  {
    if s != [] {
      SumAtLeast(s[..|s| - 1], lo);
      assert lo * |s| == lo * (|s| - 1) + lo;
    }
  }

  // ---------------------------------------------------------------- confidence score

  datatype Band = AutoApproveCandidate | ManualReview | RemediationRequired

  function AtMostOne(x: real): real { if x > 1.0 then 1.0 else x }

  predicate IsPassed(b: bool) { b }

  /** The blend of pass rate, database size and matrix size, rounded and clamped to 0..100. */
  function ConfidenceScore(checks: seq<bool>, totalScenarios: int, matrixCount: int, minimum: int): (score: int)
    ensures 0 <= score <= 100
  {
    var passRate := |Filter(IsPassed, checks)| as real / AtLeastOne(|checks|) as real;
    var dbRatio := AtMostOne(totalScenarios as real / AtLeastOne(minimum) as real);
    var matrixRatio := AtMostOne(matrixCount as real / 1000.0);
    var rounded := RoundHalfEven(passRate * 70.0 + dbRatio * 20.0 + matrixRatio * 10.0);
    if rounded < 0 then 0 else if rounded > 100 then 100 else rounded
  }

  function ConfidenceBand(score: int): Band {
    if score >= 90 then AutoApproveCandidate else if score >= 70 then ManualReview else RemediationRequired
  }

  /** Rounding reaches an even number exactly from half below it. */
  lemma RoundReaches(x: real, n: int)
    requires n % 2 == 0
    ensures RoundHalfEven(x) >= n <==> x >= n as real - 0.5
  {
  }

  lemma {:induction false} PassedBound(checks: seq<bool>)
    ensures |Filter(IsPassed, checks)| <= |checks|
  {
    if checks != [] { PassedBound(checks[..|checks| - 1]); }
  }

  lemma RateAtLeast(p: nat, t: nat, num: int, den: int)
    requires t > 0 && den > 0
    ensures p as real / t as real >= num as real / den as real <==> den * p >= num * t
  {
    var r, q := p as real / t as real, num as real / den as real;
    assert r * t as real == p as real && q * den as real == num as real;
    assert (den * p) as real == den as real * t as real * r;
    assert (num * t) as real == den as real * t as real * q;
    var w := den as real * t as real;
    assert w > 0.0;
    if r >= q { assert w * r >= w * q; } else { assert w * r < w * q; }
  }

  /** With a large enough database only the pass rate decides, at exactly these thresholds. */
  lemma FullDatabaseScore(checks: seq<bool>, totalScenarios: int, matrixCount: int, minimum: int)
    requires totalScenarios >= AtLeastOne(minimum) && matrixCount >= 1000
    ensures var score := ConfidenceScore(checks, totalScenarios, matrixCount, minimum);
            var passed, total := |Filter(IsPassed, checks)|, AtLeastOne(|checks|);
            && score >= 30
            && (score == 100 <==> 140 * passed >= 139 * total)
            && (ConfidenceBand(score) == AutoApproveCandidate <==> 20 * passed >= 17 * total)
            && (ConfidenceBand(score) == RemediationRequired <==> 140 * passed < 79 * total)
  {
    hide RoundHalfEven, Filter;
    var passed, total := |Filter(IsPassed, checks)|, AtLeastOne(|checks|);
    PassedBound(checks);
    FullRatio(totalScenarios, AtLeastOne(minimum));
    var rate := passed as real / total as real;
    DivideLower(passed, total, 0);
    DivideUpper(passed, total, 1);
    BlendThresholds(rate);
    RateAtLeast(passed, total, 139, 140);
    RateAtLeast(passed, total, 17, 20);
    RateAtLeast(passed, total, 79, 140);
  }

  /** The checks are worth seventy points in proportion to those that passed. */
  lemma ChecksAreSeventy(checks: seq<bool>, totalScenarios: int, matrixCount: int, minimum: int, k: nat)
    requires totalScenarios >= AtLeastOne(minimum) && matrixCount >= 1000
    requires 10 * |Filter(IsPassed, checks)| == k * AtLeastOne(|checks|)
    ensures ConfidenceScore(checks, totalScenarios, matrixCount, minimum) == 30 + 7 * k
  {
    hide RoundHalfEven, Filter;
    var passed, total := |Filter(IsPassed, checks)|, AtLeastOne(|checks|);
    PassedBound(checks);
    FullRatio(totalScenarios, AtLeastOne(minimum));
    Share(passed, total, k, 10);
    assert k <= 10 by { if k > 10 { AtMostShare(k, total); } }
    RoundInt(30 + 7 * k);
  }

  lemma AtMostShare(k: nat, total: nat)
    requires k > 10 && total > 0
    ensures k * total > 10 * total
  {
  }

  /** With all checks passed the size of the database is worth twenty points in proportion to the minimum. */
  lemma SizeIsTwenty(checks: seq<bool>, totalScenarios: int, matrixCount: int, minimum: int, k: nat)
    requires checks != [] && |Filter(IsPassed, checks)| == |checks| && matrixCount >= 1000
    requires k <= 20 && 20 * totalScenarios == k * AtLeastOne(minimum)
    ensures ConfidenceScore(checks, totalScenarios, matrixCount, minimum) == 80 + k
  {
    hide RoundHalfEven, Filter;
    FullRatio(|checks|, |checks|);
    Share(totalScenarios, AtLeastOne(minimum), k, 20);
    RoundInt(80 + k);
  }

  /** With all checks passed and enough scenarios the matrix is worth ten points, one for each hundred rows. */
  lemma MatrixIsTen(checks: seq<bool>, totalScenarios: int, matrixCount: int, minimum: int, k: nat)
    requires checks != [] && |Filter(IsPassed, checks)| == |checks| && totalScenarios >= AtLeastOne(minimum)
    requires k <= 10 && matrixCount == 100 * k
    ensures ConfidenceScore(checks, totalScenarios, matrixCount, minimum) == 90 + k
  {
    hide RoundHalfEven, Filter;
    FullRatio(|checks|, |checks|);
    FullRatio(totalScenarios, AtLeastOne(minimum));
    RoundInt(90 + k);
  }

  lemma Share(p: int, t: int, k: int, n: int)
    requires t > 0 && n > 0 && n * p == k * t
    ensures p as real / t as real == k as real / n as real
  {
    var r, q := p as real / t as real, k as real / n as real;
    assert r * t as real == p as real && q * n as real == k as real;
    var w := n as real * t as real;
    assert w * r == (n * p) as real && w * q == (k * t) as real;
    Cancel(r, q, w);
    Cancel(q, r, w);
  }

  lemma BlendThresholds(rate: real)
    requires 0.0 <= rate <= 1.0
    ensures var rounded := RoundHalfEven(rate * 70.0 + 30.0);
            && 30 <= rounded <= 100
            && (rounded >= 100 <==> rate >= 139.0 / 140.0)
            && (rounded >= 90 <==> rate >= 17.0 / 20.0)
            && (rounded >= 70 <==> rate >= 79.0 / 140.0)
  {
    hide RoundHalfEven;
    var blended := rate * 70.0 + 30.0;
    RoundBetween(30, blended, 100);
    RoundReaches(blended, 100);
    RoundReaches(blended, 90);
    RoundReaches(blended, 70);
  }

  lemma FullRatio(n: int, m: int)
    requires n >= m >= 1
    ensures AtMostOne(n as real / m as real) == 1.0
  {
    var q := n as real / m as real;
    assert q * m as real == n as real;
    Cancel(1.0, q, m as real);
  }

  // ---------------------------------------------------------------- domain confidence

  function DomainTarget(minimum: int): real {
    var fifth := minimum as real / 5.0;
    if fifth < 1.0 then 1.0 else fifth
  }

  function DomainConfidence(count: real, minimum: int): int {
    RoundHalfEven(Clamp(count / DomainTarget(minimum) * 100.0))
  }

  /** A key of the `domains` dictionary; only texts name a domain. */
  datatype DomainKey = Text(name: string) | NotText(id: int)

  /** `_build_domain_confidence_snapshot`: domains is None when it is no dictionary, a count when it is no number. */
  method DomainSnapshot(domains: Option<map<DomainKey, Option<real>>>, minimum: int)
    returns (snapshot: map<string, int>)
    ensures domains.None? ==> snapshot == map[]
    ensures domains.Some? ==> forall name :: name in snapshot <==> Text(name) in domains.value
    ensures domains.Some? ==> forall name :: name in snapshot ==>
              snapshot[name] == DomainConfidence(domains.value[Text(name)].GetOr(0.0), minimum)
  {
    hide DomainConfidence;
    snapshot := map[];
    if domains.None? { return; }
    var remaining := domains.value.Keys;
    while remaining != {}
      invariant remaining <= domains.value.Keys
      invariant forall name :: name in snapshot <==> Text(name) in domains.value && Text(name) !in remaining
      invariant forall name :: name in snapshot ==>
                  snapshot[name] == DomainConfidence(domains.value[Text(name)].GetOr(0.0), minimum)
      decreases |remaining|
    {
      var key :| key in remaining;
      remaining := remaining - {key};
      if key.NotText? { continue; }
      var numeric := domains.value[key].GetOr(0.0);
      snapshot := snapshot[key.name := DomainConfidence(numeric, minimum)];
    }
  }

  /** A domain is fully confident exactly from 99.5 percent of its target on. */
  lemma FullConfidenceIff(count: real, minimum: int)
    ensures DomainConfidence(count, minimum) == 100 <==> 200.0 * count >= 199.0 * DomainTarget(minimum)
    ensures 0 <= DomainConfidence(count, minimum) <= 100
  {
    hide RoundHalfEven;
    var target := DomainTarget(minimum);
    var percent := count / target * 100.0;
    assert percent * target == 100.0 * count;
    RoundBetween(0, Clamp(percent), 100);
    RoundReaches(Clamp(percent), 100);
    if percent >= 99.5 { assert percent * target >= 99.5 * target; } else { assert percent * target < 99.5 * target; }
  }

  /** In between a domain has as many percent as it has hundredths of a fifth of the minimum. */
  lemma DomainShare(count: int, minimum: int, k: nat)
    requires minimum >= 5 && k <= 100 && 500 * count == k * minimum
    ensures DomainConfidence(count as real, minimum) == k
  {
    hide RoundHalfEven;
    var target := DomainTarget(minimum);
    assert target == minimum as real / 5.0;
    Share(500 * count, minimum, k, 1);
    RoundInt(k);
    PercentOf(count as real, minimum as real, k as real);
  }

  lemma PercentOf(count: real, minimum: real, k: real)
    requires minimum > 0.0 && 500.0 * count / minimum == k
    ensures count / (minimum / 5.0) * 100.0 == k
  {
    var q := 500.0 * count / minimum;
    assert q * minimum == 500.0 * count;
    var r := count / (minimum / 5.0);
    assert r * (minimum / 5.0) == count;
    assert r * minimum == 5.0 * count;
    assert (r * 100.0 - q) * minimum == 0.0;
  }

  // ---------------------------------------------------------------- a freshly built database

  ghost predicate AllDomainsFull(s: ScenarioBuild.Surfaces, minimum: int) {
    var counts := ScenarioBuild.DatabaseOf(s).domains;
    forall d :: 0 <= d < |ScenarioDatabase.DOMAINS| ==> DomainConfidence(counts[d] as real, minimum) == 100
  }

  /** Every freshly built database gives all five domains full confidence exactly up to a minimum of 8683 scenarios. */
  lemma FreshDomainsIff(minimum: int)
    ensures (forall s :: AllDomainsFull(s, minimum)) <==> minimum <= 8683
  {
    hide AllDomainsFull;
    if minimum <= 8683 {
      forall s ensures AllDomainsFull(s, minimum) { FreshDomains(s, minimum); }
    } else {
      EmptyRepositoryFallsShort(minimum);
    }
  }

  lemma FreshDomains(s: ScenarioBuild.Surfaces, minimum: int)
    requires minimum <= 8683
    ensures AllDomainsFull(s, minimum)
  {
    hide ScenarioBuild.DatabaseOf, DomainConfidence, ScenarioBuild.Entries, ScenarioDatabase.Dedup;
    ScenarioBuild.DatabaseSound(s);
    var counts := ScenarioBuild.DatabaseOf(s).domains;
    forall d | 0 <= d < |ScenarioDatabase.DOMAINS| ensures DomainConfidence(counts[d] as real, minimum) == 100 {
      FullConfidenceIff(counts[d] as real, minimum);
    }
  }

  lemma EmptyRepositoryFallsShort(minimum: int)
    requires minimum > 8683
    ensures !AllDomainsFull(ScenarioBuild.NOTHING, minimum)
  {
    hide DomainConfidence, ScenarioBuild.Entries, ScenarioDatabase.Dedup, ScenarioBuild.LearningOf, Having;
    ScenarioBuild.NothingDomainRows(0);
    FullConfidenceIff(1728.0, minimum);
    assert ScenarioBuild.DatabaseOf(ScenarioBuild.NOTHING).domains[0] == 1728;
  }

  /** While the database is as large as the minimum asks, its score is full exactly by the pass rate. */
  lemma FreshDatabaseConfidence(s: ScenarioBuild.Surfaces, minimum: int, checks: seq<bool>)
    requires minimum <= ScenarioBuild.DatabaseOf(s).total
    ensures var db := ScenarioBuild.DatabaseOf(s);
            ConfidenceScore(checks, db.total, db.kinds[7], minimum) == 100 <==>
            140 * |Filter(IsPassed, checks)| >= 139 * AtLeastOne(|checks|)
  {
    hide ScenarioBuild.DatabaseOf, ScenarioBuild.Entries, ScenarioDatabase.Dedup, ConfidenceScore;
    ScenarioBuild.DatabaseSound(s);
    var db := ScenarioBuild.DatabaseOf(s);
    FullDatabaseScore(checks, db.total, db.kinds[7], minimum);
  }
}
