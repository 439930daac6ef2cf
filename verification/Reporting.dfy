/** The portfolio scorecard, the weekly KPI snapshot built from it, and the validator that compares the two. */
module Reporting {
  import opened Ordering
  import opened Outcomes
  import opened Rounding

  /** One repository's record; the empty and the missing identifier are alike. */
  datatype Record = Record(
    repoId: string, repo: string, gateFast: bool, gateRelease: bool, doctor: bool, failedSteps: int)

  datatype Row = Row(repoId: string, riskTier: string, confident: bool, gateFast: bool, gateRelease: bool,
    doctor: bool, failedSteps: int, windowEnd: Option<string>)

  /** A numeric field of a parsed payload. */
  datatype Field<T> = Absent | Null | Given(value: T) {
    /** `int(payload.get(key, default))`, which raises on null. */
    function OrElse(default: T): Outcome<T> {
      match this
      case Absent => Returned(default)
      case Null => Raised
      case Given(x) => Returned(x)
    }
  }

  datatype Portfolio = Portfolio(
    repos: seq<Row>, repoCount: Field<int>, high: int, medium: int, low: int, failureRate: Field<real>)

  datatype KpiName = Onboarding | DecisionTime | FailedGate | Rollback | Triage | Conversion | OtherKpi(name: string)

  datatype Metric = Metric(value: Option<real>, sampleSize: Option<int>, unit: string)

  datatype Kpi = Kpi(weekEnding: Option<string>, metrics: map<KpiName, Metric>)

  datatype Report = Report(repoCount: int, weekEnding: Option<string>)

  // ---------------------------------------------------------------- portfolio scorecard

  /** `release_confidence_ok` */
  predicate Confident(r: Record) { r.gateFast && r.gateRelease && r.doctor && r.failedSteps == 0 }

  predicate GateFailed(r: Record) { !r.gateRelease }

  function Risk(r: Record): string {
    if r.gateFast && r.gateRelease && r.doctor && r.failedSteps == 0 then "low"
    else if !r.gateRelease || r.failedSteps >= 2 then "high"
    else "medium"
  }

  function NormalizeRow(r: Record, windowEnd: string): Row {
    Row(if r.repoId != "" then r.repoId else if r.repo != "" then r.repo else "unknown-repo",
      Risk(r), Confident(r), r.gateFast, r.gateRelease, r.doctor, r.failedSteps, Some(windowEnd))
  }

  function Normalizer(windowEnd: string): Record -> Row { r => NormalizeRow(r, windowEnd) }

  function RowKey(row: Row): Key { Key([], [row.riskTier, row.repoId]) }

  function TierOf(row: Row): string { row.riskTier }

  predicate RowConfident(row: Row) { row.confident }

  predicate RowGateFailed(row: Row) { !row.gateRelease }

  /** `round(part / whole * 100, 2) if whole else 0.0` */
  function Percent(part: int, whole: int): real {
    if whole == 0 then 0.0 else Round2(part as real / whole as real * 100.0)
  }

  /** The scorecard of the records, every total counted over the records themselves. */
  function Summary(records: seq<Record>, windowEnd: string): Portfolio {
    Portfolio(Sort(Map(Normalizer(windowEnd), records), RowKey), Given(|records|),
      |Having(records, Risk, "high")|, |Having(records, Risk, "medium")|, |Having(records, Risk, "low")|,
      Given(Percent(|Filter(GateFailed, records)|, |records|)))
  }

  /** `_build_summary`, which sorts the rows first and counts over the sorted rows. */
  method BuildSummary(records: seq<Record>, windowEnd: string) returns (summary: Portfolio)
    ensures summary == Summary(records, windowEnd)
    ensures multiset(summary.repos) == multiset(Map(Normalizer(windowEnd), records))
    ensures StableSortOf(summary.repos, Map(Normalizer(windowEnd), records), RowKey)
  {
    hide NormalizeRow, KeyLeq, IsSorted, StableSortOf, Percent, Filter, Having, Sort;
    var repos := Map(Normalizer(windowEnd), records);
    repos := Sort(repos, RowKey);
    SortMultiset(Map(Normalizer(windowEnd), records), RowKey);
    SortIsStable(Map(Normalizer(windowEnd), records), RowKey);
    RowCounts(repos, records, windowEnd);
    var total := |repos|;
    SameLength(repos, Map(Normalizer(windowEnd), records));
    var failures := |Filter(RowGateFailed, repos)|;
    summary := Portfolio(repos, Given(total), |Having(repos, TierOf, "high")|, |Having(repos, TierOf, "medium")|,
      |Having(repos, TierOf, "low")|, Given(Percent(failures, total)));
  }

  /** Counting over the rows, in whatever order, is counting over the records. */
  lemma RowCounts(rows: seq<Row>, records: seq<Record>, windowEnd: string)
    requires multiset(rows) == multiset(Map(Normalizer(windowEnd), records))
    ensures |Having(rows, TierOf, "high")| == |Having(records, Risk, "high")|
    ensures |Having(rows, TierOf, "medium")| == |Having(records, Risk, "medium")|
    ensures |Having(rows, TierOf, "low")| == |Having(records, Risk, "low")|
    ensures |Filter(RowGateFailed, rows)| == |Filter(GateFailed, records)|
    ensures |Filter(RowConfident, rows)| == |Filter(Confident, records)|
  {
    var normalized := Map(Normalizer(windowEnd), records);
    TierCount(rows, records, windowEnd, "high");
    TierCount(rows, records, windowEnd, "medium");
    TierCount(rows, records, windowEnd, "low");
    FilterOfMap(Normalizer(windowEnd), RowGateFailed, GateFailed, records);
    FilterOfMap(Normalizer(windowEnd), RowConfident, Confident, records);
    FilterPermutation(RowGateFailed, rows, normalized);
    FilterPermutation(RowConfident, rows, normalized);
    SameLength(Filter(RowGateFailed, rows), Filter(RowGateFailed, normalized));
    SameLength(Filter(RowConfident, rows), Filter(RowConfident, normalized));
  }

  lemma TierCount(rows: seq<Row>, records: seq<Record>, windowEnd: string, tier: string)
    requires multiset(rows) == multiset(Map(Normalizer(windowEnd), records))
    ensures |Having(rows, TierOf, tier)| == |Having(records, Risk, tier)|
  {
    var normalized := Map(Normalizer(windowEnd), records);
    FilterOfMap(Normalizer(windowEnd), Equals(TierOf, tier), Equals(Risk, tier), records);
    FilterPermutation(Equals(TierOf, tier), rows, normalized);
    SameLength(Having(rows, TierOf, tier), Having(normalized, TierOf, tier));
  }

  // ---------------------------------------------------------------- KPI snapshot and validator

  function Total(p: Portfolio): Outcome<int> { p.repoCount.OrElse(|p.repos|) }

  function Sampled(value: Option<real>, unit: string, total: int): Metric {
    Metric(value, if value.Some? then Some(total) else None, if value.Some? then unit else "n/a")
  }

  /** `_build_payload` */
  function BuildKpi(p: Portfolio, weekEnding: string, rollbacks: int, decisionTime: Option<real>,
    triageTime: Option<real>, conversion: Option<real>): Outcome<Kpi>
  {
    match (Total(p), p.failureRate.OrElse(0.0))
    case (Returned(total), Returned(rate)) =>
      Returned(Kpi(Some(weekEnding), map[
        Onboarding := Metric(Some(Percent(|Filter(RowConfident, p.repos)|, total)), Some(total), "percent"),
        DecisionTime := Sampled(decisionTime, "minutes", total),
        FailedGate := Metric(Some(rate), Some(total), "percent"),
        Rollback := Metric(Some(rollbacks as real), Some(rollbacks), "count"),
        Triage := Sampled(triageTime, "minutes", total),
        Conversion := Sampled(conversion, "percent", total)]))
    case _ => Raised
  }

  /** `abs(float(actual) - expected) < 0.01`; null has no float. */
  predicate Agrees(actual: Option<real>, expected: real) {
    actual.Some? && -0.01 < actual.value - expected < 0.01
  }

  /** `evidence_window_end_values`: the non-empty window ends. */
  function WindowEnds(rows: seq<Row>): set<string> {
    set row | row in rows && row.windowEnd.Some? && row.windowEnd.value != "" :: row.windowEnd.value
  }

  /** No window end, no week ending, or the week ending is one of the window ends. */
  predicate WeekAligned(rows: seq<Row>, weekEnding: Option<string>) {
    WindowEnds(rows) == {} || weekEnding.GetOr("") == "" || weekEnding.value in WindowEnds(rows)
  }

  /** `_validate` */
  function Validate(p: Portfolio, kpi: Kpi): Outcome<Report> {
    match (Total(p), p.failureRate.OrElse(0.0))
    case (Returned(total), Returned(rate)) =>
      if total != |p.repos| then Raised
      else if !({Onboarding, FailedGate, Rollback} <= kpi.metrics.Keys) then Raised
      else if !Agrees(kpi.metrics[Onboarding].value, Percent(|Filter(RowConfident, p.repos)|, total)) then Raised
      else if !Agrees(kpi.metrics[FailedGate].value, rate) then Raised
      else if kpi.metrics[FailedGate].sampleSize != Some(total) then Raised
      else if !WeekAligned(p.repos, kpi.weekEnding) then Raised
      else Returned(Report(total, kpi.weekEnding))
    case _ => Raised
  }

  // ---------------------------------------------------------------- builder and validator agree

  /** A snapshot passes against the portfolio it was built from exactly when that portfolio's declared
      count is its number of rows and the week ending is aligned with it. */
  lemma SnapshotValidatesIff(p: Portfolio, weekEnding: string, rollbacks: int, decisionTime: Option<real>,
      triageTime: Option<real>, conversion: Option<real>)
    requires BuildKpi(p, weekEnding, rollbacks, decisionTime, triageTime, conversion).Returned?
    ensures Validate(p, BuildKpi(p, weekEnding, rollbacks, decisionTime, triageTime, conversion).value).Returned?
      <==> Total(p) == Returned(|p.repos|) && WeekAligned(p.repos, Some(weekEnding))
  {
    hide Percent, WeekAligned, Filter;
  }

  lemma SummaryWindowEnds(records: seq<Record>, windowEnd: string)
    ensures WindowEnds(Summary(records, windowEnd).repos) ==
            if records == [] || windowEnd == "" then {} else {windowEnd}
  {
    var rows, normalized := Summary(records, windowEnd).repos, Map(Normalizer(windowEnd), records);
    SortMultiset(normalized, RowKey);
    forall row | row in rows ensures row.windowEnd == Some(windowEnd) {
      assert row in multiset(normalized);
      assert row in normalized;
    }
    SameLength(rows, normalized);
    if records != [] && windowEnd != "" {
      assert rows[0] in rows;
      assert windowEnd in WindowEnds(rows);
    }
  }

  /** The snapshot of a built scorecard passes exactly when there is nothing to align or the week ending
      is the window end; reusing the window end as week ending therefore always passes. */
  lemma BuiltReportsAgree(records: seq<Record>, windowEnd: string, weekEnding: string, rollbacks: int,
      decisionTime: Option<real>, triageTime: Option<real>, conversion: Option<real>)
    ensures var p := Summary(records, windowEnd);
            var kpi := BuildKpi(p, weekEnding, rollbacks, decisionTime, triageTime, conversion);
            && kpi.Returned?
            && (Validate(p, kpi.value).Returned? <==>
                records == [] || windowEnd == "" || weekEnding == "" || weekEnding == windowEnd)
  {
    hide Percent, Filter, Having, Sort, WindowEnds, NormalizeRow;
    var p := Summary(records, windowEnd);
    SortMultiset(Map(Normalizer(windowEnd), records), RowKey);
    SameLength(p.repos, Map(Normalizer(windowEnd), records));
    SummaryWindowEnds(records, windowEnd);
    SnapshotValidatesIff(p, weekEnding, rollbacks, decisionTime, triageTime, conversion);
  }

  /** A snapshot for another week than the one the scorecard covers is refused. */
  lemma MisalignedWeek(r: Record)
    ensures var p := Summary([r], "2026-01-04");
            var kpi := BuildKpi(p, "2026-01-11", 0, None, None, None);
            kpi.Returned? && Validate(p, kpi.value).Raised?
  {
    hide Summary, BuildKpi, Validate;
    BuiltReportsAgree([r], "2026-01-04", "2026-01-11", 0, None, None, None);
  }

  // ---------------------------------------------------------------- what the numbers mean

  lemma {:induction false} TiersCover(records: seq<Record>)
    ensures |Having(records, Risk, "high")| + |Having(records, Risk, "medium")| + |Having(records, Risk, "low")| ==
            |records|
    ensures |Having(records, Risk, "low")| == |Filter(Confident, records)|
    ensures |Filter(GateFailed, records)| <= |Having(records, Risk, "high")|
  {
    if records != [] {
      TiersCover(records[..|records| - 1]);
      HavingStep(records, Risk, "high");
      HavingStep(records, Risk, "medium");
      HavingStep(records, Risk, "low");
    }
  }

  /** The tiers add up to the total, a failed release gate is always high risk, and the onboarding rate of the
      snapshot is the low-risk share. */
  lemma OnboardingIsLowRiskShare(records: seq<Record>, windowEnd: string, weekEnding: string, rollbacks: int,
      decisionTime: Option<real>, triageTime: Option<real>, conversion: Option<real>)
    ensures var p := Summary(records, windowEnd);
      && p.high + p.medium + p.low == |p.repos| == |records|
      && p.failureRate.Given? && 0.0 <= p.failureRate.value <= Percent(p.high, |records|) <= 100.0
      && var kpi := BuildKpi(p, weekEnding, rollbacks, decisionTime, triageTime, conversion);
      && kpi.Returned? && Onboarding in kpi.value.metrics
      && kpi.value.metrics[Onboarding].value == Some(Percent(p.low, |records|))
  {
    hide Percent, Filter, Having, Sort, NormalizeRow;
    var p, normalized := Summary(records, windowEnd), Map(Normalizer(windowEnd), records);
    SortMultiset(normalized, RowKey);
    SameLength(p.repos, normalized);
    RowCounts(p.repos, records, windowEnd);
    TiersCover(records);
    PercentMonotone(0, |Filter(GateFailed, records)|, |records|);
    PercentMonotone(|Filter(GateFailed, records)|, p.high, |records|);
    PercentMonotone(p.high, |records|, |records|);
    PercentEnds(|records|);
  }

  lemma PercentMonotone(a: int, b: int, whole: nat)
    requires a <= b
    ensures Percent(a, whole) <= Percent(b, whole)
  {
    if whole != 0 {
      ShareMonotone(a as real, b as real, whole as real);
      RoundMonotone(a as real / whole as real * 100.0 * 100.0, b as real / whole as real * 100.0 * 100.0);
    }
  }

  lemma ShareMonotone(a: real, b: real, w: real)
    requires a <= b && w > 0.0
    ensures a / w <= b / w
  {
    assert (b / w - a / w) * w == b - a;
    NonNegativeFactor(b / w - a / w, w);
  }

  lemma NonNegativeFactor(d: real, w: real)
    requires d * w >= 0.0 && w > 0.0
    ensures d >= 0.0
  {
  }

  lemma ScaleOrder(x: real, y: real, w: real)
    requires x < y && w > 0.0
    ensures x * w < y * w
  {
    assert (y - x) * w > 0.0;
  }

  lemma PercentEnds(whole: nat)
    ensures Percent(0, whole) == 0.0
    ensures whole > 0 ==> Percent(whole, whole) == 100.0
    ensures Percent(whole, whole) <= 100.0
  {
    RoundInt(0);
    RoundInt(10000);
    if whole != 0 {
      assert whole as real / whole as real == 1.0;
      assert (1.0 * 100.0) * 100.0 == 10000 as real;
    }
  }

  function RiskRank(r: Record): nat { if Risk(r) == "low" then 0 else if Risk(r) == "medium" then 1 else 2 }

  /** Losing a check or failing more steps lowers the risk exactly when a negative step count rises to zero with every
      check passed; a failed release gate or a second failed step is enough for the highest tier. */
  lemma RiskNeverFalls(r: Record, worse: Record)
    requires (worse.gateFast ==> r.gateFast) && (worse.gateRelease ==> r.gateRelease) && (worse.doctor ==> r.doctor)
    requires r.failedSteps <= worse.failedSteps
    ensures RiskRank(r) <= RiskRank(worse) <==> !(r.failedSteps < 0 && Confident(worse))
    ensures RiskRank(r) == 2 <==> r.gateRelease ==> r.failedSteps > 1
    ensures RiskRank(r) == 0 <==> Confident(r)
  {
  }

  /** A step count of minus one is medium risk, and one more failed step makes it low. */
  lemma NegativeStepsFall()
    ensures var r := Record("", "", true, true, true, -1); RiskRank(r) == 1 && RiskRank(r.(failedSteps := 0)) == 0
  {
  }

  // ---------------------------------------------------------------- what an accepted pair guarantees

  /** An accepted snapshot is within 0.015 points of the exact share of confident rows. */
  lemma AcceptedShare(p: Portfolio, kpi: Kpi)
    requires Validate(p, kpi).Returned? && p.repos != []
    ensures Onboarding in kpi.metrics && kpi.metrics[Onboarding].value.Some?
    ensures var exact := |Filter(RowConfident, p.repos)| as real / |p.repos| as real * 100.0;
      -0.015 < kpi.metrics[Onboarding].value.value - exact < 0.015
  {
    hide Filter, WeekAligned;
    RoundNearest(|Filter(RowConfident, p.repos)| as real / |p.repos| as real * 100.0 * 100.0);
  }

  /** One snapshot accepted against two portfolios: they have equally many rows, and their numbers of confident
      rows differ by less than three in ten thousand rows, so not at all up to 3333 rows. */
  lemma SnapshotDeterminesConfidence(p: Portfolio, q: Portfolio, kpi: Kpi)
    requires Validate(p, kpi).Returned? && Validate(q, kpi).Returned? && p.repos != []
    ensures |p.repos| == |q.repos|
    ensures var gap := |Filter(RowConfident, p.repos)| - |Filter(RowConfident, q.repos)|;
      && -3 * |p.repos| < 10000 * gap < 3 * |p.repos|
      && (|p.repos| <= 3333 ==> gap == 0)
  {
    assert |p.repos| == |q.repos| by { hide Filter, WeekAligned, Percent; }
    AcceptedShare(p, kpi);
    AcceptedShare(q, kpi);
    var n, a, b := |p.repos| as real, |Filter(RowConfident, p.repos)| as real, |Filter(RowConfident, q.repos)| as real;
    hide *;
    GapBound(a, b, n);
    GapInt(|Filter(RowConfident, p.repos)|, |Filter(RowConfident, q.repos)|, |p.repos|);
  }

  lemma GapBound(a: real, b: real, n: real)
    requires n > 0.0 && -0.03 < a / n * 100.0 - b / n * 100.0 < 0.03
    ensures -0.0003 * n < a - b < 0.0003 * n
  {
    var x, y := a / n, b / n;
    assert x * n == a && y * n == b;
    assert (x - y) * n == a - b;
    ScaleOrder(-0.0003, x - y, n);
    ScaleOrder(x - y, 0.0003, n);
  }

  lemma GapInt(a: int, b: int, n: int)
    requires -0.0003 * n as real < a as real - b as real < 0.0003 * n as real
    ensures -3 * n < 10000 * (a - b) < 3 * n
  {
    assert (10000 * (a - b)) as real == 10000.0 * (a as real - b as real);
    assert (3 * n) as real == 3.0 * n as real;
  }

  // ---------------------------------------------------------------- record order

  /** The order of the records changes no total and no metric. */
  lemma SnapshotIgnoresOrder(records: seq<Record>, records': seq<Record>, windowEnd: string, weekEnding: string,
      rollbacks: int, decisionTime: Option<real>, triageTime: Option<real>, conversion: Option<real>)
    requires multiset(records) == multiset(records')
    ensures Summary(records', windowEnd).(repos := Summary(records, windowEnd).repos) == Summary(records, windowEnd)
    ensures Map(RowKey, Summary(records', windowEnd).repos) == Map(RowKey, Summary(records, windowEnd).repos)
    ensures BuildKpi(Summary(records, windowEnd), weekEnding, rollbacks, decisionTime, triageTime, conversion)
      == BuildKpi(Summary(records', windowEnd), weekEnding, rollbacks, decisionTime, triageTime, conversion)
  {
    hide Percent, Filter, Having, Sort, NormalizeRow;
    var rows, rows' := Map(Normalizer(windowEnd), records), Map(Normalizer(windowEnd), records');
    MapPermutation(Normalizer(windowEnd), records, records');
    SortedKeysOfPermutation(rows, rows', RowKey);
    SameLength(records, records');
    SortMultiset(rows, RowKey);
    SortMultiset(rows', RowKey);
    RowCounts(rows', records, windowEnd);
    RowCounts(rows', records', windowEnd);
    RowCounts(Sort(rows, RowKey), records, windowEnd);
    RowCounts(Sort(rows', RowKey), records', windowEnd);
  }
}
