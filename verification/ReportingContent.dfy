/** What a scorecard, a snapshot and the validator say about the records and rows they are given. */
module ReportingContent {
  import opened Ordering
  import opened Outcomes
  import opened Rounding
  import opened Reporting

  // ---------------------------------------------------------------- percentages

  /** k is the whole number nearest to n / whole, and the even one of two. */
  ghost predicate IsNearest(k: int, n: int, whole: int) {
    var gap := 2 * (k * whole - n);
    gap + whole >= 0 && gap <= whole && (gap + whole == 0 || gap == whole ==> k % 2 == 0)
  }

  /** The percentage of a part, in hundredths. */
  ghost predicate IsPercent(x: real, part: int, whole: nat) {
    if whole == 0 then x == 0.0 else exists k :: x == k as real / 100.0 && IsNearest(k, 10000 * part, whole)
  }

  lemma RoundedQuotient(n: int, whole: int)
    requires whole > 0
    ensures IsNearest(RoundHalfEven(n as real / whole as real), n, whole)
  {
    hide RoundHalfEven;
    var q := n as real / whole as real;
    var k := RoundHalfEven(q);
    RoundNearest(q);
    TieEven(q);
    GapOf(k, q, n, whole);
  }

  lemma GapOf(k: int, q: real, n: int, whole: int)
    requires whole > 0 && q == n as real / whole as real && -0.5 <= k as real - q <= 0.5
    ensures var gap := 2 * (k * whole - n);
            && gap + whole >= 0 && gap <= whole
            && (gap == whole ==> k as real - q == 0.5) && (gap + whole == 0 ==> k as real - q == -0.5)
  {
    var w := whole as real;
    GapScaled(k, q, n, whole);
    ProductSign(0.5 - (k as real - q), w);
    ProductSign(k as real - q + 0.5, w);
    hide *;
    Split(k as real - q, w);
  }

  lemma Split(d: real, w: real)
    ensures (0.5 - d) * w == w / 2.0 - d * w && (d + 0.5) * w == d * w + w / 2.0
  {
  }

  lemma GapScaled(k: int, q: real, n: int, whole: int)
    requires whole > 0 && q == n as real / whole as real
    ensures (k as real - q) * whole as real == (k * whole - n) as real
  {
    var w := whole as real;
    assert q * w == n as real;
    assert (k * whole) as real == k as real * w;
    assert (k as real - q) * w == k as real * w - q * w;
  }

  lemma ProductSign(a: real, w: real)
    requires a >= 0.0 && w > 0.0
    ensures a * w >= 0.0 && (a * w == 0.0 ==> a == 0.0)
  {
  }

  lemma PercentMeans(part: int, whole: nat)
    ensures IsPercent(Percent(part, whole), part, whole)
  {
    if whole > 0 {
      var q := part as real / whole as real;
      var k := RoundHalfEven((10000 * part) as real / whole as real);
      assert (10000 * part) as real / whole as real == q * 100.0 * 100.0;
      RoundedQuotient(10000 * part, whole);
      assert Percent(part, whole) == k as real / 100.0;
    }
  }

  // ---------------------------------------------------------------- the scorecard

  /** The gate of a high-risk record failed, or two steps did; a low-risk one passed everything. */
  ghost predicate IsHigh(r: Record) { !r.gateRelease || r.failedSteps >= 2 }

  ghost predicate IsLow(r: Record) { r.gateFast && r.gateRelease && r.doctor && r.failedSteps == 0 }

  ghost function High(records: seq<Record>): set<nat> { set i: nat | i < |records| && IsHigh(records[i]) }

  ghost function Low(records: seq<Record>): set<nat> { set i: nat | i < |records| && IsLow(records[i]) }

  ghost function Medium(records: seq<Record>): set<nat> {
    set i: nat | i < |records| && !IsHigh(records[i]) && !IsLow(records[i])
  }

  ghost function Failed(records: seq<Record>): set<nat> { set i: nat | i < |records| && !records[i].gateRelease }

  lemma RiskMeans(r: Record)
    ensures (Risk(r) == "high" <==> IsHigh(r)) && (Risk(r) == "low" <==> IsLow(r))
    ensures Risk(r) == "medium" <==> !IsHigh(r) && !IsLow(r)
    ensures Risk(r) == "high" || Risk(r) == "medium" || Risk(r) == "low"
  {
    assert |"high"| == 4 && |"medium"| == 6 && |"low"| == 3;
  }

  lemma TierSize(records: seq<Record>, tier: string, positions: set<nat>)
    requires forall i: nat :: i in positions <==> i < |records| && Risk(records[i]) == tier
    ensures |Having(records, Risk, tier)| == |positions|
  {
    hide Risk;
    FilterIndices(Equals(Risk, tier), records);
    forall r { EqualsHolds(Risk, tier, r); }
    assert Passing(Equals(Risk, tier), records) == positions;
  }

  /** The totals count records by their checks, and the failure rate is the share of the failed release gates. */
  lemma SummaryMeans(records: seq<Record>, windowEnd: string)
    ensures var p := Summary(records, windowEnd);
            && p.high == |High(records)| && p.medium == |Medium(records)| && p.low == |Low(records)|
            && p.repoCount == Given(|records|)
            && p.failureRate.Given? && IsPercent(p.failureRate.value, |Failed(records)|, |records|)
  {
    hide Risk, IsPercent, IsHigh, IsLow, Percent, NormalizeRow, Sort;
    forall r { RiskMeans(r); }
    TierSize(records, "high", High(records));
    TierSize(records, "medium", Medium(records));
    TierSize(records, "low", Low(records));
    FilterIndices(GateFailed, records);
    assert Passing(GateFailed, records) == Failed(records);
    PercentMeans(|Failed(records)|, |records|);
  }

  /** The row of a record: its identifier or else its name, its tier, its checks and the end of the window. */
  ghost predicate RowSays(row: Row, r: Record, windowEnd: string) {
    && (r.repoId != "" ==> row.repoId == r.repoId)
    && (r.repoId == "" && r.repo != "" ==> row.repoId == r.repo)
    && (r.repoId == "" && r.repo == "" ==> row.repoId == "unknown-repo")
    && row.riskTier == (if IsHigh(r) then "high" else if IsLow(r) then "low" else "medium")
    && (row.confident <==> IsLow(r))
    && (row.gateFast <==> r.gateFast) && (row.gateRelease <==> r.gateRelease) && (row.doctor <==> r.doctor)
    && row.failedSteps == r.failedSteps && row.windowEnd == Some(windowEnd)
  }

  lemma RowMeans(row: Row, r: Record, windowEnd: string)
    ensures RowSays(row, r, windowEnd) <==> row == NormalizeRow(r, windowEnd)
  {
    hide Risk;
    RiskMeans(r);
  }

  /** The positions of the records that a row tells of. */
  ghost function Telling(row: Row, records: seq<Record>, windowEnd: string): set<nat> {
    set i: nat | i < |records| && RowSays(row, records[i], windowEnd)
  }

  lemma TellingStep(records: seq<Record>, windowEnd: string, row: Row)
    requires records != []
    ensures |Telling(row, records, windowEnd)| ==
            |Telling(row, records[..|records| - 1], windowEnd)| +
            if RowSays(row, records[|records| - 1], windowEnd) then 1 else 0
  {
    hide RowSays;
    var front, n := records[..|records| - 1], |records| - 1;
    assert Telling(row, records, windowEnd) ==
           Telling(row, front, windowEnd) + if RowSays(row, records[n], windowEnd) then {n} else {};
  }

  lemma {:induction false} RowsTell(records: seq<Record>, windowEnd: string, row: Row)
    ensures multiset(Map(Normalizer(windowEnd), records))[row] == |Telling(row, records, windowEnd)|
  {
    hide NormalizeRow, RowSays;
    if records == [] {
      assert Telling(row, records, windowEnd) == {};
    } else {
      var front, last := records[..|records| - 1], records[|records| - 1];
      RowsTell(front, windowEnd, row);
      RowMeans(row, last, windowEnd);
      TellingStep(records, windowEnd, row);
      assert Map(Normalizer(windowEnd), records) == Map(Normalizer(windowEnd), front) + [NormalizeRow(last, windowEnd)];
    }
  }

  /** Every row occurs as often as records say what it says, and rows stand in the order of tier and identifier. */
  lemma RowsMean(records: seq<Record>, windowEnd: string)
    ensures var rows := Summary(records, windowEnd).repos;
            && (forall row :: multiset(rows)[row] == |Telling(row, records, windowEnd)|)
            && (forall i, j :: 0 <= i < j < |rows| ==>
                  && StrLeq(rows[i].riskTier, rows[j].riskTier)
                  && (rows[i].riskTier == rows[j].riskTier ==> StrLeq(rows[i].repoId, rows[j].repoId)))
  {
    hide NormalizeRow, RowSays, KeyLeq, StrLeq, Sort, Telling, Percent, Filter, Having;
    var normalized := Map(Normalizer(windowEnd), records);
    SortMultiset(normalized, RowKey);
    SortSorted(normalized, RowKey);
    forall row { RowsTell(records, windowEnd, row); }
    var rows := Sort(normalized, RowKey);
    forall i, j | 0 <= i < j < |rows|
      ensures StrLeq(rows[i].riskTier, rows[j].riskTier)
      ensures rows[i].riskTier == rows[j].riskTier ==> StrLeq(rows[i].repoId, rows[j].repoId)
    {
      RowOrder(rows[i], rows[j]);
    }
  }

  lemma RowOrder(a: Row, b: Row)
    requires KeyLeq(RowKey(a), RowKey(b))
    ensures StrLeq(a.riskTier, b.riskTier)
    ensures a.riskTier == b.riskTier ==> StrLeq(a.repoId, b.repoId)
  {
    hide StrLeq, Lex;
    FirstText(RowKey(a).texts, RowKey(b).texts);
    if a.riskTier == b.riskTier { FirstText(RowKey(a).texts[1..], RowKey(b).texts[1..]); }
  }

  // ---------------------------------------------------------------- the snapshot

  ghost function ConfidentRows(rows: seq<Row>): set<nat> { set i: nat | i < |rows| && rows[i].confident }

  lemma ConfidentCount(rows: seq<Row>)
    ensures |Filter(RowConfident, rows)| == |ConfidentRows(rows)|
  {
    FilterIndices(RowConfident, rows);
    assert Passing(RowConfident, rows) == ConfidentRows(rows);
  }

  /** A declared number, or what is taken when the field is absent. */
  ghost predicate Declares<T>(field: Field<T>, default: T, x: T) {
    field == Given(x) || (field == Absent && x == default)
  }

  /** A measured value with the unit and the size of the sample, or none of them. */
  ghost predicate Optional(m: Metric, value: Option<real>, unit: string, total: int) {
    match value
    case None => m == Metric(None, None, "n/a")
    case Some(x) => m == Metric(Some(x), Some(total), unit)
  }

  /** A snapshot is built exactly from a portfolio without null totals, and holds six metrics. */
  lemma KpiMeans(p: Portfolio, total: nat, rate: real, weekEnding: string, rollbacks: int, decisionTime: Option<real>,
      triageTime: Option<real>, conversion: Option<real>)
    requires Declares(p.repoCount, |p.repos|, total) && Declares(p.failureRate, 0.0, rate)
    ensures var kpi := BuildKpi(p, weekEnding, rollbacks, decisionTime, triageTime, conversion);
            && kpi.Returned? && kpi.value.weekEnding == Some(weekEnding)
            && var m := kpi.value.metrics;
            && m.Keys == {Onboarding, DecisionTime, FailedGate, Rollback, Triage, Conversion}
            && m[Onboarding].value.Some? && IsPercent(m[Onboarding].value.value, |ConfidentRows(p.repos)|, total)
            && m[Onboarding].sampleSize == Some(total) && m[Onboarding].unit == "percent"
            && m[FailedGate] == Metric(Some(rate), Some(total), "percent")
            && m[Rollback] == Metric(Some(rollbacks as real), Some(rollbacks), "count")
            && Optional(m[DecisionTime], decisionTime, "minutes", total)
            && Optional(m[Triage], triageTime, "minutes", total)
            && Optional(m[Conversion], conversion, "percent", total)
  {
    hide IsPercent, Percent, Filter;
    ConfidentCount(p.repos);
    PercentMeans(|ConfidentRows(p.repos)|, total);
  }

  /** With a null total nothing is built and nothing passes. */
  lemma NullTotals(p: Portfolio, kpi: Kpi, weekEnding: string, rollbacks: int, decisionTime: Option<real>,
      triageTime: Option<real>, conversion: Option<real>)
    requires p.repoCount == Null || p.failureRate == Null
    ensures BuildKpi(p, weekEnding, rollbacks, decisionTime, triageTime, conversion).Raised?
    ensures Validate(p, kpi).Raised?
  {
  }

  // ---------------------------------------------------------------- the validator

  ghost predicate Near(m: Metric, x: real) { m.value.Some? && x - 0.01 < m.value.value < x + 0.01 }

  /** The week is that of some row, unless no row or the snapshot itself names one. */
  ghost predicate InWeek(rows: seq<Row>, weekEnding: Option<string>) {
    || weekEnding == None || weekEnding == Some("")
    || (forall row :: row in rows ==> row.windowEnd == None || row.windowEnd == Some(""))
    || exists row :: row in rows && row.windowEnd == weekEnding
  }

  lemma InWeekIff(rows: seq<Row>, weekEnding: Option<string>)
    ensures WeekAligned(rows, weekEnding) <==> InWeek(rows, weekEnding)
  {
    var ends := WindowEnds(rows);
    if forall row :: row in rows ==> row.windowEnd == None || row.windowEnd == Some("") { assert ends == {}; }
    if row :| row in rows && !(row.windowEnd == None || row.windowEnd == Some("")) {
      assert row.windowEnd.value in ends;
    }
  }

  /** A snapshot passes exactly when count, both rates, the sample size and the week agree with the portfolio. */
  lemma ValidateIff(p: Portfolio, kpi: Kpi, share: real, rate: real)
    requires IsPercent(share, |ConfidentRows(p.repos)|, |p.repos|) && Declares(p.failureRate, 0.0, rate)
    ensures Validate(p, kpi).Returned? <==>
            && Declares(p.repoCount, |p.repos|, |p.repos|)
            && Onboarding in kpi.metrics && FailedGate in kpi.metrics && Rollback in kpi.metrics
            && Near(kpi.metrics[Onboarding], share) && Near(kpi.metrics[FailedGate], rate)
            && kpi.metrics[FailedGate].sampleSize == Some(|p.repos|)
            && InWeek(p.repos, kpi.weekEnding)
    ensures Validate(p, kpi).Returned? ==> Validate(p, kpi).value == Report(|p.repos|, kpi.weekEnding)
  {
    hide IsPercent, Percent, Filter, WeekAligned, InWeek;
    ConfidentCount(p.repos);
    var n := |p.repos|;
    PercentMeans(|ConfidentRows(p.repos)|, n);
    OnePercent(share, Percent(|ConfidentRows(p.repos)|, n), |ConfidentRows(p.repos)|, n);
    InWeekIff(p.repos, kpi.weekEnding);
  }

  /** A part has one percentage only. */
  lemma OnePercent(x: real, y: real, part: int, whole: nat)
    requires IsPercent(x, part, whole) && IsPercent(y, part, whole)
    ensures x == y
  {
    if whole > 0 {
      var a :| x == a as real / 100.0 && IsNearest(a, 10000 * part, whole);
      var b :| y == b as real / 100.0 && IsNearest(b, 10000 * part, whole);
      NearestIsOne(a, b, 10000 * part, whole);
    }
  }

  lemma NearestIsOne(a: int, b: int, n: int, whole: int)
    requires whole > 0 && IsNearest(a, n, whole) && IsNearest(b, n, whole)
    ensures a == b
  {
    if a > b { NearestAtMost(a, b, n, whole); } else if b > a { NearestAtMost(b, a, n, whole); }
  }

  lemma Distance(a: int, b: int, whole: int)
    requires a > b && whole > 0
    ensures a * whole - b * whole >= whole && (a > b + 1 ==> a * whole - b * whole > whole)
  {
    var d := a - b;
    assert a * whole - b * whole == d * whole;
    assert (d - 1) * whole >= 0 && (d > 1 ==> (d - 1) * whole > 0);
  }

  lemma NearestGap(a: int, b: int, n: int, whole: int)
    requires whole > 0 && IsNearest(a, n, whole) && IsNearest(b, n, whole)
    requires a > b ==> a * whole - b * whole >= whole && (a > b + 1 ==> a * whole - b * whole > whole)
    ensures a <= b
  {
  }

  lemma NearestAtMost(a: int, b: int, n: int, whole: int)
    requires whole > 0 && IsNearest(a, n, whole) && IsNearest(b, n, whole)
    ensures a <= b
  {
    hide IsNearest;
    if a > b { Distance(a, b, whole); NearestGap(a, b, n, whole); }
  }
}
