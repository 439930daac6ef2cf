/** The weighted adoption scorecard and the contract check that reads it back. */
module Adoption {
  import opened Ordering
  import opened Outcomes
  import opened Rounding

  /** One value for each dimension of the scorecard. */
  datatype Four<T> = Four(onboarding: T, release: T, ops: T, quality: T)

  // ---------------------------------------------------------------- release history

  /** An entry of the `series` list; score and overall_ok are None when they are no number or no boolean. */
  datatype HistoryItem =
    | Flag(ok: bool)
    | Number(value: real)
    | Run(score: Option<real>, overallOk: Option<bool>)
    | Other

  function ItemScore(item: HistoryItem): seq<real> {
    match item
    case Flag(ok) => [if ok then 100.0 else 0.0]
    case Number(x) => [Clamp(x)]
    case Run(Some(score), _) => [Clamp(score)]
    case Run(None, Some(ok)) => [if ok then 100.0 else 0.0]
    case _ => []
  }

  function Series(items: seq<HistoryItem>): (series: seq<real>)
    ensures |series| <= |items| && forall x :: x in series ==> 0.0 <= x <= 100.0
  {
    if items == [] then [] else Series(items[..|items| - 1]) + ItemScore(items[|items| - 1])
  }

  /** `_load_history_series` on a parsed list */
  method LoadHistorySeries(items: seq<HistoryItem>) returns (series: seq<real>)
    ensures series == Series(items)
    ensures |series| <= |items| && forall x :: x in series ==> 0.0 <= x <= 100.0
  {
    series := [];
    for i := 0 to |items|
      invariant series == Series(items[..i])
    {
      assert items[..i + 1][..i] == items[..i];
      match items[i]
      case Flag(ok) => series := series + [if ok then 100.0 else 0.0];
      case Number(x) => series := series + [Clamp(x)];
      case Run(score, overallOk) =>
        if score.Some? {
          series := series + [Clamp(score.value)];
        } else if overallOk == Some(true) {
          series := series + [100.0];
        } else if overallOk == Some(false) {
          series := series + [0.0];
        }
      case Other =>
    }
    assert items[..|items|] == items;
  }

  function Max(a: int, b: int): int { if a >= b then a else b }

  /** The change over the last `max(window, 2)` entries. */
  function TrendDelta(series: seq<real>, window: int): real {
    if series == [] then 0.0
    else series[|series| - 1] - series[Max(|series| - Max(window, 2), 0)]
  }

  /** `_trend_grade` */
  function TrendGrade(series: seq<real>, window: int): int {
    var delta := TrendDelta(series, window);
    if series == [] then 50
    else if delta >= 20.0 then 100
    else if delta >= 0.0 then 75
    else if delta > -20.0 then 40
    else 10
  }

  // ---------------------------------------------------------------- grades

  datatype Golden = Golden(overallOk: bool, gateRelease: bool, age: Option<real>)
  datatype Legacy = Legacy(overallOk: bool, count: int)
  datatype TestSignal = TestSignal(passRate: Option<real>, overallOk: Option<bool>)

  /** Everything a scorecard is built from, apart from the weights. */
  datatype Evidence = Evidence(golden: Option<Golden>, drift: Option<bool>, legacy: Option<Legacy>,
    baseline: Option<int>, testSignal: Option<TestSignal>, history: seq<real>, window: int, staleAfter: int)

  function Full(ok: bool): real { if ok then 100.0 else 0.0 }

  predicate OnboardingOk(e: Evidence) { e.golden.Some? && e.golden.value.overallOk }

  function Freshness(e: Evidence): real {
    match e.golden
    case None => 50.0
    case Some(g) =>
      if g.age.Some? then Clamp(100.0 - g.age.value / Max(e.staleAfter, 1) as real * 100.0)
      else if OnboardingOk(e) then 100.0
      else 50.0
  }

  function OnboardingGrade(e: Evidence): int { RoundHalfEven((Freshness(e) + Full(OnboardingOk(e))) / 2.0) }

  function ReleaseGrade(e: Evidence): int {
    RoundHalfEven(Full(e.golden.Some? && e.golden.value.gateRelease) * 0.6
      + TrendGrade(e.history, e.window) as real * 0.4)
  }

  function LegacyCount(e: Evidence): int { if e.legacy.Some? then e.legacy.value.count else 0 }

  function Reduction(e: Evidence): real {
    var baseline := e.baseline.GetOr(LegacyCount(e));
    if baseline <= 0 then 0.0 else (baseline - LegacyCount(e)) as real / baseline as real * 100.0
  }

  function Density(e: Evidence): real {
    if e.legacy.Some? && e.legacy.value.overallOk then 100.0 else Clamp(100.0 - LegacyCount(e) as real * 10.0)
  }

  function OpsGrade(e: Evidence): int {
    RoundHalfEven((Density(e) + Clamp(50.0 + Reduction(e))) / 2.0)
  }

  function TestScore(e: Evidence): real {
    match e.testSignal
    case None => 50.0
    case Some(TestSignal(Some(rate), _)) => RateScore(rate)
    case Some(TestSignal(None, Some(ok))) => Full(ok)
    case Some(TestSignal(None, None)) => 50.0
  }

  function QualityGrade(e: Evidence): int { RoundHalfEven((Full(e.drift == Some(true)) + TestScore(e)) / 2.0) }

  function Grades(e: Evidence): Four<int> { Four(OnboardingGrade(e), ReleaseGrade(e), OpsGrade(e), QualityGrade(e)) }

  predicate AllWithin(lo: int, g: Four<int>, hi: int) {
    lo <= g.onboarding <= hi && lo <= g.release <= hi && lo <= g.ops <= hi && lo <= g.quality <= hi
  }

  lemma GradesInRange(e: Evidence)
    ensures AllWithin(0, Grades(e), 100)
    ensures Grades(e).release >= 4
  {
    hide RoundHalfEven, Clamp, TrendDelta, Reduction;
    RoundBetween(0, (Freshness(e) + Full(OnboardingOk(e))) / 2.0, 100);
    RoundBetween(4, Full(e.golden.Some? && e.golden.value.gateRelease) * 0.6
      + TrendGrade(e.history, e.window) as real * 0.4, 100);
    RoundBetween(0, (Full(e.drift == Some(true)) + TestScore(e)) / 2.0, 100);
    RoundBetween(0, (Density(e) + Clamp(50.0 + Reduction(e))) / 2.0, 100);
  }

  predicate ReleaseOk(e: Evidence) { e.golden.Some? && e.golden.value.gateRelease }

  /** The checks can be read off the grades: a passed release gate gives at least 64 and a failed one at most 40, a full
      release grade also needs a recent rise of 20, and each other check decides the half of the scale. */
  lemma GradesFollowChecks(e: Evidence)
    ensures if ReleaseOk(e) then Grades(e).release >= 64 else Grades(e).release <= 40
    ensures Grades(e).release == 100 <==> ReleaseOk(e) && e.history != [] && TrendDelta(e.history, e.window) >= 20.0
    ensures if OnboardingOk(e) then Grades(e).onboarding >= 50 else Grades(e).onboarding <= 50
    ensures if e.drift == Some(true) then Grades(e).quality >= 50 else Grades(e).quality <= 50
    ensures e.legacy.Some? && e.legacy.value.overallOk ==> Grades(e).ops >= 50
  {
    hide Clamp, TrendDelta, Reduction, TestScore, Freshness;
    assert 0.0 <= Freshness(e) <= 100.0 by { hide *; FreshnessInRange(e); }
    assert 0.0 <= TestScore(e) <= 100.0 by { hide *; TestScoreInRange(e); }
  }

  function RateScore(rate: real): real { Clamp(if rate <= 1.0 then rate * 100.0 else rate) }

  /** A pass rate up to one is a fraction and above one a percentage: a higher rate scores lower exactly when it crosses
      one without reaching the percentage of the fraction. */
  lemma PassRateOrder(low: real, high: real)
    requires low <= high
    ensures RateScore(low) <= RateScore(high) <==> low > 1.0 || high <= 1.0 || 100.0 * low <= high
    ensures RateScore(1.0) == 100.0 && RateScore(1.5) == 1.5
  {
  }

  lemma FreshnessInRange(e: Evidence)
    ensures 0.0 <= Freshness(e) <= 100.0
  {
  }

  lemma TestScoreInRange(e: Evidence)
    ensures 0.0 <= TestScore(e) <= 100.0
  {
  }

  // ---------------------------------------------------------------- weights and score

  function Total(w: Four<real>): real { w.onboarding + w.release + w.ops + w.quality }

  /** `_normalize_weights`: non-positive totals fall back to equal weights. */
  function Normalize(w: Four<real>): Four<real> {
    var total := Total(w);
    if total <= 0.0 then Four(0.25, 0.25, 0.25, 0.25)
    else Four(w.onboarding / total, w.release / total, w.ops / total, w.quality / total)
  }

  function Rounded(w: Four<real>): Four<real> {
    Four(Round4(w.onboarding), Round4(w.release), Round4(w.ops), Round4(w.quality))
  }

  function Times(x: real, w: real): real { x * w }

  function Weighted(g: Four<int>, n: Four<real>): real {
    Times(g.onboarding as real, n.onboarding) + Times(g.release as real, n.release)
    + Times(g.ops as real, n.ops) + Times(g.quality as real, n.quality)
  }

  function Band(score: int): string {
    if score >= 90 then "excellent" else if score >= 70 then "strong" else if score >= 40 then "developing" else "early"
  }

  function Points(grade: int): int { RoundHalfEven(grade as real / 4.0) }

  datatype Card = Card(score: int, band: string, dimensions: Four<int>, grades: Four<int>, weights: Four<real>)

  /** `_build_scorecard` */
  function BuildScorecard(e: Evidence, weights: Four<real>): Card {
    var g, n := Grades(e), Normalize(weights);
    var score := RoundHalfEven(Weighted(g, n));
    Card(score, Band(score), Four(Points(g.onboarding), Points(g.release), Points(g.ops), Points(g.quality)), g,
         Rounded(n))
  }

  lemma Quotient(a: real, t: real)
    requires t > 0.0
    ensures Times(a / t, t) == a
  {
  }

  lemma UnitFactor(s: real, t: real)
    requires t > 0.0 && Times(s, t) == t
    ensures s == 1.0
  {
    assert (s - 1.0) * t == 0.0;
  }

  lemma TimesSum(a: real, b: real, c: real, d: real, t: real)
    ensures Times(a + b + c + d, t) == Times(a, t) + Times(b, t) + Times(c, t) + Times(d, t)
    ensures Times(t, a + b + c + d) == Times(t, a) + Times(t, b) + Times(t, c) + Times(t, d)
  {
  }

  /** The normalised weights always sum to one. */
  lemma NormalizedTotal(w: Four<real>)
    ensures Total(Normalize(w)) == 1.0
  {
    hide Times;
    var t, n := Total(w), Normalize(w);
    if t > 0.0 {
      Quotient(w.onboarding, t);
      Quotient(w.release, t);
      Quotient(w.ops, t);
      Quotient(w.quality, t);
      TimesSum(n.onboarding, n.release, n.ops, n.quality, t);
      UnitFactor(Total(n), t);
    }
  }

  lemma Round4Near(x: real)
    ensures -0.00005 <= Round4(x) - x <= 0.00005
  {
    RoundNearest(x * 10000.0);
  }

  /** Whatever the weights, the emitted ones sum to one within 0.0002. */
  lemma EmittedWeightsTotal(w: Four<real>)
    ensures -0.0002 <= Total(Rounded(Normalize(w))) - 1.0 <= 0.0002
  {
    hide Normalize, Round4;
    NormalizedTotal(w);
    var n := Normalize(w);
    Round4Near(n.onboarding);
    Round4Near(n.release);
    Round4Near(n.ops);
    Round4Near(n.quality);
  }

  /** The bound is attained: these weights are emitted as 0.25, 0.2502, 0.2498 and 0.2498. */
  lemma EmittedWeightsBoundIsTight()
    ensures Total(Rounded(Normalize(Four(25005.0, 25025.0, 24985.0, 24985.0)))) == 1.0 - 0.0002
  {
    assert Normalize(Four(25005.0, 25025.0, 24985.0, 24985.0)) == Four(0.25005, 0.25025, 0.24985, 0.24985);
    assert Round4(0.25005) == 0.25 && Round4(0.25025) == 0.2502 && Round4(0.24985) == 0.2498;
  }

  // ---------------------------------------------------------------- when the score is an average

  function Negative(w: real): real { if w < 0.0 then -w else 0.0 }

  /** The total size of the negative weights. */
  function Debit(n: Four<real>): real {
    Negative(n.onboarding) + Negative(n.release) + Negative(n.ops) + Negative(n.quality)
  }

  predicate NonNegative(w: Four<real>) { w.onboarding >= 0.0 && w.release >= 0.0 && w.ops >= 0.0 && w.quality >= 0.0 }

  function Least(g: Four<int>): int {
    var a := if g.onboarding <= g.release then g.onboarding else g.release;
    var b := if g.ops <= g.quality then g.ops else g.quality;
    if a <= b then a else b
  }

  function Greatest(g: Four<int>): int { Max(Max(g.onboarding, g.release), Max(g.ops, g.quality)) }

  lemma LeastGreatest(g: Four<int>)
    ensures AllWithin(Least(g), g, Greatest(g))
  {
  }

  predicate IsAverage(card: Card) { Least(card.grades) <= card.score <= Greatest(card.grades) }

  lemma TermBound(lo: real, g: real, hi: real, w: real)
    requires lo <= g <= hi
    ensures Times(lo, w) - Times(hi - lo, Negative(w)) <= Times(g, w) <= Times(hi, w) + Times(hi - lo, Negative(w))
  {
    var size := if w >= 0.0 then w else -w;
    assert (hi - g) * size >= 0.0 && (g - lo) * size >= 0.0;
  }

  lemma UnitTotal(x: real, n: Four<real>)
    requires Total(n) == 1.0
    ensures Times(x, Total(n)) == x
  {
  }

  /** A weighted grade leaves the range of the grades by at most its width times the debit. */
  lemma WeightedBound(lo: int, g: Four<int>, hi: int, n: Four<real>)
    requires AllWithin(lo, g, hi) && Total(n) == 1.0
    ensures lo as real - Times((hi - lo) as real, Debit(n)) <= Weighted(g, n)
    ensures Weighted(g, n) <= hi as real + Times((hi - lo) as real, Debit(n))
  {
    hide Negative, Times;
    var l, h := lo as real, hi as real;
    TermBound(l, g.onboarding as real, h, n.onboarding);
    TermBound(l, g.release as real, h, n.release);
    TermBound(l, g.ops as real, h, n.ops);
    TermBound(l, g.quality as real, h, n.quality);
    TimesSum(n.onboarding, n.release, n.ops, n.quality, l);
    TimesSum(n.onboarding, n.release, n.ops, n.quality, h);
    TimesSum(Negative(n.onboarding), Negative(n.release), Negative(n.ops), Negative(n.quality), h - l);
    UnitTotal(l, n);
    UnitTotal(h, n);
    assert (hi - lo) as real == h - l;
  }

  lemma SlackBound(lo: int, hi: int, debit: real)
    requires 0 <= lo <= hi <= 100 && 0.0 <= debit <= 0.005
    ensures Times((hi - lo) as real, debit) <= 0.5
    ensures hi - lo < 100 ==> Times((hi - lo) as real, debit) < 0.5
  {
    var d := (hi - lo) as real;
    assert (0.005 - debit) * d >= 0.0;
    assert d * debit <= 0.005 * d;
  }

  lemma RoundWithin(lo: int, x: real, hi: int)
    requires lo as real - 0.5 < x < hi as real + 0.5
    ensures lo <= RoundHalfEven(x) <= hi
  {
    RoundNearest(x);
  }

  /** With little enough negative weight every score lies between its grades. */
  lemma LightDebitAverages(e: Evidence, w: Four<real>)
    requires Debit(Normalize(w)) <= 0.005
    ensures IsAverage(BuildScorecard(e, w))
  {
    hide Normalize, Grades, Weighted, Rounded, Points, Band, RoundHalfEven, Times;
    var g, n := Grades(e), Normalize(w);
    var lo, hi := Least(g), Greatest(g);
    GradesInRange(e);
    NormalizedTotal(w);
    LeastGreatest(g);
    WeightedBound(lo, g, hi, n);
    SlackBound(lo, hi, Debit(n));
    if hi - lo < 100 {
      RoundWithin(lo, Weighted(g, n), hi);
    } else {
      RoundMonotone(-0.5, Weighted(g, n));
      RoundMonotone(Weighted(g, n), 100.5);
      HalfEnds();
    }
  }

  lemma HalfEnds()
    ensures RoundHalfEven(-0.5) == 0 && RoundHalfEven(100.5) == 100
  {
    assert (-0.5).Floor == -1 && (100.5).Floor == 100;
  }

  /** Evidence whose grades are all 0 or 100, with a release grade of 100. */
  function Extreme(onboarding: bool, ops: bool, quality: bool): Evidence {
    Evidence(Some(Golden(onboarding, true, Some(if onboarding then 0.0 else 1.0))), Some(quality),
      Some(Legacy(ops, if ops then 0 else 10)), Some(1), Some(TestSignal(None, Some(quality))), [0.0, 100.0], 2, 1)
  }

  function Pole(high: bool): int { if high then 100 else 0 }

  lemma ExtremeGrades(onboarding: bool, ops: bool, quality: bool)
    ensures Grades(Extreme(onboarding, ops, quality)) == Four(Pole(onboarding), 100, Pole(ops), Pole(quality))
  {
    hide RoundHalfEven;
    RoundInt(0);
    RoundInt(100);
    var e := Extreme(onboarding, ops, quality);
    assert Freshness(e) == Full(onboarding);
    assert TrendGrade(e.history, e.window) == 100;
    assert Reduction(e) == if ops then 100.0 else -900.0;
  }

  lemma PoleTerm(w: real, up: bool)
    ensures Times(Pole((w >= 0.0) == up) as real, w) ==
            if up then 100.0 * w + 100.0 * Negative(w) else -100.0 * Negative(w)
  {
  }

  /** Too much negative weight: some evidence pushes the score outside its grades. */
  lemma HeavyDebitOvershoots(w: Four<real>) returns (e: Evidence)
    requires Debit(Normalize(w)) > 0.005
    ensures !IsAverage(BuildScorecard(e, w))
  {
    var n := Normalize(w);
    NormalizedTotal(w);
    var up := n.release >= 0.0;
    e := Extreme((n.onboarding >= 0.0) == up, (n.ops >= 0.0) == up, (n.quality >= 0.0) == up);
    ExtremeGrades((n.onboarding >= 0.0) == up, (n.ops >= 0.0) == up, (n.quality >= 0.0) == up);
    var g := Grades(e);
    hide Normalize, Extreme, Grades, Rounded, Points, Band, RoundHalfEven, Times, Negative;
    PoleTerm(n.onboarding, up);
    PoleTerm(n.release, up);
    PoleTerm(n.ops, up);
    PoleTerm(n.quality, up);
    assert Weighted(g, n) == if up then 100.0 + 100.0 * Debit(n) else -100.0 * Debit(n);
    RoundNearest(Weighted(g, n));
  }

  /** The score lies between the smallest and the largest grade for all evidence exactly when the negative
      normalised weights sum to at most 1/200 in size. */
  lemma AverageIff(w: Four<real>)
    ensures (forall e: Evidence :: IsAverage(BuildScorecard(e, w))) <==> Debit(Normalize(w)) <= 0.005
  {
    hide BuildScorecard, IsAverage, Debit, Normalize;
    if Debit(Normalize(w)) <= 0.005 {
      forall e: Evidence ensures IsAverage(BuildScorecard(e, w)) { LightDebitAverages(e, w); }
    } else {
      var e := HeavyDebitOvershoots(w);
    }
  }

  lemma NonNegativeNormalized(w: Four<real>)
    requires NonNegative(w)
    ensures NonNegative(Normalize(w)) && Debit(Normalize(w)) == 0.0
  {
  }

  /** Non-negative weights: the score is between the grades, and so between 0 and 100. */
  lemma NonNegativeAverages(e: Evidence, w: Four<real>)
    requires NonNegative(w)
    ensures IsAverage(BuildScorecard(e, w)) && 0 <= BuildScorecard(e, w).score <= 100
  {
    hide Normalize, RoundHalfEven, Weighted, Grades;
    NonNegativeNormalized(w);
    LightDebitAverages(e, w);
    GradesInRange(e);
  }

  /** Non-negative weights: better grades never give a lower score. */
  lemma ScoreMonotone(e: Evidence, e': Evidence, w: Four<real>)
    requires NonNegative(w)
    requires Grades(e).onboarding <= Grades(e').onboarding && Grades(e).release <= Grades(e').release
    requires Grades(e).ops <= Grades(e').ops && Grades(e).quality <= Grades(e').quality
    ensures BuildScorecard(e, w).score <= BuildScorecard(e', w).score
  {
    hide Grades, Normalize, RoundHalfEven, Times;
    NonNegativeNormalized(w);
    var g, g', n := Grades(e), Grades(e'), Normalize(w);
    TermMonotone(g.onboarding as real, g'.onboarding as real, n.onboarding);
    TermMonotone(g.release as real, g'.release as real, n.release);
    TermMonotone(g.ops as real, g'.ops as real, n.ops);
    TermMonotone(g.quality as real, g'.quality as real, n.quality);
    RoundMonotone(Weighted(g, n), Weighted(g', n));
  }

  /** Non-negative weights: grades that agree on a band give a score in that band. */
  lemma BandOfAgreeingGrades(e: Evidence, w: Four<real>)
    requires NonNegative(w)
    requires Band(Grades(e).onboarding) == Band(Grades(e).release) == Band(Grades(e).ops) == Band(Grades(e).quality)
    ensures BuildScorecard(e, w).band == Band(Grades(e).release)
  {
    hide Grades, Normalize, RoundHalfEven, Weighted, Rounded, Points;
    NonNegativeAverages(e, w);
  }

  lemma TermMonotone(a: real, b: real, w: real)
    requires a <= b && w >= 0.0
    ensures Times(a, w) <= Times(b, w)
  {
    assert (b - a) * w >= 0.0;
  }

  // ---------------------------------------------------------------- the contract

  datatype Dimension = Onboarding | Release | Ops | Quality

  datatype Section = Score | BandName | Dimensions | GradedDimensions | Weights | Signals

  /** A JSON value: number, boolean or null; list or text with the dimension names in it; object. A value of an
      object is None when it has no float. */
  datatype Content = Scalar | Listing(names: set<Dimension>) | Object(entries: map<Dimension, Option<real>>)

  datatype Payload = Payload(schemaVersion: Option<string>, sections: map<Section, Content>)

  datatype Error = WrongSchema | MissingKey(key: Section) | NotAnObject(section: Section)
    | Lacks(section: Section, dim: Dimension) | WeightTotal

  const KEYS := [Score, BandName, Dimensions, GradedDimensions, Weights, Signals]
  const OBJECTS := [Dimensions, GradedDimensions, Weights, Signals]
  const DIMENSIONS := [Onboarding, Release, Ops, Quality]

  /** `payload.get(section, {})` */
  function SectionOf(p: Payload, s: Section): Content { if s in p.sections then p.sections[s] else Object(map[]) }

  /** `dim in payload.get(section, {})` */
  predicate Names(c: Content, dim: Dimension) {
    match c
    case Scalar => false
    case Listing(names) => dim in names
    case Object(entries) => dim in entries
  }

  /** `float(payload.get("weights", {}).get(dim, 0.0))`, where it is defined. */
  function WeightOf(p: Payload, dim: Dimension): Option<real> {
    match SectionOf(p, Weights)
    case Object(entries) => if dim in entries then entries[dim] else Some(0.0)
    case _ => None
  }

  /** A membership test on a number or null, or a weight without a float, raises. */
  ghost predicate Unreadable(p: Payload) {
    (exists s :: s in OBJECTS && SectionOf(p, s) == Scalar) || (exists d :: d in DIMENSIONS && WeightOf(p, d) == None)
  }

  function WeightSum(p: Payload): real {
    WeightOf(p, Onboarding).GetOr(0.0) + WeightOf(p, Release).GetOr(0.0) + WeightOf(p, Ops).GetOr(0.0)
    + WeightOf(p, Quality).GetOr(0.0)
  }

  predicate Balanced(total: real) { -0.001 <= total - 1.0 <= 0.001 }

  /** The finding e is true of the payload. */
  predicate Applies(p: Payload, e: Error) {
    match e
    case WrongSchema => p.schemaVersion != Some("2")
    case MissingKey(key) => key !in p.sections
    case NotAnObject(s) => s in OBJECTS && !(s in p.sections && p.sections[s].Object?)
    case Lacks(s, d) => s in OBJECTS && !Names(SectionOf(p, s), d)
    case WeightTotal => !Balanced(WeightSum(p))
  }

  predicate Complete(c: Content) { c.Object? && forall d: Dimension :: d in c.entries }

  /** What the contract asks for. */
  predicate Conforms(p: Payload) {
    && p.schemaVersion == Some("2")
    && (forall s: Section :: s in p.sections)
    && (forall s :: s in OBJECTS ==> Complete(p.sections[s]))
    && (forall d: Dimension :: WeightOf(p, d).Some?)
    && Balanced(WeightSum(p))
  }

  lemma KeyListed(s: Section)
    ensures s in KEYS
  {
    match s
    case Score => assert KEYS[0] == s;
    case BandName => assert KEYS[1] == s;
    case Dimensions => assert KEYS[2] == s;
    case GradedDimensions => assert KEYS[3] == s;
    case Weights => assert KEYS[4] == s;
    case Signals => assert KEYS[5] == s;
  }

  lemma DimensionListed(d: Dimension)
    ensures d in DIMENSIONS
  {
    match d
    case Onboarding => assert DIMENSIONS[0] == d;
    case Release => assert DIMENSIONS[1] == d;
    case Ops => assert DIMENSIONS[2] == d;
    case Quality => assert DIMENSIONS[3] == d;
  }

  /** A payload without findings that can be read is one that conforms, and only such. */
  lemma NoFindingsConforms(p: Payload)
    ensures !Unreadable(p) && (forall e :: !Applies(p, e)) <==> Conforms(p)
  {
    hide Balanced, WeightSum;
    forall d: Dimension ensures d in DIMENSIONS { DimensionListed(d); }
    if !Unreadable(p) && (forall e :: !Applies(p, e)) {
      assert !Applies(p, WrongSchema) && !Applies(p, WeightTotal);
      forall s: Section ensures s in p.sections { assert !Applies(p, MissingKey(s)); }
      forall s | s in OBJECTS ensures Complete(p.sections[s]) {
        assert !Applies(p, NotAnObject(s));
        forall d: Dimension ensures d in p.sections[s].entries { assert !Applies(p, Lacks(s, d)); }
      }
    }
  }

  function MissingKeyOf(s: Section): Error { MissingKey(s) }

  function NotAnObjectOf(s: Section): Error { NotAnObject(s) }

  function LackIn(d: Dimension): Section -> Error { s => Lacks(s, d) }

  function LacksOf(d: Dimension): seq<Error> { Map(LackIn(d), OBJECTS) }

  /** Everything the contract can find, in the order in which it looks. */
  function StructuralFindings(): seq<Error> {
    [WrongSchema] + Map(MissingKeyOf, KEYS) + Map(NotAnObjectOf, OBJECTS)
  }

  function AllFindings(): seq<Error> { StructuralFindings() + Concat(Map(LacksOf, DIMENSIONS)) + [WeightTotal] }

  function AppliesTo(p: Payload): Error -> bool { e => Applies(p, e) }

  /** No finding that applies is left out of the list. */
  lemma FindingListed(p: Payload, e: Error)
    requires Applies(p, e)
    ensures e in AllFindings()
  {
    match e
    case WrongSchema => assert StructuralFindings()[0] == e;
    case MissingKey(s) =>
      KeyListed(s);
      var i :| 0 <= i < |KEYS| && KEYS[i] == s;
      assert StructuralFindings()[1 + i] == e;
    case NotAnObject(s) =>
      var i :| 0 <= i < |OBJECTS| && OBJECTS[i] == s;
      assert StructuralFindings()[1 + |KEYS| + i] == e;
    case Lacks(s, d) =>
      DimensionListed(d);
      var i :| 0 <= i < |OBJECTS| && OBJECTS[i] == s;
      var k :| 0 <= k < |DIMENSIONS| && DIMENSIONS[k] == d;
      assert LacksOf(d)[i] == e;
      assert Map(LacksOf, DIMENSIONS)[k] == LacksOf(d);
      ConcatMember(Map(LacksOf, DIMENSIONS), e);
    case WeightTotal => assert AllFindings()[|AllFindings()| - 1] == e;
  }

  /** One turn of the dimension loop: the four membership tests for one dimension. */
  method LackingSections(p: Payload, d: Dimension) returns (outcome: Outcome<seq<Error>>)
    ensures outcome.Raised? <==> exists s :: s in OBJECTS && SectionOf(p, s) == Scalar
    ensures outcome.Returned? ==> outcome.value == Filter(AppliesTo(p), LacksOf(d))
  {
    hide SectionOf, Filter;
    var errors: seq<Error> := [];
    FilterMapStep(AppliesTo(p), LackIn(d), OBJECTS, 0);
    for i := 0 to |OBJECTS|
      invariant forall s :: s in OBJECTS[..i] ==> SectionOf(p, s) != Scalar
      invariant errors == Filter(AppliesTo(p), Map(LackIn(d), OBJECTS[..i]))
    {
      FilterMapStep(AppliesTo(p), LackIn(d), OBJECTS, i);
      assert OBJECTS[..i + 1] == OBJECTS[..i] + [OBJECTS[i]];
      assert OBJECTS[i] in OBJECTS;
      var content := SectionOf(p, OBJECTS[i]);
      if content == Scalar { return Raised; }
      if !Names(content, d) { errors := errors + [Lacks(OBJECTS[i], d)]; }
    }
    assert OBJECTS[..|OBJECTS|] == OBJECTS;
    return Returned(errors);
  }

  method MissingKeys(p: Payload) returns (errors: seq<Error>)
    ensures errors == Filter(AppliesTo(p), Map(MissingKeyOf, KEYS))
  {
    hide Filter, Map;
    errors := [];
    FilterMapStep(AppliesTo(p), MissingKeyOf, KEYS, 0);
    for i := 0 to |KEYS|
      invariant errors == Filter(AppliesTo(p), Map(MissingKeyOf, KEYS[..i]))
    {
      FilterMapStep(AppliesTo(p), MissingKeyOf, KEYS, i);
      if KEYS[i] !in p.sections { errors := errors + [MissingKey(KEYS[i])]; }
    }
    assert KEYS[..|KEYS|] == KEYS;
  }

  method NonObjects(p: Payload) returns (errors: seq<Error>)
    ensures errors == Filter(AppliesTo(p), Map(NotAnObjectOf, OBJECTS))
  {
    hide Filter, Map;
    errors := [];
    FilterMapStep(AppliesTo(p), NotAnObjectOf, OBJECTS, 0);
    for i := 0 to |OBJECTS|
      invariant errors == Filter(AppliesTo(p), Map(NotAnObjectOf, OBJECTS[..i]))
    {
      FilterMapStep(AppliesTo(p), NotAnObjectOf, OBJECTS, i);
      assert OBJECTS[i] in OBJECTS;
      if !(OBJECTS[i] in p.sections && p.sections[OBJECTS[i]].Object?) { errors := errors + [NotAnObject(OBJECTS[i])]; }
    }
    assert OBJECTS[..|OBJECTS|] == OBJECTS;
  }

  /** Schema version, missing keys and sections that are no objects. */
  method StructuralErrors(p: Payload) returns (errors: seq<Error>)
    ensures errors == Filter(AppliesTo(p), StructuralFindings())
  {
    hide Filter, StructuralFindings, AppliesTo, Applies;
    errors := [];
    if p.schemaVersion != Some("2") { errors := errors + [WrongSchema]; }
    var missing := MissingKeys(p);
    errors := errors + missing;
    var wrong := NonObjects(p);
    errors := errors + wrong;
    StructuralSplit(p);
  }

  lemma StructuralSplit(p: Payload)
    ensures Filter(AppliesTo(p), StructuralFindings()) ==
            When(p.schemaVersion != Some("2"), WrongSchema) + Filter(AppliesTo(p), Map(MissingKeyOf, KEYS))
            + Filter(AppliesTo(p), Map(NotAnObjectOf, OBJECTS))
  {
    hide Filter, Applies;
    SchemaFinding(p);
    FilterAppend(AppliesTo(p), [WrongSchema], Map(MissingKeyOf, KEYS));
    FilterAppend(AppliesTo(p), [WrongSchema] + Map(MissingKeyOf, KEYS), Map(NotAnObjectOf, OBJECTS));
  }

  lemma SchemaFinding(p: Payload)
    ensures Filter(AppliesTo(p), [WrongSchema]) == When(p.schemaVersion != Some("2"), WrongSchema)
    ensures Filter(AppliesTo(p), [WeightTotal]) == When(!Balanced(WeightSum(p)), WeightTotal)
  {
    hide Balanced, WeightSum;
    assert [WrongSchema][..0] == [] && [WeightTotal][..0] == [];
  }

  /** `_validate`: the errors are the findings that apply, in the order of the checks, each once. */
  method Validate(p: Payload) returns (outcome: Outcome<seq<Error>>)
    ensures outcome.Raised? <==> Unreadable(p)
    ensures outcome.Returned? ==> outcome.value == Filter(AppliesTo(p), AllFindings())
    ensures outcome == Returned([]) <==> Conforms(p)
  {
    hide Balanced, WeightOf, Conforms, SectionOf, Names, Filter, StructuralFindings, LacksOf, AppliesTo, Concat;
    hide Applies;
    NoFindingsConforms(p);
    SilentIff(p);
    var errors := StructuralErrors(p);
    var structural := errors;
    ConcatMapStep(LacksOf, DIMENSIONS, 0);
    NothingFiltered(p);
    for i := 0 to |DIMENSIONS|
      invariant errors == structural + Filter(AppliesTo(p), Concat(Map(LacksOf, DIMENSIONS[..i])))
      invariant i > 0 ==> forall s :: s in OBJECTS ==> SectionOf(p, s) != Scalar
    {
      ConcatMapStep(LacksOf, DIMENSIONS, i);
      FilterAppend(AppliesTo(p), Concat(Map(LacksOf, DIMENSIONS[..i])), LacksOf(DIMENSIONS[i]));
      var lacking := LackingSections(p, DIMENSIONS[i]);
      if lacking.Raised? { return Raised; }
      errors := errors + lacking.value;
    }
    assert DIMENSIONS[..|DIMENSIONS|] == DIMENSIONS;
    for i := 0 to |DIMENSIONS|
      invariant forall d :: d in DIMENSIONS[..i] ==> WeightOf(p, d).Some?
    {
      assert DIMENSIONS[..i + 1] == DIMENSIONS[..i] + [DIMENSIONS[i]];
      assert DIMENSIONS[i] in DIMENSIONS;
      if WeightOf(p, DIMENSIONS[i]).None? { return Raised; }
    }
    SchemaFinding(p);
    FilterAppend(AppliesTo(p), StructuralFindings(), Concat(Map(LacksOf, DIMENSIONS)));
    FilterAppend(AppliesTo(p), StructuralFindings() + Concat(Map(LacksOf, DIMENSIONS)), [WeightTotal]);
    if !Balanced(WeightSum(p)) { errors := errors + [WeightTotal]; }
    return Returned(errors);
  }

  lemma NothingFiltered(p: Payload)
    ensures Filter(AppliesTo(p), []) == []
  {
  }

  /** The list of findings that apply is empty exactly when none applies. */
  lemma SilentIff(p: Payload)
    ensures Filter(AppliesTo(p), AllFindings()) == [] <==> forall e :: !Applies(p, e)
  {
    hide Applies, AllFindings, Filter;
    var found := Filter(AppliesTo(p), AllFindings());
    if found != [] { FilterMember(AppliesTo(p), AllFindings(), found[0]); }
    forall e | Applies(p, e) ensures found != [] {
      FindingListed(p, e);
      FilterMember(AppliesTo(p), AllFindings(), e);
    }
  }

  // ---------------------------------------------------------------- every built scorecard conforms

  function Entries(f: Four<real>): Content {
    Object(map[
      Onboarding := Some(f.onboarding), Release := Some(f.release), Ops := Some(f.ops), Quality := Some(f.quality)])
  }

  function AsReals(f: Four<int>): Four<real> {
    Four(f.onboarding as real, f.release as real, f.ops as real, f.quality as real)
  }

  /** The scorecard as it is written and read back. */
  function AsPayload(card: Card): Payload {
    Payload(Some("2"), map[Score := Scalar, BandName := Listing({}), Dimensions := Entries(AsReals(card.dimensions)),
      GradedDimensions := Entries(AsReals(card.grades)), Weights := Entries(card.weights),
      Signals := Object(map[Onboarding := None, Release := None, Ops := None, Quality := None])])
  }

  /** Whatever the evidence and the weights, the contract finds nothing, using at most a fifth of its tolerance. */
  lemma BuiltScorecardConforms(e: Evidence, w: Four<real>)
    ensures Conforms(AsPayload(BuildScorecard(e, w)))
    ensures -0.0002 <= WeightSum(AsPayload(BuildScorecard(e, w))) - 1.0 <= 0.0002
  {
    hide Normalize, Grades, Rounded, Points, Band, RoundHalfEven, Weighted;
    EmittedWeightsTotal(w);
    var p, n := AsPayload(BuildScorecard(e, w)), Rounded(Normalize(w));
    assert WeightOf(p, Onboarding) == Some(n.onboarding) && WeightOf(p, Release) == Some(n.release);
    assert WeightOf(p, Ops) == Some(n.ops) && WeightOf(p, Quality) == Some(n.quality);
    assert WeightSum(p) == Total(n);
    forall s: Section ensures s in p.sections { KeyListed(s); }
    forall s | s in OBJECTS ensures Complete(p.sections[s]) {
      forall d: Dimension ensures d in p.sections[s].entries { DimensionListed(d); }
    }
    forall d: Dimension ensures WeightOf(p, d).Some? { DimensionListed(d); }
  }

  /** Dimension points are quarters of grades in 0..100, and so lie in 0..25. */
  lemma PointsInRange(e: Evidence, w: Four<real>)
    ensures AllWithin(0, BuildScorecard(e, w).dimensions, 25) && AllWithin(0, BuildScorecard(e, w).grades, 100)
  {
    hide RoundHalfEven, Grades, Normalize, Weighted, Band;
    GradesInRange(e);
    var g := Grades(e);
    RoundBetween(0, g.onboarding as real / 4.0, 25);
    RoundBetween(0, g.release as real / 4.0, 25);
    RoundBetween(0, g.ops as real / 4.0, 25);
    RoundBetween(0, g.quality as real / 4.0, 25);
  }
}
