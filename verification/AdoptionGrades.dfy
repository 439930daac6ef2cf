/** What the adoption scorecard says about the evidence and the weights it was built from. */
module AdoptionGrades {
  import opened Outcomes
  import opened Rounding
  import opened Adoption

  // ---------------------------------------------------------------- the four grades

  /** How fresh the golden path is, out of a hundred: it falls evenly from age zero to the stale age. */
  ghost predicate IsFreshness(e: Evidence, x: real) {
    match e.golden
    case None => x == 50.0
    case Some(Golden(ok, _, None)) => x == if ok then 100.0 else 50.0
    case Some(Golden(_, _, Some(age))) =>
      var limit := if e.staleAfter < 1 then 1.0 else e.staleAfter as real;
      && (age <= 0.0 ==> x == 100.0)
      && (age >= limit ==> x == 0.0)
      && (0.0 < age < limit ==> Times(x, limit) == 100.0 * (limit - age))
  }

  lemma Ordered(a: real, b: real, n: real)
    requires n > 0.0
    ensures a <= b <==> Times(a, n) <= Times(b, n)
    ensures a < b <==> Times(a, n) < Times(b, n)
  {
    var d := b - a;
    assert Times(b, n) - Times(a, n) == d * n;
    if d > 0.0 { assert d * n > 0.0; } else if d < 0.0 { assert d * n < 0.0; }
  }

  lemma TimesUnits(n: real)
    ensures Times(0.0, n) == 0.0 && Times(1.0, n) == n && Times(0.5, n) == n / 2.0 && Times(-0.5, n) == -n / 2.0
  {
  }

  /** `(c - k * q) * n` where q is a quotient of n. */
  lemma Falling(c: real, k: real, q: real, n: real)
    ensures Times(c - q * k, n) == c * n - k * Times(q, n)
  {
  }

  lemma FreshnessFalls(age: real, limit: real, x: real)
    requires limit > 0.0 && x == Clamp(100.0 - age / limit * 100.0)
    ensures age <= 0.0 ==> x == 100.0
    ensures age >= limit ==> x == 0.0
    ensures 0.0 < age < limit ==> Times(x, limit) == 100.0 * (limit - age)
  {
    hide Times;
    var q := age / limit;
    Quotient(age, limit);
    Falling(100.0, 100.0, q, limit);
    assert Times(0.0, limit) == 0.0 && Times(1.0, limit) == limit by { TimesUnits(limit); }
    Ordered(q, 0.0, limit);
    Ordered(q, 1.0, limit);
  }

  lemma OnboardingMeans(e: Evidence, recency: real)
    requires IsFreshness(e, recency)
    ensures var passed := e.golden.Some? && e.golden.value.overallOk;
            Grades(e).onboarding == RoundHalfEven((recency + if passed then 100.0 else 0.0) / 2.0)
  {
    hide RoundHalfEven, ReleaseGrade, OpsGrade, QualityGrade, Clamp, Times;
    assert Freshness(e) == recency by {
      if e.golden.Some? && e.golden.value.age.Some? {
        var limit := if e.staleAfter < 1 then 1.0 else e.staleAfter as real;
        FreshnessFalls(e.golden.value.age.value, limit, Freshness(e));
        OneProduct(Freshness(e), recency, limit);
      }
    }
  }

  lemma OneProduct(x: real, y: real, n: real)
    requires n > 0.0
    ensures Times(x, n) == Times(y, n) ==> x == y
  {
    assert Times(x, n) - Times(y, n) == (x - y) * n;
  }

  /** The release grade is 60 for a passed gate plus what the recent history earns. */
  lemma ReleaseMeans(e: Evidence)
    ensures var window := if e.window < 2 then 2 else e.window;
            var gate := if e.golden.Some? && e.golden.value.gateRelease then 60 else 0;
            && (e.history == [] ==> Grades(e).release == gate + 20)
            && (e.history != [] ==>
                  var n := |e.history|;
                  var change := e.history[n - 1] - e.history[if n <= window then 0 else n - window];
                  && (change >= 20.0 ==> Grades(e).release == gate + 40)
                  && (0.0 <= change < 20.0 ==> Grades(e).release == gate + 30)
                  && (-20.0 < change < 0.0 ==> Grades(e).release == gate + 16)
                  && (change <= -20.0 ==> Grades(e).release == gate + 4))
  {
  }

  /** How few legacy commands there are, ten points each. */
  ghost predicate IsDensity(e: Evidence, x: real) {
    var count := if e.legacy.Some? then e.legacy.value.count else 0;
    if e.legacy.Some? && e.legacy.value.overallOk then x == 100.0
    else x == if count <= 0 then 100.0 else if count >= 10 then 0.0 else 100.0 - 10.0 * count as real
  }

  /** How far their number fell below the baseline: full at half of it, nothing at one and a half times of it. */
  ghost predicate IsReduction(e: Evidence, x: real) {
    var count := if e.legacy.Some? then e.legacy.value.count else 0;
    var baseline := if e.baseline.Some? then e.baseline.value else count;
    && (baseline <= 0 ==> x == 50.0)
    && (baseline > 0 && 2 * count <= baseline ==> x == 100.0)
    && (baseline > 0 && 2 * count >= 3 * baseline ==> x == 0.0)
    && (baseline > 0 && baseline < 2 * count < 3 * baseline ==>
          Times(x, baseline as real) == 150.0 * baseline as real - 100.0 * count as real)
  }

  lemma ReductionHealth(count: int, baseline: int, x: real)
    requires baseline > 0 && x == Clamp(50.0 + (baseline - count) as real / baseline as real * 100.0)
    ensures 2 * count <= baseline ==> x == 100.0
    ensures 2 * count >= 3 * baseline ==> x == 0.0
    ensures baseline < 2 * count < 3 * baseline ==>
              Times(x, baseline as real) == 150.0 * baseline as real - 100.0 * count as real
  {
    hide Times;
    var b, d := baseline as real, (baseline - count) as real;
    var q := d / b;
    Quotient(d, b);
    Falling(50.0, -100.0, q, b);
    TimesUnits(b);
    Ordered(q, 0.5, b);
    Ordered(q, -0.5, b);
  }

  lemma OpsMeans(e: Evidence, density: real, reduction: real)
    requires IsDensity(e, density) && IsReduction(e, reduction)
    ensures Grades(e).ops == RoundHalfEven((density + reduction) / 2.0)
  {
    hide RoundHalfEven, ReleaseGrade, OnboardingGrade, QualityGrade, Times;
    assert Density(e) == density;
    assert Clamp(50.0 + Reduction(e)) == reduction by {
      var baseline := e.baseline.GetOr(LegacyCount(e));
      if baseline > 0 {
        ReductionHealth(LegacyCount(e), baseline, Clamp(50.0 + Reduction(e)));
        OneProduct(Clamp(50.0 + Reduction(e)), reduction, baseline as real);
      }
    }
  }

  /** What the tests say: a rate up to one is a fraction, a larger one a percentage, and without one a flag decides. */
  ghost predicate IsTestScore(e: Evidence, x: real) {
    match e.testSignal
    case None => x == 50.0
    case Some(TestSignal(Some(rate), _)) =>
      x == if rate < 0.0 then 0.0 else if rate <= 1.0 then 100.0 * rate else if rate <= 100.0 then rate else 100.0
    case Some(TestSignal(None, ok)) => x == if ok == Some(true) then 100.0 else if ok == Some(false) then 0.0 else 50.0
  }

  lemma QualityMeans(e: Evidence, tests: real)
    requires IsTestScore(e, tests)
    ensures Grades(e).quality == RoundHalfEven((tests + if e.drift == Some(true) then 100.0 else 0.0) / 2.0)
  {
    hide RoundHalfEven, ReleaseGrade, OnboardingGrade, OpsGrade;
  }

  // ---------------------------------------------------------------- release history

  /** A number counts by its part within 0..100, a run by its score or else by its flag, a flag by itself. */
  ghost predicate Worth(item: HistoryItem, x: real) {
    match item
    case Number(value) => x == if value < 0.0 then 0.0 else if value > 100.0 then 100.0 else value
    case Run(Some(score), _) => x == if score < 0.0 then 0.0 else if score > 100.0 then 100.0 else score
    case Run(None, ok) => ok.Some? && x == if ok.value then 100.0 else 0.0
    case Flag(ok) => x == if ok then 100.0 else 0.0
    case Other => false
  }

  ghost predicate Counts(item: HistoryItem) { exists x :: Worth(item, x) }

  /** The positions of the entries that count. */
  ghost function Usable(items: seq<HistoryItem>): set<nat> {
    set i: nat | i < |items| && Counts(items[i])
  }

  lemma ItemMeans(item: HistoryItem)
    ensures forall x :: x in ItemScore(item) <==> Worth(item, x)
    ensures |ItemScore(item)| == if Counts(item) then 1 else 0
  {
    if ItemScore(item) != [] { assert ItemScore(item)[0] in ItemScore(item); }
  }

  /** The series has one number for each entry that counts, and each is what some entry is worth. */
  lemma {:induction false} SeriesMeans(items: seq<HistoryItem>)
    ensures |Series(items)| == |Usable(items)|
    ensures forall x :: x in Series(items) <==> exists i :: 0 <= i < |items| && Worth(items[i], x)
  {
    hide Worth, Counts, ItemScore, Usable;
    if items == [] {
      NothingUsable();
    } else {
      var front, last := items[..|items| - 1], items[|items| - 1];
      SeriesMeans(front);
      ItemMeans(last);
      UsableStep(items);
      forall x ensures x in Series(items) <==> exists i :: 0 <= i < |items| && Worth(items[i], x) {
        assert x in Series(items) <==> x in Series(front) || x in ItemScore(last);
        if i :| 0 <= i < |items| && Worth(items[i], x) { assert i < |front| ==> front[i] == items[i]; }
      }
    }
  }

  lemma NothingUsable()
    ensures Usable([]) == {}
  {
  }

  lemma UsableStep(items: seq<HistoryItem>)
    requires items != []
    ensures |Usable(items)| ==
            |Usable(items[..|items| - 1])| + if Counts(items[|items| - 1]) then 1 else 0
  {
    hide Counts;
    var front, n := items[..|items| - 1], |items| - 1;
    assert Usable(items) == Usable(front) + if Counts(items[n]) then {n} else {};
  }

  // ---------------------------------------------------------------- the scorecard

  /** The sum of the grades, each times its own weight. */
  function GradeSum(g: Four<int>, w: Four<real>): real {
    Times(g.onboarding as real, w.onboarding) + Times(g.release as real, w.release)
    + Times(g.ops as real, w.ops) + Times(g.quality as real, w.quality)
  }

  lemma Share(g: real, w: real, total: real)
    requires total > 0.0
    ensures Times(Times(g, w / total), total) == Times(g, w)
  {
    var q := w / total;
    assert q * total == w;
    assert (g * q) * total == g * (q * total);
  }

  /** The score is the sum of grades times weights, divided by the sum of the weights and rounded. */
  lemma ScoreMeans(e: Evidence, w: Four<real>)
    ensures var card, total := BuildScorecard(e, w), w.onboarding + w.release + w.ops + w.quality;
            && (total > 0.0 ==>
                  -total <= 2.0 * (Times(card.score as real, total) - GradeSum(card.grades, w)) <= total)
            && (total <= 0.0 ==>
                  -2 <= 4 * card.score - (card.grades.onboarding + card.grades.release + card.grades.ops
                                          + card.grades.quality) <= 2)
  {
    hide RoundHalfEven, Grades, Band, Points, Rounded;
    var card, total, n := BuildScorecard(e, w), w.onboarding + w.release + w.ops + w.quality, Normalize(w);
    var g := card.grades;
    RoundNearest(Weighted(g, n));
    if total > 0.0 {
      ScaledSum(g, w, total);
      Between(card.score as real, Weighted(g, n), total);
    }
  }

  lemma ScaledSum(g: Four<int>, w: Four<real>, total: real)
    requires total > 0.0 && Total(w) == total
    ensures Times(Weighted(g, Normalize(w)), total) == GradeSum(g, w)
  {
    hide Times;
    Share(g.onboarding as real, w.onboarding, total);
    Share(g.release as real, w.release, total);
    Share(g.ops as real, w.ops, total);
    Share(g.quality as real, w.quality, total);
    var n := Normalize(w);
    TimesSum(Times(g.onboarding as real, n.onboarding), Times(g.release as real, n.release),
             Times(g.ops as real, n.ops), Times(g.quality as real, n.quality), total);
  }

  lemma SumTimes(a: real, b: real, n: real)
    ensures Times(a + b, n) == Times(a, n) + b * n
  {
  }

  lemma Between(x: real, y: real, total: real)
    requires -0.5 <= x - y <= 0.5 && total > 0.0
    ensures -total <= 2.0 * (Times(x, total) - Times(y, total)) <= total
  {
    Ordered(x, y + 0.5, total);
    Ordered(y - 0.5, x, total);
    SumTimes(y, 0.5, total);
    SumTimes(y, -0.5, total);
  }

  /** Each emitted weight is within 0.00005 of its own share of the total; without a positive total all are equal. */
  ghost predicate IsShare(emitted: real, weight: real, total: real) {
    -0.00005 * total <= Times(emitted, total) - weight <= 0.00005 * total
  }

  lemma EmittedShare(weight: real, total: real)
    requires total > 0.0
    ensures IsShare(Round4(weight / total), weight, total)
  {
    hide Round4;
    var q := weight / total;
    var r := Round4(q);
    Quotient(weight, total);
    Round4Near(q);
    Ordered(r, q + 0.00005, total);
    Ordered(q - 0.00005, r, total);
    SumTimes(q, 0.00005, total);
    SumTimes(q, -0.00005, total);
  }

  lemma WeightsMean(e: Evidence, w: Four<real>)
    ensures var emitted, total := BuildScorecard(e, w).weights, w.onboarding + w.release + w.ops + w.quality;
            && (total > 0.0 ==>
                  && IsShare(emitted.onboarding, w.onboarding, total) && IsShare(emitted.release, w.release, total)
                  && IsShare(emitted.ops, w.ops, total) && IsShare(emitted.quality, w.quality, total))
            && (total <= 0.0 ==> emitted == Four(0.25, 0.25, 0.25, 0.25))
  {
    hide Round4, Grades, Band, Points, Weighted, IsShare, RoundHalfEven;
    var total := w.onboarding + w.release + w.ops + w.quality;
    if total > 0.0 {
      EmittedShare(w.onboarding, total);
      EmittedShare(w.release, total);
      EmittedShare(w.ops, total);
      EmittedShare(w.quality, total);
    } else {
      Quarter();
    }
  }

  lemma Quarter()
    ensures Round4(0.25) == 0.25
  {
    RoundInt(2500);
  }

  /** Dimension points are quarters of their own grades, and the band is decided by the score. */
  lemma CardMeans(e: Evidence, w: Four<real>)
    ensures var card := BuildScorecard(e, w);
            && -2 <= 4 * card.dimensions.onboarding - card.grades.onboarding <= 2
            && -2 <= 4 * card.dimensions.release - card.grades.release <= 2
            && -2 <= 4 * card.dimensions.ops - card.grades.ops <= 2
            && -2 <= 4 * card.dimensions.quality - card.grades.quality <= 2
            && card.grades == Grades(e)
            && (card.band == "excellent" <==> card.score >= 90)
            && (card.band == "strong" <==> 70 <= card.score < 90)
            && (card.band == "developing" <==> 40 <= card.score < 70)
            && (card.band == "early" <==> card.score < 40)
  {
    hide RoundHalfEven, Grades, Rounded, Normalize, Weighted;
    var g := Grades(e);
    RoundNearest(g.onboarding as real / 4.0);
    RoundNearest(g.release as real / 4.0);
    RoundNearest(g.ops as real / 4.0);
    RoundNearest(g.quality as real / 4.0);
    BandMeans(BuildScorecard(e, w).score);
  }

  lemma BandMeans(score: int)
    ensures Band(score) == "excellent" <==> score >= 90
    ensures Band(score) == "strong" <==> 70 <= score < 90
    ensures Band(score) == "developing" <==> 40 <= score < 70
    ensures Band(score) == "early" <==> score < 40
  {
    assert |"excellent"| == 9 && |"strong"| == 6 && |"developing"| == 10 && |"early"| == 5;
  }

  // ---------------------------------------------------------------- the contract

  ghost predicate HasAll(p: Payload, s: Section) {
    s in p.sections && p.sections[s].Object? && forall d: Dimension :: d in p.sections[s].entries
  }

  /** What the contract accepts, written out: six keys, four complete objects and weights that sum to one within a
      thousandth. */
  lemma ConformsMeans(p: Payload)
    ensures Conforms(p) <==>
            && p.schemaVersion == Some("2") && Score in p.sections && BandName in p.sections
            && HasAll(p, Dimensions) && HasAll(p, GradedDimensions) && HasAll(p, Weights) && HasAll(p, Signals)
            && var w := p.sections[Weights].entries;
            && w[Onboarding].Some? && w[Release].Some? && w[Ops].Some? && w[Quality].Some?
            && 0.999 <= w[Onboarding].value + w[Release].value + w[Ops].value + w[Quality].value <= 1.001
  {
    assert OBJECTS[0] == Dimensions && OBJECTS[1] == GradedDimensions && OBJECTS[2] == Weights;
    assert OBJECTS[3] == Signals;
    if HasAll(p, Dimensions) && HasAll(p, GradedDimensions) && HasAll(p, Weights) && HasAll(p, Signals)
       && Score in p.sections && BandName in p.sections
    {
      forall s: Section ensures s in p.sections {
        match s
        case Score => case BandName => case Dimensions => case GradedDimensions => case Weights => case Signals =>
      }
      var w := p.sections[Weights].entries;
      forall d: Dimension ensures WeightOf(p, d) == w[d] { }
      if w[Onboarding].Some? && w[Release].Some? && w[Ops].Some? && w[Quality].Some? {
        forall d: Dimension ensures WeightOf(p, d).Some? {
          match d case Onboarding => case Release => case Ops => case Quality =>
        }
      }
    }
  }
}
