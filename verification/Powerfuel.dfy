/** Workflow overlap: duplicated triggers, retirement priority, and the consolidation score built from them. */
module Powerfuel {
  import opened Ordering

  /** A workflow file with the trigger keys found in its text. */
  datatype Workflow = Workflow(name: string, declares: set<string>)

  const TRIGGERS := ["push", "pull_request", "workflow_dispatch", "schedule", "release"]

  function SumOf<T>(s: seq<T>, f: T -> int): int { Sum(Map(f, s)) }

  function Declares(w: Workflow): string -> bool { t => t in w.declares }

  function Detected(w: Workflow): seq<string> { Filter(Declares(w), TRIGGERS) }

  method DetectTriggers(w: Workflow) returns (found: seq<string>)
    ensures found == Detected(w)
  {
    hide Filter;
    found := [];
    FilterStep(Declares(w), TRIGGERS, 0);
    for i := 0 to |TRIGGERS|
      invariant found == Filter(Declares(w), TRIGGERS[..i])
    {
      FilterStep(Declares(w), TRIGGERS, i);
      if TRIGGERS[i] in w.declares { found := found + [TRIGGERS[i]]; }
    }
    assert TRIGGERS[..|TRIGGERS|] == TRIGGERS;
  }

  /** How many workflows have a trigger. */
  function Count(files: seq<Workflow>, t: string): nat {
    if files == [] then 0
    else Count(files[..|files| - 1], t) + if t in Detected(files[|files| - 1]) then 1 else 0
  }

  function Excess(n: int): int { if n - 1 > 0 then n - 1 else 0 }

  function ExcessOf(files: seq<Workflow>): string -> int { t => Excess(Count(files, t)) }

  /** `duplicate_trigger_paths` */
  function Duplicates(files: seq<Workflow>): int { SumOf(TRIGGERS, ExcessOf(files)) }

  /** `retirement_priority_score` of w among the given workflows. */
  function Score(w: Workflow, files: seq<Workflow>): int { SumOf(Detected(w), ExcessOf(files)) }

  // ---------------------------------------------------------------- the baseline

  function CountIn(counter: map<string, nat>, t: string): nat { if t in counter then counter[t] else 0 }

  method UpdateCounter(counter: map<string, nat>, triggers: seq<string>) returns (out: map<string, nat>)
    requires Distinct(triggers)
    ensures forall t :: CountIn(out, t) == CountIn(counter, t) + if t in triggers then 1 else 0
    ensures out.Keys == counter.Keys + Elements(triggers)
  {
    out := counter;
    for i := 0 to |triggers|
      invariant forall t :: CountIn(out, t) == CountIn(counter, t) + if t in triggers[..i] then 1 else 0
      invariant out.Keys == counter.Keys + Elements(triggers[..i])
    {
      var t := triggers[i];
      assert t !in triggers[..i];
      assert forall u :: u in triggers[..i + 1] <==> u in triggers[..i] || u == t;
      out := out[t := CountIn(out, t) + 1];
    }
    assert triggers[..|triggers|] == triggers;
  }

  /** The excess over one of the keys that are still to be summed. */
  function Pending(ts: seq<string>, counter: map<string, nat>, keys: set<string>): int {
    if ts == [] then 0
    else
      var t := ts[|ts| - 1];
      Pending(ts[..|ts| - 1], counter, keys) + if t in keys then Excess(CountIn(counter, t)) else 0
  }

  lemma {:induction false} PendingStep(ts: seq<string>, counter: map<string, nat>, keys: set<string>, k: string)
    requires Distinct(ts) && k in keys
    ensures Pending(ts, counter, keys) ==
            Pending(ts, counter, keys - {k}) + if k in ts then Excess(CountIn(counter, k)) else 0
  {
    if ts != [] {
      var front, last := ts[..|ts| - 1], ts[|ts| - 1];
      PendingStep(front, counter, keys, k);
      assert ts == front + [last];
      assert k in ts <==> k in front || k == last;
    }
  }

  lemma {:induction false} PendingNone(ts: seq<string>, counter: map<string, nat>)
    ensures Pending(ts, counter, {}) == 0
  {
    if ts != [] { PendingNone(ts[..|ts| - 1], counter); }
  }

  /** `sum(max(0, count - 1) for count in counter.values())` */
  method SumExcess(counter: map<string, nat>) returns (total: int)
    requires forall k :: k in counter ==> k in TRIGGERS
    ensures total == Pending(TRIGGERS, counter, counter.Keys)
  {
    total := 0;
    var keys := counter.Keys;
    TriggersDistinct();
    while keys != {}
      invariant keys <= counter.Keys
      invariant total + Pending(TRIGGERS, counter, keys) == Pending(TRIGGERS, counter, counter.Keys)
      decreases |keys|
    {
      var k :| k in keys;
      PendingStep(TRIGGERS, counter, keys, k);
      total := total + Excess(counter[k]);
      keys := keys - {k};
    }
    PendingNone(TRIGGERS, counter);
  }

  lemma TriggersDistinct()
    ensures Distinct(TRIGGERS)
  {
  }

  lemma DetectedShape(w: Workflow)
    ensures Distinct(Detected(w))
    ensures forall t :: t in Detected(w) <==> t in TRIGGERS && t in w.declares
  {
    TriggersDistinct();
    FilterDistinct(Declares(w), TRIGGERS);
    forall t ensures t in Detected(w) <==> t in TRIGGERS && t in w.declares { FilterMember(Declares(w), TRIGGERS, t); }
  }

  lemma {:induction false} PendingIsSum(ts: seq<string>, files: seq<Workflow>, counter: map<string, nat>)
    requires forall t :: CountIn(counter, t) == Count(files, t)
    ensures Pending(ts, counter, counter.Keys) == SumOf(ts, ExcessOf(files))
  {
    hide Count;
    if ts != [] {
      PendingIsSum(ts[..|ts| - 1], files, counter);
      SumLast(ts, ExcessOf(files));
      assert CountIn(counter, ts[|ts| - 1]) == Count(files, ts[|ts| - 1]);
    }
  }

  lemma NothingCounted()
    ensures forall t :: CountIn(map[], t) == Count([], t)
  {
  }

  lemma CountStep(files: seq<Workflow>, n: nat)
    requires n < |files|
    ensures forall t :: Count(files[..n + 1], t) == Count(files[..n], t) + if t in Detected(files[n]) then 1 else 0
  {
    hide Detected;
    Prefix(files, n);
  }

  method BuildBaseline(files: seq<Workflow>)
    returns (counter: map<string, nat>, triggerMap: map<string, seq<string>>, duplicates: int)
    requires forall i, j :: 0 <= i < j < |files| ==> files[i].name != files[j].name
    ensures forall t :: CountIn(counter, t) == Count(files, t)
    ensures forall i :: 0 <= i < |files| ==>
              files[i].name in triggerMap && triggerMap[files[i].name] == Detected(files[i])
    ensures duplicates == Duplicates(files)
  {
    hide Detected, Count, CountIn;
    counter, triggerMap := map[], map[];
    NothingCounted();
    for n := 0 to |files|
      invariant forall t :: CountIn(counter, t) == Count(files[..n], t)
      invariant forall k :: k in counter ==> k in TRIGGERS
      invariant forall i :: 0 <= i < n ==>
                  files[i].name in triggerMap && triggerMap[files[i].name] == Detected(files[i])
    {
      CountStep(files, n);
      DetectedShape(files[n]);
      var triggers := DetectTriggers(files[n]);
      triggerMap := triggerMap[files[n].name := triggers];
      counter := UpdateCounter(counter, triggers);
    }
    assert files[..|files|] == files;
    duplicates := SumExcess(counter);
    PendingIsSum(TRIGGERS, files, counter);
  }

  // ---------------------------------------------------------------- the shadow log and the score

  datatype Candidate = Candidate(workflow: string, triggers: seq<string>, triggerCount: nat, score: int)

  function CandidateKey(c: Candidate): Key { Key([-c.score, -(c.triggerCount as int)], [c.workflow]) }

  function CandidateFor(w: Workflow, files: seq<Workflow>): Candidate {
    Candidate(w.name, SortTexts(Detected(w)), |Detected(w)|, Score(w, files))
  }

  method BuildCandidates(files: seq<Workflow>) returns (candidates: seq<Candidate>)
    ensures candidates == Ranking(files)
  {
    candidates := [];
    for i := 0 to |files|
      invariant |candidates| == i && forall k :: 0 <= k < i ==> candidates[k] == CandidateFor(files[k], files)
    {
      candidates := candidates + [CandidateFor(files[i], files)];
    }
    assert candidates == Map(w => CandidateFor(w, files), files);
    candidates := Sort(candidates, CandidateKey);
  }

  /** The ranked retirement candidates of a set of workflows. */
  function Ranking(files: seq<Workflow>): seq<Candidate> {
    Sort(Map(w => CandidateFor(w, files), files), CandidateKey)
  }

  function TopScore(files: seq<Workflow>): int {
    var ranked := Ranking(files);
    if ranked == [] then 0 else ranked[0].score
  }

  datatype Lane = LowLane | MediumLane | HighLane

  /** `int(...)` of a non-negative blend, clamped to 0..100. */
  function Blend(duplicates: int, top: int, count: int): int {
    var raw := (duplicates as real * 0.5 + top as real * 0.3 + count as real * 0.2).Floor;
    if raw < 0 then 0 else if raw > 100 then 100 else raw
  }

  function ConsolidationScore(files: seq<Workflow>): int { Blend(Duplicates(files), TopScore(files), |files|) }

  function LaneOf(score: int): Lane { if score >= 70 then HighLane else if score >= 40 then MediumLane else LowLane }

  // ---------------------------------------------------------------- sums

  lemma SumLast<T>(s: seq<T>, f: T -> int)
    requires s != []
    ensures SumOf(s, f) == SumOf(s[..|s| - 1], f) + f(s[|s| - 1])
  {
    assert Map(f, s)[..|s| - 1] == Map(f, s[..|s| - 1]);
  }

  lemma {:induction false} SumMonotone<T>(s: seq<T>, f: T -> int, g: T -> int)
    requires forall i :: 0 <= i < |s| ==> f(s[i]) <= g(s[i])
    ensures SumOf(s, f) <= SumOf(s, g)
  {
    if s != [] {
      SumMonotone(s[..|s| - 1], f, g);
      SumLast(s, f);
      SumLast(s, g);
    }
  }

  lemma {:induction false} SumNonNegative<T>(s: seq<T>, f: T -> int)
    requires forall i :: 0 <= i < |s| ==> f(s[i]) >= 0
    ensures SumOf(s, f) >= 0
    ensures SumOf(s, f) > 0 <==> exists i :: 0 <= i < |s| && f(s[i]) > 0
  {
    if s != [] {
      SumNonNegative(s[..|s| - 1], f);
      SumLast(s, f);
      assert forall i :: 0 <= i < |s| - 1 ==> s[..|s| - 1][i] == s[i];
    }
  }

  /** f where p holds, zero elsewhere. */
  function Only<T>(p: T -> bool, f: T -> int): T -> int { x => if p(x) then f(x) else 0 }

  function One<T>(): T -> int { x => 1 }

  lemma {:induction false} SumFiltered<T>(s: seq<T>, p: T -> bool, f: T -> int)
    ensures SumOf(Filter(p, s), f) == SumOf(s, Only(p, f))
  {
    if s != [] {
      SumFiltered(s[..|s| - 1], p, f);
      var kept := Filter(p, s[..|s| - 1]);
      assert (kept + [s[|s| - 1]])[..|kept|] == kept && kept + [] == kept;
      SumLast(s, Only(p, f));
      SumLast(kept + [s[|s| - 1]], f);
    }
  }

  lemma {:induction false} SumAdd<T>(s: seq<T>, f: T -> int, g: T -> int, h: T -> int)
    requires forall i :: 0 <= i < |s| ==> f(s[i]) == g(s[i]) + h(s[i])
    ensures SumOf(s, f) == SumOf(s, g) + SumOf(s, h)
  {
    if s != [] {
      SumAdd(s[..|s| - 1], f, g, h);
      SumLast(s, f);
      SumLast(s, g);
      SumLast(s, h);
    }
  }

  // ---------------------------------------------------------------- what the numbers mean

  /** No workflow can duplicate more than all workflows together. */
  lemma ScoreWithinDuplicates(w: Workflow, files: seq<Workflow>)
    ensures 0 <= Score(w, files) <= Duplicates(files)
  {
    hide Count;
    var f := ExcessOf(files);
    SumFiltered(TRIGGERS, Declares(w), f);
    SumMonotone(TRIGGERS, Only(Declares(w), f), f);
    SumNonNegative(Detected(w), f);
  }

  function Present(files: seq<Workflow>): string -> int { t => if Count(files, t) > 0 then 1 else 0 }

  function CountsOf(files: seq<Workflow>): string -> int { t => Count(files, t) }

  function TriggersOf(w: Workflow): int { |Detected(w)| }

  lemma {:induction false} SumOnes<T>(s: seq<T>)
    ensures SumOf(s, One()) == |s|
  {
    if s != [] {
      SumOnes(s[..|s| - 1]);
      SumLast(s, One());
    }
  }

  /** Summing the counters by trigger or by workflow counts the same occurrences. */
  lemma {:induction false} DoubleCount(files: seq<Workflow>)
    ensures SumOf(TRIGGERS, CountsOf(files)) == SumOf(files, TriggersOf)
  {
    hide SumOf, Detected;
    if files == [] {
      NoTriggers();
    } else {
      var front, last := files[..|files| - 1], files[|files| - 1];
      DoubleCount(front);
      DetectedShape(last);
      SumAdd(TRIGGERS, CountsOf(files), CountsOf(front), Only(Declares(last), One()));
      SumFiltered(TRIGGERS, Declares(last), One());
      SumOnes(Detected(last));
      SumLast(files, TriggersOf);
      FilterIsDetected(last);
    }
  }

  lemma NoTriggers()
    ensures SumOf(TRIGGERS, CountsOf([])) == 0 && SumOf([], TriggersOf) == 0
  {
    SumAdd(TRIGGERS, CountsOf([]), CountsOf([]), CountsOf([]));
  }

  lemma FilterIsDetected(w: Workflow)
    ensures Filter(Declares(w), TRIGGERS) == Detected(w)
  {
  }

  /** The duplicates are the trigger occurrences beyond the first of each trigger. */
  lemma DuplicatesAreExtras(files: seq<Workflow>)
    ensures Duplicates(files) == SumOf(files, TriggersOf) - SumOf(TRIGGERS, Present(files))
  {
    hide Count;
    DoubleCount(files);
    SumAdd(TRIGGERS, CountsOf(files), ExcessOf(files), Present(files));
  }

  lemma TopIsMaximum(files: seq<Workflow>)
    ensures forall i :: 0 <= i < |files| ==> Score(files[i], files) <= TopScore(files)
    ensures files != [] ==> exists i :: 0 <= i < |files| && Score(files[i], files) == TopScore(files)
    ensures files == [] ==> TopScore(files) == 0
  {
    hide Score, Detected;
    var all, ranked := Map(w => CandidateFor(w, files), files), Ranking(files);
    SortMultiset(all, CandidateKey);
    SortSorted(all, CandidateKey);
    forall i | 0 <= i < |files| ensures Score(files[i], files) <= TopScore(files) {
      assert all[i] in multiset(ranked);
      var j :| 0 <= j < |ranked| && ranked[j] == all[i];
      if j > 0 { RankOrder(ranked[0], ranked[j]); }
    }
    if files != [] {
      assert ranked[0] in multiset(all);
      var i :| 0 <= i < |all| && all[i] == ranked[0];
      assert Score(files[i], files) == TopScore(files);
    }
  }

  lemma RankOrder(a: Candidate, b: Candidate)
    requires KeyLeq(CandidateKey(a), CandidateKey(b))
    ensures b.score <= a.score
  {
  }

  // ---------------------------------------------------------------- retiring a workflow

  function Retire(files: seq<Workflow>, i: nat): seq<Workflow>
    requires i < |files|
  {
    files[..i] + files[i + 1..]
  }

  lemma {:induction false} CountAppend(a: seq<Workflow>, b: seq<Workflow>, t: string)
    ensures Count(a + b, t) == Count(a, t) + Count(b, t)
  {
    hide Detected;
    if b == [] {
      assert a + b == a;
    } else {
      assert (a + b)[..|a + b| - 1] == a + b[..|b| - 1];
      CountAppend(a, b[..|b| - 1], t);
    }
  }

  lemma CountRetire(files: seq<Workflow>, i: nat, t: string)
    requires i < |files|
    ensures Count(files, t) == Count(Retire(files, i), t) + if t in Detected(files[i]) then 1 else 0
  {
    hide Detected;
    assert files == files[..i] + [files[i]] + files[i + 1..];
    CountAppend(files[..i] + [files[i]], files[i + 1..], t);
    CountAppend(files[..i], [files[i]], t);
    CountAppend(files[..i], files[i + 1..], t);
    assert [files[i]][..0] == [];
    assert Count([files[i]], t) == if t in Detected(files[i]) then 1 else 0;
  }

  lemma ScoreRetire(w: Workflow, files: seq<Workflow>, i: nat)
    requires i < |files|
    ensures Score(w, Retire(files, i)) <= Score(w, files)
  {
    hide Count, Detected;
    var f, g := ExcessOf(Retire(files, i)), ExcessOf(files);
    forall k | 0 <= k < |Detected(w)| ensures f(Detected(w)[k]) <= g(Detected(w)[k]) {
      CountRetire(files, i, Detected(w)[k]);
    }
    SumMonotone(Detected(w), f, g);
  }

  lemma TopRetire(files: seq<Workflow>, i: nat)
    requires i < |files|
    ensures 0 <= TopScore(Retire(files, i)) <= TopScore(files)
  {
    hide Score, TopScore;
    var rest := Retire(files, i);
    TopIsMaximum(rest);
    TopIsMaximum(files);
    ScoreWithinDuplicates(files[i], files);
    if rest != [] {
      var k :| 0 <= k < |rest| && Score(rest[k], rest) == TopScore(rest);
      ScoreWithinDuplicates(rest[k], rest);
      ScoreRetire(rest[k], files, i);
      var j := if k < i then k else k + 1;
      assert rest[k] == files[j];
    }
  }

  function Doubled(files: seq<Workflow>): string -> bool { t => Count(files, t) >= 2 }

  /** Retiring a workflow lowers the duplicates by one for each of its triggers that another workflow also has, and so
      exactly when its priority score is positive. */
  lemma DuplicatesRetire(files: seq<Workflow>, i: nat)
    requires i < |files|
    ensures Duplicates(files) == Duplicates(Retire(files, i)) + |Filter(Doubled(files), Detected(files[i]))|
    ensures Duplicates(Retire(files, i)) < Duplicates(files) <==> Score(files[i], files) > 0
  {
    hide Count, Filter, SumOf;
    var w, doubled := files[i], Doubled(files);
    var f, g := ExcessOf(Retire(files, i)), ExcessOf(files);
    var drop := Only(Declares(w), Only(doubled, One()));
    forall k | 0 <= k < |TRIGGERS| ensures g(TRIGGERS[k]) == f(TRIGGERS[k]) + drop(TRIGGERS[k]) {
      CountRetire(files, i, TRIGGERS[k]);
      FilterMember(Declares(w), TRIGGERS, TRIGGERS[k]);
    }
    SumAdd(TRIGGERS, g, f, drop);
    SumFiltered(TRIGGERS, Declares(w), Only(doubled, One()));
    SumFiltered(Detected(w), doubled, One());
    SumOnes(Filter(doubled, Detected(w)));
    DoubledScore(files, Detected(w));
  }

  lemma DoubledScore(files: seq<Workflow>, triggers: seq<string>)
    ensures Filter(Doubled(files), triggers) != [] <==> SumOf(triggers, ExcessOf(files)) > 0
  {
    hide Count, SumOf, Filter;
    var kept, g := Filter(Doubled(files), triggers), ExcessOf(files);
    SumNonNegative(triggers, g);
    if kept != [] {
      FilterMember(Doubled(files), triggers, kept[0]);
      var k :| 0 <= k < |triggers| && triggers[k] == kept[0];
      assert g(triggers[k]) > 0;
    }
    if k :| 0 <= k < |triggers| && g(triggers[k]) > 0 {
      FilterMember(Doubled(files), triggers, triggers[k]);
    }
  }

  lemma BlendMonotone(d: int, t: int, c: int, d': int, t': int, c': int)
    requires d <= d' && t <= t' && c <= c'
    ensures Blend(d, t, c) <= Blend(d', t', c')
  {
    var x := d as real * 0.5 + t as real * 0.3 + c as real * 0.2;
    var y := d' as real * 0.5 + t' as real * 0.3 + c' as real * 0.2;
    assert x <= y;
    assert x.Floor <= y.Floor;
  }

  function LaneRank(l: Lane): nat { match l case LowLane => 0 case MediumLane => 1 case HighLane => 2 }

  /** Retiring any workflow never raises the consolidation score or its lane. */
  lemma RetireNeverRaises(files: seq<Workflow>, i: nat)
    requires i < |files|
    ensures ConsolidationScore(Retire(files, i)) <= ConsolidationScore(files)
    ensures LaneRank(LaneOf(ConsolidationScore(Retire(files, i)))) <= LaneRank(LaneOf(ConsolidationScore(files)))
  {
    hide Duplicates, TopScore, Blend;
    DuplicatesRetire(files, i);
    TopRetire(files, i);
    BlendMonotone(Duplicates(Retire(files, i)), TopScore(Retire(files, i)), |Retire(files, i)|,
                  Duplicates(files), TopScore(files), |files|);
  }

  function RetireAll(files: seq<Workflow>, plan: seq<nat>): seq<Workflow> {
    if plan == [] then files
    else
      var rest := RetireAll(files, plan[..|plan| - 1]);
      if plan[|plan| - 1] < |rest| then Retire(rest, plan[|plan| - 1]) else rest
  }

  /** Nor does any sequence of retirements. */
  lemma {:induction false} RetirementPlanNeverRaises(files: seq<Workflow>, plan: seq<nat>)
    ensures ConsolidationScore(RetireAll(files, plan)) <= ConsolidationScore(files)
  {
    hide ConsolidationScore;
    if plan != [] {
      RetirementPlanNeverRaises(files, plan[..|plan| - 1]);
      var rest := RetireAll(files, plan[..|plan| - 1]);
      if plan[|plan| - 1] < |rest| { RetireNeverRaises(rest, plan[|plan| - 1]); }
    }
  }
}
