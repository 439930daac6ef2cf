/** What overlap scores, duplicates and the consolidation score count in the workflow files. */
module PowerfuelScores {
  import opened Ordering
  import opened Powerfuel

  // ---------------------------------------------------------------- triggers

  predicate IsTrigger(t: string) {
    t == "push" || t == "pull_request" || t == "workflow_dispatch" || t == "schedule" || t == "release"
  }

  lemma TriggerListed(t: string)
    ensures t in TRIGGERS <==> IsTrigger(t)
  {
    assert TRIGGERS[0] == "push" && TRIGGERS[1] == "pull_request" && TRIGGERS[2] == "workflow_dispatch";
    assert TRIGGERS[3] == "schedule" && TRIGGERS[4] == "release";
  }

  /** The positions of the workflows that declare a trigger. */
  ghost function Declaring(files: seq<Workflow>, t: string): set<nat> {
    set i: nat | i < |files| && t in files[i].declares
  }

  lemma {:induction false} CountMeans(files: seq<Workflow>, t: string)
    ensures Count(files, t) == if IsTrigger(t) then |Declaring(files, t)| else 0
  {
    hide Detected, IsTrigger;
    if files == [] {
      assert Declaring(files, t) == {};
    } else {
      var front, n := files[..|files| - 1], |files| - 1;
      CountMeans(front, t);
      DetectedShape(files[n]);
      TriggerListed(t);
      assert Declaring(files, t) == Declaring(front, t) + if t in files[n].declares then {n} else {};
    }
  }

  lemma SumOfTriggers(f: string -> int)
    ensures SumOf(TRIGGERS, f) ==
            f("push") + f("pull_request") + f("workflow_dispatch") + f("schedule") + f("release")
  {
    var s := Map(f, TRIGGERS);
    assert |s| == 5 && s[..4][..3] == s[..3] && s[..3][..2] == s[..2] && s[..2][..1] == s[..1] && s[..1][..0] == [];
    assert Sum(s[..1]) == s[0] && Sum(s[..2]) == s[0] + s[1] && Sum(s[..3]) == s[0] + s[1] + s[2];
    assert Sum(s[..4]) == s[0] + s[1] + s[2] + s[3];
  }

  // ---------------------------------------------------------------- duplicates and scores

  /** How many workflows declare a trigger beyond the first. */
  ghost function Extra(files: seq<Workflow>, t: string): nat {
    if Declaring(files, t) == {} then 0 else |Declaring(files, t)| - 1
  }

  lemma ExcessMeans(files: seq<Workflow>, t: string)
    requires IsTrigger(t)
    ensures ExcessOf(files)(t) == Extra(files, t)
  {
    hide Count, IsTrigger;
    CountMeans(files, t);
  }

  /** The duplicates are counted for each trigger beyond the first workflow that declares it. */
  lemma DuplicatesMean(files: seq<Workflow>)
    ensures Duplicates(files) ==
            Extra(files, "push") + Extra(files, "pull_request") + Extra(files, "workflow_dispatch")
            + Extra(files, "schedule") + Extra(files, "release")
  {
    hide Extra, ExcessOf, SumOf;
    SumOfTriggers(ExcessOf(files));
    ExcessMeans(files, "push");
    ExcessMeans(files, "pull_request");
    ExcessMeans(files, "workflow_dispatch");
    ExcessMeans(files, "schedule");
    ExcessMeans(files, "release");
  }

  /** How many other workflows share a trigger with the one at position i. */
  ghost function Overlap(files: seq<Workflow>, i: nat, t: string): nat
    requires i < |files|
  {
    if t in files[i].declares then |set j: nat | j < |files| && j != i && t in files[j].declares| else 0
  }

  lemma OverlapIsExtra(files: seq<Workflow>, i: nat, t: string)
    requires i < |files|
    ensures Overlap(files, i, t) == if t in files[i].declares then Extra(files, t) else 0
  {
    if t in files[i].declares {
      assert i in Declaring(files, t);
      assert (set j: nat | j < |files| && j != i && t in files[j].declares) == Declaring(files, t) - {i};
    }
  }

  lemma OnlyDeclared(files: seq<Workflow>, i: nat, t: string)
    requires i < |files| && IsTrigger(t)
    ensures Only(Declares(files[i]), ExcessOf(files))(t) == Overlap(files, i, t)
  {
    hide IsTrigger, ExcessOf, Extra, Overlap;
    ExcessMeans(files, t);
    OverlapIsExtra(files, i, t);
  }

  /** The priority score of a workflow counts, over its triggers, the other workflows that share them. */
  lemma ScoreMeans(files: seq<Workflow>, i: nat)
    requires i < |files|
    ensures Score(files[i], files) ==
            Overlap(files, i, "push") + Overlap(files, i, "pull_request") + Overlap(files, i, "workflow_dispatch")
            + Overlap(files, i, "schedule") + Overlap(files, i, "release")
  {
    hide Overlap, ExcessOf, SumOf, Only, Declares;
    var f := Only(Declares(files[i]), ExcessOf(files));
    SumFiltered(TRIGGERS, Declares(files[i]), ExcessOf(files));
    SumOfTriggers(f);
    OnlyDeclared(files, i, "push");
    OnlyDeclared(files, i, "pull_request");
    OnlyDeclared(files, i, "workflow_dispatch");
    OnlyDeclared(files, i, "schedule");
    OnlyDeclared(files, i, "release");
  }

  // ---------------------------------------------------------------- the ranking

  /** Higher scores stand first, then more triggers, then the name decides. */
  lemma RankingOrdered(files: seq<Workflow>, i: nat, j: nat)
    requires i < j < |Ranking(files)|
    ensures var a, b := Ranking(files)[i], Ranking(files)[j];
            && a.score >= b.score
            && (a.score == b.score ==> a.triggerCount >= b.triggerCount)
            && (a.score == b.score && a.triggerCount == b.triggerCount ==> StrLeq(a.workflow, b.workflow))
  {
    hide CandidateFor, KeyLeq, Sort, CandidateKey;
    SortSorted(Map(w => CandidateFor(w, files), files), CandidateKey);
    CandidateOrder(Ranking(files)[i], Ranking(files)[j]);
  }

  lemma CandidateOrder(a: Candidate, b: Candidate)
    requires KeyLeq(CandidateKey(a), CandidateKey(b))
    ensures a.score >= b.score
    ensures a.score == b.score ==> a.triggerCount >= b.triggerCount
    ensures a.score == b.score && a.triggerCount == b.triggerCount ==> StrLeq(a.workflow, b.workflow)
  {
    hide StrLeq;
    var s, t := CandidateKey(a), CandidateKey(b);
    if s.ranks == t.ranks {
      FirstText(s.texts, t.texts);
      assert s.ranks[0] == t.ranks[0] && s.ranks[1] == t.ranks[1];
    } else {
      assert s.ranks[1..][1..] == [] && t.ranks[1..][1..] == [];
      if a.score == b.score { assert Lex(IntLeq, s.ranks[1..], t.ranks[1..]); }
    }
  }

  /** The candidate of a workflow names it with its score and its triggers in ascending order. */
  ghost predicate CandidateSays(c: Candidate, w: Workflow, score: int) {
    && c.workflow == w.name && c.score == score && c.triggerCount == |c.triggers|
    && (forall t :: t in c.triggers <==> IsTrigger(t) && t in w.declares)
    && Ascending(c.triggers)
  }

  lemma CandidateMeans(w: Workflow, files: seq<Workflow>)
    ensures CandidateSays(CandidateFor(w, files), w, Score(w, files))
  {
    hide Score, Detected, StrLeq, IsTrigger, Sort, KeyLeq, TextKey;
    var found := Detected(w);
    var c := CandidateFor(w, files);
    DetectedShape(w);
    SortMultiset(found, TextKey);
    SortSorted(found, TextKey);
    SameMembers(found, c.triggers);
    forall t ensures t in c.triggers <==> IsTrigger(t) && t in w.declares { TriggerListed(t); }
    forall i, j | 0 <= i < j < |c.triggers| ensures StrLeq(c.triggers[i], c.triggers[j]) {
      TextKeyOrder(c.triggers[i], c.triggers[j]);
    }
  }

  /** The ranking has one candidate for each workflow and no other. */
  lemma RankingMembers(files: seq<Workflow>, c: Candidate)
    ensures |Ranking(files)| == |files|
    ensures c in Ranking(files) <==>
            exists i :: 0 <= i < |files| && CandidateSays(c, files[i], Score(files[i], files))
  {
    hide CandidateFor, Score, Sort, CandidateKey, CandidateSays;
    var all := Map(w => CandidateFor(w, files), files);
    SortMultiset(all, CandidateKey);
    assert c in Ranking(files) <==> c in multiset(Ranking(files));
    assert c in all <==> c in multiset(all);
    forall i | 0 <= i < |files|
      ensures CandidateSays(c, files[i], Score(files[i], files)) <==> c == all[i]
    {
      CandidateMeans(files[i], files);
      var score := Score(files[i], files);
      if CandidateSays(c, files[i], score) { OneCandidate(c, all[i], files[i], score); }
    }
  }

  lemma OneCandidate(a: Candidate, b: Candidate, w: Workflow, score: int)
    requires CandidateSays(a, w, score) && CandidateSays(b, w, score)
    ensures a == b
  {
    hide Ascending, IsTrigger;
    assert Elements(a.triggers) == Elements(b.triggers);
    AscendingUnique(a.triggers, b.triggers);
  }

  // ---------------------------------------------------------------- the consolidation score

  /** Half of the duplicates, three tenths of the top score and a fifth of the workflows, up to a hundred. */
  lemma BlendMeans(d: nat, t: nat, c: nat)
    ensures Blend(d, t, c) == if 5 * d + 3 * t + 2 * c >= 1000 then 100 else (5 * d + 3 * t + 2 * c) / 10
  {
    var tenths := 5 * d + 3 * t + 2 * c;
    assert d as real * 0.5 + t as real * 0.3 + c as real * 0.2 == tenths as real / 10.0;
    assert (tenths as real / 10.0).Floor == tenths / 10;
  }

  /** The lane is decided by tenths of duplicates, top score and workflow count. */
  lemma LaneMeans(files: seq<Workflow>)
    ensures var tenths := 5 * Duplicates(files) + 3 * TopScore(files) + 2 * |files|;
            && ConsolidationScore(files) == (if tenths >= 1000 then 100 else tenths / 10)
            && (LaneOf(ConsolidationScore(files)) == HighLane <==> tenths >= 700)
            && (LaneOf(ConsolidationScore(files)) == MediumLane <==> 400 <= tenths < 700)
            && (LaneOf(ConsolidationScore(files)) == LowLane <==> tenths < 400)
  {
    hide Duplicates, TopScore, Blend, Score;
    assert TopScore(files) >= 0 && Duplicates(files) >= 0 by {
      TopIsMaximum(files);
      if files != [] {
        ScoreWithinDuplicates(files[0], files);
      } else {
        ScoreWithinDuplicates(Workflow("", {}), files);
      }
    }
    BlendMeans(Duplicates(files), TopScore(files), |files|);
  }
}
