/** What the consolidation report says of a plan and a topology, on the entries of their lists. */
module PlanContent {
  import opened Outcomes
  import opened Ordering
  import opened Text
  import opened ConsolidationPlan
  import OverlapReport
  import WorkflowContracts

  // ---------------------------------------------------------------- lists

  /** An entry of the list is w once it is trimmed; blank entries name nothing. */
  ghost predicate Lists(entries: seq<string>, w: string) { w != "" && exists x :: x in entries && Strip(x) == w }

  /** The positions of the entries that name w. */
  ghost function Naming(entries: seq<string>, w: string): set<nat> {
    set i: nat | w != "" && i < |entries| && Strip(entries[i]) == w
  }

  lemma {:induction false} StringsNaming(entries: seq<string>, w: string)
    ensures multiset(Strings(entries))[w] == |Naming(entries, w)|
  {
    hide Strip;
    if entries == [] {
      assert Naming(entries, w) == {};
    } else {
      var front, last := entries[..|entries| - 1], entries[|entries| - 1];
      StringsNaming(front, w);
      NamingStep(entries, w);
      var before, added := Strings(front), if Strip(last) != "" then [Strip(last)] else [];
      assert Strings(entries) == before + added;
      assert multiset(before + added) == multiset(before) + multiset(added);
    }
  }

  lemma NamingStep(entries: seq<string>, w: string)
    requires entries != []
    ensures |Naming(entries, w)| == |Naming(entries[..|entries| - 1], w)| +
                                    if w != "" && Strip(entries[|entries| - 1]) == w then 1 else 0
  {
    hide Strip;
    var front, n := entries[..|entries| - 1], |entries| - 1;
    assert Naming(entries, w) == Naming(front, w) + if w != "" && Strip(entries[n]) == w then {n} else {};
  }

  lemma StringsMember(entries: seq<string>, w: string)
    ensures w in Strings(entries) <==> Lists(entries, w)
  {
    hide Strip;
    StringsNaming(entries, w);
    assert w in Strings(entries) <==> w in multiset(Strings(entries));
    if i :| i in Naming(entries, w) { assert entries[i] in entries; }
    if Lists(entries, w) {
      var x :| x in entries && Strip(x) == w;
      var i: nat :| i < |entries| && entries[i] == x;
      assert i in Naming(entries, w);
    }
  }

  /** Some bundle lists w. */
  ghost predicate Bundled(plan: Plan, w: string) {
    exists i :: 0 <= i < |plan.mergeBundles| && Lists(plan.mergeBundles[i].workflows, w)
  }

  /** Some list of the plan names w. */
  ghost predicate Named(plan: Plan, w: string) {
    Lists(plan.keepPrimary, w) || Bundled(plan, w) || Lists(plan.retireOrAbsorb, w) || Lists(plan.standalone, w)
  }

  lemma GroupsList(plan: Plan, w: string)
    ensures w in Group(plan, Primary) <==> Lists(plan.keepPrimary, w)
    ensures w in Group(plan, MergeBundle) <==> Bundled(plan, w)
    ensures w in Group(plan, RetirementCandidate) <==> Lists(plan.retireOrAbsorb, w)
    ensures w in Group(plan, StandaloneSupporting) <==> Lists(plan.standalone, w)
    ensures w in Assigned(plan) <==> Named(plan, w)
  {
    hide Lists, Strings, Sort, Concat;
    StringsMember(plan.keepPrimary, w);
    StringsMember(plan.retireOrAbsorb, w);
    StringsMember(plan.standalone, w);
    OverlapReport.BundleOrder(plan);
    forall i | 0 <= i < |plan.mergeBundles| { StringsMember(plan.mergeBundles[i].workflows, w); }
  }

  // ---------------------------------------------------------------- classifications

  /** Standalone wins over retirement, retirement over the bundles, and they over the primary list; each flag is set
      for exactly the entries of its own list. */
  lemma ClassificationMeans(plan: Plan, w: string, d: Disposition)
    ensures DispositionOf(plan, w) == Some(StandaloneSupporting) <==> Lists(plan.standalone, w)
    ensures DispositionOf(plan, w) == Some(RetirementCandidate) <==>
            Lists(plan.retireOrAbsorb, w) && !Lists(plan.standalone, w)
    ensures DispositionOf(plan, w) == Some(MergeBundle) <==>
            Bundled(plan, w) && !Lists(plan.retireOrAbsorb, w) && !Lists(plan.standalone, w)
    ensures DispositionOf(plan, w) == Some(Primary) <==>
            Lists(plan.keepPrimary, w) && !Bundled(plan, w) && !Lists(plan.retireOrAbsorb, w)
            && !Lists(plan.standalone, w)
    ensures DispositionOf(plan, w) == None <==> !Named(plan, w)
    ensures var c := Classify(plan, d, w);
            && c.disposition == d && (c.bridge <==> Lists(plan.bridges, w))
            && (c.reusable <==> Lists(plan.reusable, w)) && (c.publisher <==> Lists(plan.publishers, w))
  {
    hide Lists, Bundled, Strings, Group;
    GroupsList(plan, w);
    StringsMember(plan.bridges, w);
    StringsMember(plan.reusable, w);
    StringsMember(plan.publishers, w);
    assert DISPOSITIONS[0] == Primary && DISPOSITIONS[1] == MergeBundle;
    assert DISPOSITIONS[2] == RetirementCandidate && DISPOSITIONS[3] == StandaloneSupporting;
    assert LastGroup(plan, 1, w) == if w in Group(plan, Primary) then Some(Primary) else None;
    assert LastGroup(plan, 2, w) == if w in Group(plan, MergeBundle) then Some(MergeBundle) else LastGroup(plan, 1, w);
    assert LastGroup(plan, 3, w) ==
           if w in Group(plan, RetirementCandidate) then Some(RetirementCandidate) else LastGroup(plan, 2, w);
  }

  // ---------------------------------------------------------------- violations

  /** The topology lists the workflow, by its name or by its path below the workflow root. */
  ghost predicate InInventory(topology: Topology, w: string) {
    exists path :: Lists(topology.inventory, path) && IsPathOf(path, w)
  }

  ghost predicate IsPathOf(path: string, w: string) {
    path == ".github/workflows/" + w || (path == w && !StartsWith(path, ".github/workflows/"))
  }

  lemma WorkflowNameMeans(path: string, w: string)
    ensures WorkflowName(path) == w <==> IsPathOf(path, w)
  {
    var root := WorkflowContracts.WORKFLOW_ROOT;
    if StartsWith(path, root) {
      assert path == root + path[|root|..];
      assert (root + w)[|root|..] == w;
    } else {
      assert StartsWith(root + w, root);
    }
  }

  lemma InventoryMember(topology: Topology, w: string)
    ensures w in PlanInventory(topology) <==> InInventory(topology, w)
  {
    hide Lists, Strings, Sort, WorkflowName, IsPathOf;
    var names := Map(WorkflowName, Strings(topology.inventory));
    SortMultiset(names, TextKey);
    assert w in PlanInventory(topology) <==> w in multiset(PlanInventory(topology));
    assert w in names <==> w in multiset(names);
    MapMember(WorkflowName, Strings(topology.inventory), w);
    forall path
      ensures path in Strings(topology.inventory) <==> Lists(topology.inventory, path)
      ensures WorkflowName(path) == w <==> IsPathOf(path, w)
    {
      StringsMember(topology.inventory, path);
      WorkflowNameMeans(path, w);
    }
  }

  /** names are the listed entries that the inventory does not have. */
  ghost predicate AreUnknown(topology: Topology, entries: seq<string>, names: seq<string>) {
    names != [] && Ascending(names) && forall w :: w in names <==> Lists(entries, w) && !InInventory(topology, w)
  }

  /** How often the four lists name a workflow. */
  ghost function TimesNamed(plan: Plan, w: string): nat {
    |Naming(plan.keepPrimary, w)| + BundleNaming(plan.mergeBundles, w) + |Naming(plan.retireOrAbsorb, w)|
    + |Naming(plan.standalone, w)|
  }

  ghost function BundleNaming(bundles: seq<Bundle>, w: string): nat {
    if bundles == [] then 0
    else BundleNaming(bundles[..|bundles| - 1], w) + |Naming(bundles[|bundles| - 1].workflows, w)|
  }

  /** The finding is true of plan and topology, and every detail in it is what it should be. */
  ghost predicate Means(topology: Topology, plan: Plan, v: Violation) {
    match v
    case PlanIdMismatch => plan.planId != Some("sdetkit.workflow-consolidation.v1")
    case WorkflowCountDrift(declared, actual) =>
      declared == plan.workflowCount != Some(actual) && actual == |NonBlank(topology.inventory)|
    case CoverageMismatch(missing, unknown) =>
      && (missing != [] || unknown != []) && Ascending(missing) && Ascending(unknown)
      && (forall w :: w in missing <==> InInventory(topology, w) && !Named(plan, w))
      && (forall w :: w in unknown <==> Named(plan, w) && !InInventory(topology, w))
    case DispositionOverlap(workflows) =>
      workflows != [] && Ascending(workflows) && forall w :: w in workflows <==> TimesNamed(plan, w) > 1
    case PrimaryAnchorDrift => exists w :: |Naming(plan.keepPrimary, w)| != |Naming(topology.anchors, w)|
    case PrimaryTargetDrift => plan.target != topology.targetPrimary
    case PrimaryBudgetExceeded(count) =>
      count == |NonBlank(plan.keepPrimary)| && (plan.target.None? || count > plan.target.value)
    case UnknownReference(field, names) =>
      || (field == "compatibility_bridges" && AreUnknown(topology, plan.bridges, names))
      || (field == "reusable_workflows" && AreUnknown(topology, plan.reusable, names))
      || (field == "trusted_publishers" && AreUnknown(topology, plan.publishers, names))
    case ZeroSignalIssueNotProhibited => plan.createsZeroSignalIssue != Some(false)
    case ZeroSignalWorkflowMissing => !InInventory(topology, Strip(plan.firstEnforced))
  }

  ghost function NonBlank(entries: seq<string>): set<nat> { set i: nat | i < |entries| && Strip(entries[i]) != "" }

  lemma {:induction false} StringsCount(entries: seq<string>)
    ensures |Strings(entries)| == |NonBlank(entries)|
  {
    hide Strip;
    if entries == [] {
      assert NonBlank(entries) == {};
    } else {
      var front, n := entries[..|entries| - 1], |entries| - 1;
      StringsCount(front);
      assert NonBlank(entries) == NonBlank(front) + if Strip(entries[n]) != "" then {n} else {};
    }
  }

  lemma {:induction false} BundlesNaming(bundles: seq<Bundle>, w: string)
    ensures multiset(Concat(Map(BundleStrings, bundles)))[w] == BundleNaming(bundles, w)
  {
    hide Strings, Naming;
    if bundles != [] {
      var front, last := bundles[..|bundles| - 1], bundles[|bundles| - 1];
      BundlesNaming(front, w);
      StringsNaming(last.workflows, w);
      assert Map(BundleStrings, bundles)[..|bundles| - 1] == Map(BundleStrings, front);
    }
  }

  /** Listing the bundles in another order names every workflow as often. */
  lemma {:induction false} ConcatPermutation(s: seq<Bundle>, t: seq<Bundle>, w: string)
    requires multiset(s) == multiset(t)
    ensures BundleNaming(s, w) == BundleNaming(t, w)
    decreases |s|
  {
    hide Naming, BundleNaming;
    SameLength(s, t);
    if s == [] {
      assert t == s;
    } else {
      var n := |s| - 1;
      assert s[n] in multiset(t);
      var i :| 0 <= i < |t| && t[i] == s[n];
      var rest := t[..i] + t[i + 1..];
      RemoveAt(s, n);
      RemoveAt(t, i);
      assert s[..n] + s[n + 1..] == s[..n];
      ConcatPermutation(s[..n], rest, w);
      NamingRemoved(t, i, w);
      NamingRemoved(s, n, w);
    }
  }

  lemma {:induction false} NamingRemoved(t: seq<Bundle>, i: nat, w: string)
    requires i < |t|
    ensures BundleNaming(t, w) == BundleNaming(t[..i] + t[i + 1..], w) + |Naming(t[i].workflows, w)|
    decreases |t|
  {
    hide Naming;
    var n := |t| - 1;
    if i == n {
      assert t[..i] + t[i + 1..] == t[..n];
    } else {
      var rest := t[..i] + t[i + 1..];
      assert rest[|rest| - 1] == t[n] && rest[..|rest| - 1] == t[..n][..i] + t[..n][i + 1..];
      NamingRemoved(t[..n], i, w);
    }
  }

  lemma AssignedTimes(plan: Plan, w: string)
    ensures multiset(Assigned(plan))[w] == TimesNamed(plan, w)
  {
    hide Strings, Naming, Sort, Concat;
    var sorted := Sort(plan.mergeBundles, BundleKey);
    AssignedCounts(plan, w);
    StringsNaming(plan.keepPrimary, w);
    StringsNaming(plan.retireOrAbsorb, w);
    StringsNaming(plan.standalone, w);
    BundlesNaming(sorted, w);
    SortMultiset(plan.mergeBundles, BundleKey);
    ConcatPermutation(sorted, plan.mergeBundles, w);
  }

  lemma InventoryCount(topology: Topology)
    ensures |PlanInventory(topology)| == |NonBlank(topology.inventory)|
  {
    hide Strings, Sort, WorkflowName, NonBlank;
    StringsCount(topology.inventory);
    SortMultiset(Map(WorkflowName, Strings(topology.inventory)), TextKey);
  }

  lemma InAny<T>(a: seq<T>, b: seq<T>, c: seq<T>, d: seq<T>, e: seq<T>, f: seq<T>, g: seq<T>, h: seq<T>, x: T)
    ensures x in a + b + c + d + e + f + g + h <==>
            x in a || x in b || x in c || x in d || x in e || x in f || x in g || x in h
  {
  }

  lemma ViolationMember(topology: Topology, plan: Plan, v: Violation)
    ensures var listed := PlanInventory(topology);
            var inventory := Elements(listed);
            v in Violations(topology, plan) <==>
            || v in When(plan.planId != Some(PLAN_ID), PlanIdMismatch)
            || v in When(plan.workflowCount != Some(|listed|), WorkflowCountDrift(plan.workflowCount, |listed|))
            || v in CoverageViolations(inventory, Assigned(plan)) || v in PrimaryViolations(topology, plan)
            || v in ReferenceViolations(inventory, "compatibility_bridges", Strings(plan.bridges))
            || v in ReferenceViolations(inventory, "reusable_workflows", Strings(plan.reusable))
            || v in ReferenceViolations(inventory, "trusted_publishers", Strings(plan.publishers))
            || v in PolicyViolations(inventory, plan)
  {
    hide Strings, PlanInventory, Assigned, CoverageViolations, PrimaryViolations, ReferenceViolations, PolicyViolations;
    hide When;
    var listed := PlanInventory(topology);
    var inventory := Elements(listed);
    InAny(
      When(plan.planId != Some(PLAN_ID), PlanIdMismatch),
      When(plan.workflowCount != Some(|listed|), WorkflowCountDrift(plan.workflowCount, |listed|)),
      CoverageViolations(inventory, Assigned(plan)), PrimaryViolations(topology, plan),
      ReferenceViolations(inventory, "compatibility_bridges", Strings(plan.bridges)),
      ReferenceViolations(inventory, "reusable_workflows", Strings(plan.reusable)),
      ReferenceViolations(inventory, "trusted_publishers", Strings(plan.publishers)),
      PolicyViolations(inventory, plan), v);
  }

  /** The ascending list of a set is the only ascending list with its members. */
  lemma SortedSetIs(names: set<string>, listed: seq<string>)
    ensures listed == SortedSet(names) <==> Ascending(listed) && forall w :: w in listed <==> w in names
    ensures SortedSet(names) == [] <==> names == {}
  {
    var sorted := SortedSet(names);
    forall w ensures w in sorted <==> w in names { assert w in sorted <==> w in Elements(sorted); }
    if Ascending(listed) && forall w :: w in listed <==> w in names {
      assert Elements(listed) == names;
      AscendingUnique(listed, sorted);
    }
  }

  lemma MismatchMeans(topology: Topology, plan: Plan, missing: seq<string>, unknown: seq<string>)
    ensures var inventory, named := Elements(PlanInventory(topology)), Elements(Assigned(plan));
            && (inventory - named == {} && named - inventory == {} <==>
                  SortedSet(inventory - named) == [] && SortedSet(named - inventory) == [])
            && (missing == SortedSet(inventory - named) && unknown == SortedSet(named - inventory) <==>
                  && Ascending(missing) && Ascending(unknown)
                  && (forall w :: w in missing <==> InInventory(topology, w) && !Named(plan, w))
                  && (forall w :: w in unknown <==> Named(plan, w) && !InInventory(topology, w)))
  {
    hide PlanInventory, Assigned, InInventory, Named, Ascending, SortedSet;
    var inventory, named := Elements(PlanInventory(topology)), Elements(Assigned(plan));
    forall w ensures w in inventory <==> InInventory(topology, w) ensures w in named <==> Named(plan, w) {
      InventoryMember(topology, w);
      GroupsList(plan, w);
    }
    SortedSetIs(inventory - named, missing);
    SortedSetIs(named - inventory, unknown);
  }

  lemma OverlapMeans(plan: Plan, workflows: seq<string>)
    ensures Duplicates(Assigned(plan)) == {} <==> SortedSet(Duplicates(Assigned(plan))) == []
    ensures workflows == SortedSet(Duplicates(Assigned(plan))) <==>
            Ascending(workflows) && forall w :: w in workflows <==> TimesNamed(plan, w) > 1
  {
    hide Assigned, TimesNamed, Ascending, SortedSet;
    var named := Assigned(plan);
    forall w ensures w in Duplicates(named) <==> TimesNamed(plan, w) > 1 {
      AssignedTimes(plan, w);
      assert w in named <==> w in multiset(named);
    }
    SortedSetIs(Duplicates(named), workflows);
  }

  lemma CoverageMeans(topology: Topology, plan: Plan, v: Violation)
    ensures v in CoverageViolations(Elements(PlanInventory(topology)), Assigned(plan)) <==>
            (v.CoverageMismatch? || v.DispositionOverlap?) && Means(topology, plan, v)
  {
    hide PlanInventory, Assigned, InInventory, Named, TimesNamed, Ascending, SortedSet, Duplicates, Elements;
    MismatchMeans(topology, plan, [], []);
    OverlapMeans(plan, []);
    match v
    case CoverageMismatch(missing, unknown) => MismatchMeans(topology, plan, missing, unknown);
    case DispositionOverlap(workflows) => OverlapMeans(plan, workflows);
    case _ =>
  }

  lemma ReferenceMeans(topology: Topology, field: string, entries: seq<string>, v: Violation)
    ensures v in ReferenceViolations(Elements(PlanInventory(topology)), field, Strings(entries)) <==>
            v.UnknownReference? && v.field == field && AreUnknown(topology, entries, v.invalid)
  {
    hide PlanInventory, InInventory, Lists, Strings, Ascending, SortedSet;
    var inventory, names := Elements(PlanInventory(topology)), Strings(entries);
    forall w
      ensures w in inventory <==> InInventory(topology, w)
      ensures w in names <==> Lists(entries, w)
    {
      InventoryMember(topology, w);
      StringsMember(entries, w);
    }
    var unknown := Elements(names) - inventory;
    if v.UnknownReference? { SortedSetIs(unknown, v.invalid); }
    SortedSetIs(unknown, []);
  }

  lemma PrimaryMeans(topology: Topology, plan: Plan, v: Violation)
    ensures v in PrimaryViolations(topology, plan) <==>
            (v.PrimaryAnchorDrift? || v.PrimaryTargetDrift? || v.PrimaryBudgetExceeded?) && Means(topology, plan, v)
  {
    hide Strings, SortTexts, Naming, NonBlank;
    var names, anchors := Strings(plan.keepPrimary), Strings(topology.anchors);
    SortTextsEqual(names, anchors);
    StringsCount(plan.keepPrimary);
    forall w
      ensures multiset(names)[w] == |Naming(plan.keepPrimary, w)|
      ensures multiset(anchors)[w] == |Naming(topology.anchors, w)|
    {
      StringsNaming(plan.keepPrimary, w);
      StringsNaming(topology.anchors, w);
    }
    if forall w :: multiset(names)[w] == multiset(anchors)[w] { assert multiset(names) == multiset(anchors); }
  }

  /** The report lists exactly the findings that are true of plan and topology, with exactly their details. */
  lemma ViolationMeans(topology: Topology, plan: Plan, v: Violation)
    ensures v in Violations(topology, plan) <==> Means(topology, plan, v)
  {
    hide Strings, PlanInventory, Assigned, CoverageViolations, PrimaryViolations, ReferenceViolations, NonBlank;
    hide InInventory, AreUnknown, TimesNamed, Naming, Named, Strip, Violations, Ascending;
    ViolationMember(topology, plan, v);
    InventoryCount(topology);
    CoverageMeans(topology, plan, v);
    PrimaryMeans(topology, plan, v);
    ReferenceMeans(topology, "compatibility_bridges", plan.bridges, v);
    ReferenceMeans(topology, "reusable_workflows", plan.reusable, v);
    ReferenceMeans(topology, "trusted_publishers", plan.publishers, v);
    InventoryMember(topology, Strip(plan.firstEnforced));
  }

  /** The three plain counts of the report are the numbers of entries that name something. */
  lemma CountsMean(plan: Plan)
    ensures |Group(plan, Primary)| == |NonBlank(plan.keepPrimary)|
    ensures |Group(plan, RetirementCandidate)| == |NonBlank(plan.retireOrAbsorb)|
    ensures |Group(plan, StandaloneSupporting)| == |NonBlank(plan.standalone)|
  {
    hide Strings, NonBlank;
    StringsCount(plan.keepPrimary);
    StringsCount(plan.retireOrAbsorb);
    StringsCount(plan.standalone);
  }
}
