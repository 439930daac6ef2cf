/** The consolidation plan must partition the workflow inventory into four dispositions. */
module ConsolidationPlan {
  import opened Outcomes
  import opened Ordering
  import opened Text
  import WorkflowContracts
  import WorkflowRatchet

  type Topology = WorkflowContracts.Topology

  datatype Disposition = Primary | MergeBundle | RetirementCandidate | StandaloneSupporting

  /** One entry of the `merge_bundles` object. */
  datatype Bundle = Bundle(name: string, workflows: seq<string>)

  /** Lists hold the raw JSON strings; an integer field that is absent or not an integer is None. */
  datatype Plan = Plan(
    planId: Option<string>, workflowCount: Option<int>, target: Option<int>,
    keepPrimary: seq<string>, mergeBundles: seq<Bundle>, retireOrAbsorb: seq<string>, standalone: seq<string>,
    bridges: seq<string>, reusable: seq<string>, publishers: seq<string>,
    createsZeroSignalIssue: Option<bool>, firstEnforced: string)

  datatype Classification = Classification(disposition: Disposition, bridge: bool, reusable: bool, publisher: bool)

  datatype Violation =
    | PlanIdMismatch
    | WorkflowCountDrift(declared: Option<int>, actual: nat)
    | CoverageMismatch(missing: seq<string>, unknown: seq<string>)
    | DispositionOverlap(workflows: seq<string>)
    | PrimaryAnchorDrift
    | PrimaryTargetDrift
    | PrimaryBudgetExceeded(count: nat)
    | UnknownReference(field: string, invalid: seq<string>)
    | ZeroSignalIssueNotProhibited
    | ZeroSignalWorkflowMissing

  datatype Report = Report(
    counts: map<Disposition, nat>, workflowCount: nat,
    classifications: map<string, Classification>, violations: seq<Violation>)

  const PLAN_ID := "sdetkit.workflow-consolidation.v1"
  const DISPOSITIONS := [Primary, MergeBundle, RetirementCandidate, StandaloneSupporting]

  function WorkflowName(path: string): string {
    if StartsWith(path, WorkflowContracts.WORKFLOW_ROOT) then path[|WorkflowContracts.WORKFLOW_ROOT|..] else path
  }

  function BundleKey(b: Bundle): Key { Key([], [b.name]) }

  function BundleStrings(b: Bundle): seq<string> { Strings(b.workflows) }

  function Group(plan: Plan, d: Disposition): seq<string> {
    match d
    case Primary => Strings(plan.keepPrimary)
    case MergeBundle => Concat(Map(BundleStrings, Sort(plan.mergeBundles, BundleKey)))
    case RetirementCandidate => Strings(plan.retireOrAbsorb)
    case StandaloneSupporting => Strings(plan.standalone)
  }

  function Assigned(plan: Plan): seq<string> {
    Group(plan, Primary) + Group(plan, MergeBundle) + Group(plan, RetirementCandidate)
    + Group(plan, StandaloneSupporting)
  }

  function PlanInventory(topology: Topology): seq<string> {
    SortTexts(Map(WorkflowName, Strings(topology.inventory)))
  }

  function Duplicates(s: seq<string>): set<string> { set x | x in s && multiset(s)[x] > 1 }

  function CoverageViolations(inventory: set<string>, named: seq<string>): seq<Violation> {
    var missing, unknown := inventory - Elements(named), Elements(named) - inventory;
    When(missing != {} || unknown != {}, CoverageMismatch(SortedSet(missing), SortedSet(unknown))) +
    When(Duplicates(named) != {}, DispositionOverlap(SortedSet(Duplicates(named))))
  }

  function PrimaryViolations(topology: Topology, plan: Plan): seq<Violation> {
    When(SortTexts(Group(plan, Primary)) != SortTexts(Strings(topology.anchors)), PrimaryAnchorDrift) +
    When(plan.target != topology.targetPrimary, PrimaryTargetDrift) +
    When(plan.target.None? || |Group(plan, Primary)| > plan.target.value, PrimaryBudgetExceeded(|Group(plan, Primary)|))
  }

  function ReferenceViolations(inventory: set<string>, field: string, names: seq<string>): seq<Violation> {
    When(Elements(names) - inventory != {}, UnknownReference(field, SortedSet(Elements(names) - inventory)))
  }

  function PolicyViolations(inventory: set<string>, plan: Plan): seq<Violation> {
    When(plan.createsZeroSignalIssue != Some(false), ZeroSignalIssueNotProhibited) +
    When(Strip(plan.firstEnforced) !in inventory, ZeroSignalWorkflowMissing)
  }

  function Violations(topology: Topology, plan: Plan): seq<Violation> {
    var listed := PlanInventory(topology);
    var inventory := Elements(listed);
    When(plan.planId != Some(PLAN_ID), PlanIdMismatch) +
    When(plan.workflowCount != Some(|listed|), WorkflowCountDrift(plan.workflowCount, |listed|)) +
    CoverageViolations(inventory, Assigned(plan)) +
    PrimaryViolations(topology, plan) +
    ReferenceViolations(inventory, "compatibility_bridges", Strings(plan.bridges)) +
    ReferenceViolations(inventory, "reusable_workflows", Strings(plan.reusable)) +
    ReferenceViolations(inventory, "trusted_publishers", Strings(plan.publishers)) +
    PolicyViolations(inventory, plan)
  }

  // ---------------------------------------------------------------- classification

  /** The last of the first n dispositions whose list names w: later lists overwrite earlier ones. */
  function LastGroup(plan: Plan, n: nat, w: string): Option<Disposition>
    requires n <= |DISPOSITIONS|
  {
    if n == 0 then None
    else if w in Group(plan, DISPOSITIONS[n - 1]) then Some(DISPOSITIONS[n - 1])
    else LastGroup(plan, n - 1, w)
  }

  function DispositionOf(plan: Plan, w: string): Option<Disposition> { LastGroup(plan, |DISPOSITIONS|, w) }

  function Classify(plan: Plan, d: Disposition, w: string): Classification {
    Classification(d, w in Strings(plan.bridges), w in Strings(plan.reusable), w in Strings(plan.publishers))
  }

  method Classifications(plan: Plan) returns (out: map<string, Classification>)
    ensures forall w :: w in out <==> DispositionOf(plan, w).Some?
    ensures forall w :: w in out ==> out[w] == Classify(plan, DispositionOf(plan, w).value, w)
  {
    out := map[];
    for g := 0 to |DISPOSITIONS|
      invariant forall w :: w in out <==> LastGroup(plan, g, w).Some?
      invariant forall w :: w in out ==> out[w] == Classify(plan, LastGroup(plan, g, w).value, w)
    {
      var d := DISPOSITIONS[g];
      var values := Group(plan, d);
      for i := 0 to |values|
        invariant forall w :: w in out <==> LastGroup(plan, g, w).Some? || w in values[..i]
        invariant forall w :: w in out ==>
          out[w] == Classify(plan, if w in values[..i] then d else LastGroup(plan, g, w).value, w)
      {
        out := out[values[i] := Classify(plan, d, values[i])];
        assert forall w :: w in values[..i + 1] <==> w in values[..i] || w == values[i];
      }
      assert values[..|values|] == values;
    }
  }

  method EvaluatePlan(topology: Topology, plan: Plan) returns (report: Report)
    ensures report.violations == Violations(topology, plan)
    ensures report.workflowCount == |PlanInventory(topology)|
    ensures report.counts == map d: Disposition | true :: |Group(plan, d)|
    ensures forall w :: w in report.classifications <==> DispositionOf(plan, w).Some?
    ensures forall w :: w in report.classifications ==>
              report.classifications[w] == Classify(plan, DispositionOf(plan, w).value, w)
  {
    hide Strings, SortTexts, Group, Assigned, PlanInventory, Duplicates, DispositionOf, Classify;
    var listed := PlanInventory(topology);
    var inventory := Elements(listed);
    var violations := When(plan.planId != Some(PLAN_ID), PlanIdMismatch);
    violations := violations +
      When(plan.workflowCount != Some(|listed|), WorkflowCountDrift(plan.workflowCount, |listed|));
    violations := violations + CoverageViolations(inventory, Assigned(plan));
    violations := violations + PrimaryViolations(topology, plan);
    violations := violations + ReferenceViolations(inventory, "compatibility_bridges", Strings(plan.bridges));
    violations := violations + ReferenceViolations(inventory, "reusable_workflows", Strings(plan.reusable));
    violations := violations + ReferenceViolations(inventory, "trusted_publishers", Strings(plan.publishers));
    violations := violations + PolicyViolations(inventory, plan);
    var classifications := Classifications(plan);
    report := Report(map d: Disposition | true :: |Group(plan, d)|, |listed|, classifications, violations);
  }

  // ---------------------------------------------------------------- what a passed plan means

  ghost predicate Passes(topology: Topology, plan: Plan) { Violations(topology, plan) == [] }

  lemma {:induction false} CountOfTwo(s: seq<string>, i: nat, j: nat)
    requires i < j < |s| && s[i] == s[j]
    ensures multiset(s)[s[i]] > 1
  {
    assert s == s[..j] + [s[j]] + s[j + 1..];
    assert s[i] in s[..j];
  }

  lemma DuplicatesEmpty(s: seq<string>)
    ensures Duplicates(s) == {} <==> Distinct(s)
  {
    if Distinct(s) {
      DistinctCounts(s);
    } else {
      var i, j :| 0 <= i < j < |s| && s[i] == s[j];
      CountOfTwo(s, i, j);
      assert s[i] in Duplicates(s);
    }
  }

  lemma {:induction false} DistinctMultiset(s: seq<string>, t: seq<string>)
    requires Distinct(s) && Distinct(t) && Elements(s) == Elements(t)
    ensures multiset(s) == multiset(t)
  {
    DistinctCounts(s);
    DistinctCounts(t);
    forall x | x in multiset(s) + multiset(t) ensures multiset(s)[x] == multiset(t)[x] {
      assert x in s <==> x in Elements(s);
      assert x in t <==> x in Elements(t);
      assert x in multiset(s) <==> x in s;
      assert x in multiset(t) <==> x in t;
    }
    assert multiset(s) == multiset(t);
  }

  /** The four lists name every workflow of the inventory once and nothing else. */
  ghost predicate CoversOnce(inventory: set<string>, named: seq<string>) {
    Elements(named) == inventory && Distinct(named)
  }

  lemma CoverageEmpty(inventory: set<string>, named: seq<string>)
    ensures CoverageViolations(inventory, named) == [] <==> CoversOnce(inventory, named)
  {
    hide Duplicates, Distinct;
    DuplicatesEmpty(named);
  }

  /** Over an inventory without repetition, the two coverage checks demand a rearrangement of it. */
  lemma CoverageIff(inventory: seq<string>, named: seq<string>)
    requires Distinct(inventory)
    ensures CoverageViolations(Elements(inventory), named) == [] <==> multiset(named) == multiset(inventory)
  {
    hide CoverageViolations;
    CoverageEmpty(Elements(inventory), named);
    if CoversOnce(Elements(inventory), named) { DistinctMultiset(named, inventory); }
    if multiset(named) == multiset(inventory) {
      SameMembers(inventory, named);
      assert Elements(named) == Elements(inventory);
    }
  }

  /** What the plan check asks for: identity and counts, coverage, anchors within the shared target, references and
      policy. */
  ghost predicate MeetsPlan(topology: Topology, plan: Plan) {
    var listed := PlanInventory(topology);
    var inventory := Elements(listed);
    && plan.planId == Some(PLAN_ID) && plan.workflowCount == Some(|listed|)
    && CoversOnce(inventory, Assigned(plan))
    && multiset(Group(plan, Primary)) == multiset(Strings(topology.anchors))
    && plan.target == topology.targetPrimary && plan.target.Some? && |Group(plan, Primary)| <= plan.target.value
    && Elements(Strings(plan.bridges)) <= inventory && Elements(Strings(plan.reusable)) <= inventory
    && Elements(Strings(plan.publishers)) <= inventory
    && plan.createsZeroSignalIssue == Some(false) && Strip(plan.firstEnforced) in inventory
  }

  lemma AllSilent<T>(a: seq<T>, b: seq<T>, c: seq<T>, d: seq<T>, e: seq<T>, f: seq<T>, g: seq<T>, h: seq<T>)
    ensures a + b + c + d + e + f + g + h == [] <==>
            a == [] && b == [] && c == [] && d == [] && e == [] && f == [] && g == [] && h == []
  {
  }

  lemma ReferencesKnown(inventory: set<string>, field: string, names: seq<string>)
    ensures ReferenceViolations(inventory, field, names) == [] <==> Elements(names) <= inventory
  {
    hide Strings;
    if Elements(names) <= inventory { assert Elements(names) - inventory == {}; }
    forall x | x in Elements(names) && x !in inventory ensures x in Elements(names) - inventory { }
  }

  lemma PrimaryHolds(topology: Topology, plan: Plan)
    ensures PrimaryViolations(topology, plan) == [] <==>
            && multiset(Group(plan, Primary)) == multiset(Strings(topology.anchors))
            && plan.target == topology.targetPrimary && plan.target.Some? && |Group(plan, Primary)| <= plan.target.value
  {
    hide SortTexts, Group, Strings;
    SortTextsEqual(Group(plan, Primary), Strings(topology.anchors));
  }

  /** A plan passes exactly when it meets every demand. */
  lemma PlanPassesIff(topology: Topology, plan: Plan)
    ensures Passes(topology, plan) <==> MeetsPlan(topology, plan)
  {
    hide Strings, SortTexts, Group, Assigned, PlanInventory, CoversOnce, CoverageViolations, PrimaryViolations;
    hide ReferenceViolations, Strip;
    var listed := PlanInventory(topology);
    var inventory := Elements(listed);
    AllSilent(
      When(plan.planId != Some(PLAN_ID), PlanIdMismatch),
      When(plan.workflowCount != Some(|listed|), WorkflowCountDrift(plan.workflowCount, |listed|)),
      CoverageViolations(inventory, Assigned(plan)), PrimaryViolations(topology, plan),
      ReferenceViolations(inventory, "compatibility_bridges", Strings(plan.bridges)),
      ReferenceViolations(inventory, "reusable_workflows", Strings(plan.reusable)),
      ReferenceViolations(inventory, "trusted_publishers", Strings(plan.publishers)),
      PolicyViolations(inventory, plan));
    CoverageEmpty(inventory, Assigned(plan));
    PrimaryHolds(topology, plan);
    ReferencesKnown(inventory, "compatibility_bridges", Strings(plan.bridges));
    ReferencesKnown(inventory, "reusable_workflows", Strings(plan.reusable));
    ReferencesKnown(inventory, "trusted_publishers", Strings(plan.publishers));
  }

  /** How often a plan names a workflow in one list. */
  ghost function Occurrences(plan: Plan, d: Disposition, w: string): nat { multiset(Group(plan, d))[w] }

  lemma AssignedCounts(plan: Plan, w: string)
    ensures multiset(Assigned(plan))[w] ==
            Occurrences(plan, Primary, w) + Occurrences(plan, MergeBundle, w) +
            Occurrences(plan, RetirementCandidate, w) + Occurrences(plan, StandaloneSupporting, w)
  {
    hide Group;
  }

  /** w is named once, by the list of d, and by no other list. */
  ghost predicate OnlyIn(plan: Plan, d: Disposition, w: string) {
    Occurrences(plan, d, w) == 1 && forall e: Disposition :: e != d ==> Occurrences(plan, e, w) == 0
  }

  lemma OnlyInDisposition(plan: Plan, d: Disposition, w: string)
    requires OnlyIn(plan, d, w)
    ensures DispositionOf(plan, w) == Some(d)
  {
    hide Group;
    forall e: Disposition ensures w in Group(plan, e) <==> e == d {
      assert w in Group(plan, e) <==> w in multiset(Group(plan, e));
      assert Occurrences(plan, e, w) == multiset(Group(plan, e))[w];
    }
    assert LastGroup(plan, 1, w) == if d == Primary then Some(Primary) else None;
    assert LastGroup(plan, 2, w) == if d == Primary || d == MergeBundle then Some(d) else None;
    assert LastGroup(plan, 3, w) == if d != StandaloneSupporting then Some(d) else None;
  }

  lemma ExactlyOne(plan: Plan, w: string)
    requires multiset(Assigned(plan))[w] == 1
    ensures exists d :: OnlyIn(plan, d, w) && DispositionOf(plan, w) == Some(d)
  {
    hide Group, Assigned, DispositionOf;
    AssignedCounts(plan, w);
    var d :| Occurrences(plan, d, w) == 1;
    assert OnlyIn(plan, d, w);
    OnlyInDisposition(plan, d, w);
  }

  // ---------------------------------------------------------------- plans over scanned repositories

  lemma ScannedName(name: string)
    requires WorkflowContracts.IsWorkflowName(name)
    ensures var path := WorkflowContracts.PathOf(name);
            path != [] && Trimmed(path) && WorkflowName(path) == name
  {
    var path := WorkflowContracts.PathOf(name);
    assert path[|path| - 1] == name[|name| - 1] == 'l' by {
      if EndsWith(name, ".yml") { assert name[|name| - 4..][3] == 'l'; } else { assert name[|name| - 5..][4] == 'l'; }
    }
    assert path[0] == '.';
    assert path[..|WorkflowContracts.WORKFLOW_ROOT|] == WorkflowContracts.WORKFLOW_ROOT;
  }

  lemma ScannedClean(root: WorkflowContracts.Repository)
    ensures Strings(WorkflowContracts.Inventory(root)) == WorkflowContracts.Inventory(root)
    ensures Map(WorkflowName, WorkflowContracts.Inventory(root)) == WorkflowContracts.WorkflowFiles(root)
  {
    hide Strings, Trimmed, WorkflowContracts.IsWorkflowName, WorkflowName, WorkflowContracts.PathOf;
    hide WorkflowContracts.Inventory, WorkflowContracts.Workflows, WorkflowContracts.ScanWorkflow;
    var names, inventory := WorkflowContracts.WorkflowFiles(root), WorkflowContracts.Inventory(root);
    WorkflowRatchet.ScannedFiles(root);
    forall i | 0 <= i < |names|
      ensures inventory[i] != [] && Trimmed(inventory[i]) && WorkflowName(inventory[i]) == names[i]
    {
      ScannedName(names[i]);
    }
    StringsFixed(inventory);
  }

  /** The plan sees a scanned repository as its sorted workflow names. */
  lemma ScannedInventory(root: WorkflowContracts.Repository, anchors: seq<string>)
    ensures PlanInventory(WorkflowContracts.BuildTopologyContract(root, anchors)) ==
            WorkflowContracts.WorkflowFiles(root)
  {
    hide Strings, WorkflowName, SortTexts, WorkflowContracts.Inventory;
    ScannedClean(root);
    SortTextsOfAscending(WorkflowContracts.WorkflowFiles(root));
  }

  /**
   A passed plan partitions the workflows of a scanned repository: every workflow is named once, in
   exactly one list, nothing else is named, and the four counts add up to the workflow count.
   */
  lemma PassedPlanPartitions(root: WorkflowContracts.Repository, anchors: seq<string>, plan: Plan)
    requires Passes(WorkflowContracts.BuildTopologyContract(root, anchors), plan)
    ensures multiset(Assigned(plan)) == multiset(WorkflowContracts.WorkflowFiles(root))
    ensures |Group(plan, Primary)| + |Group(plan, MergeBundle)| + |Group(plan, RetirementCandidate)|
            + |Group(plan, StandaloneSupporting)| == WorkflowContracts.Metrics(root)[WorkflowContracts.WorkflowCount]
    ensures plan.workflowCount == Some(WorkflowContracts.Metrics(root)[WorkflowContracts.WorkflowCount])
    ensures forall name :: name in root.Keys && WorkflowContracts.IsWorkflowName(name) ==>
              exists d :: OnlyIn(plan, d, name) && DispositionOf(plan, name) == Some(d)
    ensures multiset(Group(plan, Primary)) == multiset(Strings(anchors))
  {
    hide Group, DispositionOf, OnlyIn, PlanInventory, Strings, Assigned, Passes, WorkflowContracts.Metrics;
    hide WorkflowContracts.BuildTopologyContract, WorkflowContracts.IsWorkflowName, WorkflowContracts.WorkflowFiles;
    var names := WorkflowContracts.WorkflowFiles(root);
    PassedScan(root, anchors, plan);
    AssignedLength(plan);
    assert |Assigned(plan)| == |multiset(Assigned(plan))| == |multiset(names)| == |names|;
    WorkflowRatchet.ScannedFiles(root);
    ScannedCount(root);
    DistinctCounts(names);
    forall name | name in root.Keys && WorkflowContracts.IsWorkflowName(name)
      ensures exists d :: OnlyIn(plan, d, name) && DispositionOf(plan, name) == Some(d)
    {
      assert name in names;
      ExactlyOne(plan, name);
    }
  }

  lemma AssignedLength(plan: Plan)
    ensures |Assigned(plan)| == |Group(plan, Primary)| + |Group(plan, MergeBundle)| + |Group(plan, RetirementCandidate)|
            + |Group(plan, StandaloneSupporting)|
  {
    hide Group;
  }

  lemma ScannedCount(root: WorkflowContracts.Repository)
    ensures WorkflowContracts.Metrics(root)[WorkflowContracts.WorkflowCount] == |WorkflowContracts.WorkflowFiles(root)|
  {
    hide WorkflowContracts.Workflows;
    WorkflowRatchet.ScannedFiles(root);
  }

  lemma PassedScan(root: WorkflowContracts.Repository, anchors: seq<string>, plan: Plan)
    requires Passes(WorkflowContracts.BuildTopologyContract(root, anchors), plan)
    ensures Distinct(WorkflowContracts.WorkflowFiles(root))
    ensures multiset(Assigned(plan)) == multiset(WorkflowContracts.WorkflowFiles(root))
    ensures plan.workflowCount == Some(|WorkflowContracts.WorkflowFiles(root)|)
    ensures multiset(Group(plan, Primary)) == multiset(Strings(anchors))
  {
    hide Group, PlanInventory, CoverageViolations, Passes, Strings, Strip, Assigned;
    hide WorkflowContracts.Metrics, WorkflowContracts.Inventory;
    var names := WorkflowContracts.WorkflowFiles(root);
    PlanPassesIff(WorkflowContracts.BuildTopologyContract(root, anchors), plan);
    ScannedInventory(root, anchors);
    AscendingDistinct(names);
    CoverageEmpty(Elements(names), Assigned(plan));
    CoverageIff(names, Assigned(plan));
  }
}
