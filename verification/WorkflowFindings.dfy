/** What each finding of the workflow contract evaluation says, on the files and the contract. */
module WorkflowFindings {
  import opened Outcomes
  import opened Ordering
  import opened Text
  import opened WorkflowContracts
  import opened WorkflowRatchet

  ghost predicate IsFile(root: Repository, name: string) { name in root.Keys && IsWorkflowName(name) }

  /** A non-local action line of a workflow file without a full SHA. */
  ghost predicate UnpinnedAt(root: Repository, path: string, spec: string) {
    exists name, i :: IsFile(root, name) && path == PathOf(name) && 0 <= i < |root[name].uses| &&
      root[name].uses[i].spec == spec && !StartsWith(spec, "./") && !root[name].uses[i].fullSha
  }

  /** Both inventories in order, and what each has that the other has not. */
  ghost predicate InventoryMeans(
    root: Repository, listed: seq<string>, expected: seq<string>, actual: seq<string>, added: seq<string>,
    removed: seq<string>)
  {
    && multiset(expected) == multiset(listed) && IsSorted(expected, TextKey)
    && (forall x :: x in actual <==> exists name :: IsFile(root, name) && x == PathOf(name))
    && Ascending(actual) && Ascending(added) && Ascending(removed)
    && (forall x :: x in added <==> x in actual && x !in listed)
    && (forall x :: x in removed <==> x in listed && x !in actual)
  }

  /** The finding is true, and every detail in it is what it should be. */
  ghost predicate Means(
    root: Repository, topology: Topology, required: RequiredChecks, live: Option<seq<string>>, v: Violation)
    requires "ci.yml" in root
  {
    match v
    case TopologySchemaMismatch => topology.schemaVersion != Some("devs69.workflow_topology.v1")
    case RequiredChecksSchemaMismatch => required.schemaVersion != Some("devs69.required_checks.v1")
    case InventoryMismatch(expected, actual, added, removed) =>
      actual != expected && InventoryMeans(root, topology.inventory, expected, actual, added, removed)
    case PrimaryAnchorMissing(anchors) =>
      && anchors != [] && IsSorted(anchors, TextKey)
      && forall x :: multiset(anchors)[x] == if IsFile(root, x) then 0 else multiset(topology.anchors)[x]
    case BudgetMissing(m) => m !in topology.budgets && (m in MAXIMUM_CHECKS || m == Reusable)
    case BudgetRegression(m, limit, measured) =>
      && m in topology.budgets && limit == topology.budgets[m] && measured == Metrics(root)[m]
      && if m == Reusable then measured < limit else m in MAXIMUM_CHECKS && measured > limit
    case UnpinnedActions(actions) =>
      actions != [] && forall path, spec :: (path, spec) in actions <==> UnpinnedAt(root, path, spec)
    case ContextsNotSortedUnique => !Ascending(Strings(required.contexts))
    case ContextDrift(contract, names) =>
      && live.Some? && contract == Strings(required.contexts) && Ascending(names)
      && Elements(names) == Elements(live.value) && contract != names
    case ContractJobMissing => !CiMentions(root["ci.yml"], "name: Workflow contracts")
    case ContractCommandMissing => !CiMentions(root["ci.yml"], "python scripts/check_workflow_contracts.py")
  }

  lemma {:induction false} BudgetMember(
    checks: seq<Metric>, metrics: map<Metric, int>, budgets: map<Metric, int>, v: Violation)
    requires forall m: Metric :: m in metrics
    ensures v in BudgetViolations(checks, metrics, budgets) <==>
            || (v.BudgetMissing? && v.budget in checks && v.budget !in budgets)
            || (v.BudgetRegression? && v.metric in checks && v.metric in budgets && v.limit == budgets[v.metric]
                && v.measured == metrics[v.metric] && v.measured > v.limit)
  {
    if checks != [] {
      var front, last := checks[..|checks| - 1], checks[|checks| - 1];
      BudgetMember(front, metrics, budgets, v);
      assert checks == front + [last];
    }
  }

  lemma InAny<T>(
    a: seq<T>, b: seq<T>, c: seq<T>, d: seq<T>, e: seq<T>, f: seq<T>, g: seq<T>, h: seq<T>, i: seq<T>, j: seq<T>, x: T)
    ensures x in a + b + c + d + e + f + g + h + i + j <==>
            x in a || x in b || x in c || x in d || x in e || x in f || x in g || x in h || x in i || x in j
  {
  }

  lemma ViolationMember(
    root: Repository, topology: Topology, required: RequiredChecks, live: Option<seq<string>>, v: Violation)
    requires "ci.yml" in root
    ensures v in Violations(root, topology, required, live) <==>
            || (v == TopologySchemaMismatch && topology.schemaVersion != Some(TOPOLOGY_SCHEMA))
            || (v == RequiredChecksSchemaMismatch && required.schemaVersion != Some(REQUIRED_CHECKS_SCHEMA))
            || (Inventory(root) != SortTexts(topology.inventory)
                && v == InventoryDifference(SortTexts(topology.inventory), Inventory(root)))
            || (MissingAnchors(root, topology.anchors) != []
                && v == PrimaryAnchorMissing(MissingAnchors(root, topology.anchors)))
            || v in BudgetViolations(MAXIMUM_CHECKS, Metrics(root), topology.budgets)
            || v in ReusableViolations(Metrics(root)[Reusable], topology.budgets)
            || (UnpinnedActionsOf(root) != [] && v == UnpinnedActions(UnpinnedActionsOf(root)))
            || v in ContextViolations(Strings(required.contexts), live)
            || (v == ContractJobMissing && !CiMentions(root["ci.yml"], JOB_TEXT))
            || (v == ContractCommandMissing && !CiMentions(root["ci.yml"], COMMAND_TEXT))
  {
    hide Inventory, Metrics, CiMentions, Strings, SortTexts, MissingAnchors, UnpinnedActionsOf, BudgetViolations;
    hide InventoryDifference, ReusableViolations, ContextViolations;
    var inventory, expected := Inventory(root), SortTexts(topology.inventory);
    var missing, unpinned := MissingAnchors(root, topology.anchors), UnpinnedActionsOf(root);
    InAny(
      When(topology.schemaVersion != Some(TOPOLOGY_SCHEMA), TopologySchemaMismatch),
      When(required.schemaVersion != Some(REQUIRED_CHECKS_SCHEMA), RequiredChecksSchemaMismatch),
      When(inventory != expected, InventoryDifference(expected, inventory)),
      When(missing != [], PrimaryAnchorMissing(missing)),
      BudgetViolations(MAXIMUM_CHECKS, Metrics(root), topology.budgets),
      ReusableViolations(Metrics(root)[Reusable], topology.budgets),
      When(unpinned != [], UnpinnedActions(unpinned)),
      ContextViolations(Strings(required.contexts), live),
      When(!CiMentions(root["ci.yml"], JOB_TEXT), ContractJobMissing),
      When(!CiMentions(root["ci.yml"], COMMAND_TEXT), ContractCommandMissing), v);
  }

  lemma ReusableMember(reusable: int, budgets: map<Metric, int>, v: Violation)
    ensures v in ReusableViolations(reusable, budgets) <==>
            || (v == BudgetMissing(Reusable) && Reusable !in budgets)
            || (Reusable in budgets && v == BudgetRegression(Reusable, budgets[Reusable], reusable)
                && reusable < budgets[Reusable])
  {
  }

  lemma ContextMember(contexts: seq<string>, live: Option<seq<string>>, v: Violation)
    ensures v in ContextViolations(contexts, live) <==>
            || (v == ContextsNotSortedUnique && contexts != SortedSet(Elements(contexts)))
            || (live.Some? && contexts != SortedSet(Elements(live.value))
                && v == ContextDrift(contexts, SortedSet(Elements(live.value))))
  {
  }

  /** Every finding that is reported is true, detail by detail. */
  lemma FindingMeans(
    root: Repository, topology: Topology, required: RequiredChecks, live: Option<seq<string>>, v: Violation)
    requires "ci.yml" in root && v in Violations(root, topology, required, live)
    ensures Means(root, topology, required, live, v)
  {
    hide Inventory, Metrics, CiMentions, Strings, SortTexts, Ascending, MissingAnchors, UnpinnedActionsOf;
    hide BudgetViolations, InventoryMeans, IsSorted, IsFile, UnpinnedAt, Elements, Violations, ContextViolations;
    hide ReusableViolations;
    ViolationMember(root, topology, required, live, v);
    BudgetMember(MAXIMUM_CHECKS, Metrics(root), topology.budgets, v);
    ReusableMember(Metrics(root)[Reusable], topology.budgets, v);
    ContextMember(Strings(required.contexts), live, v);
    InventoryFinding(root, topology.inventory);
    AnchorFinding(root, topology);
    ActionFinding(root);
    ContextFinding(Strings(required.contexts), live);
    AllChecked(Reusable);
  }

  lemma InventoryFinding(root: Repository, listed: seq<string>)
    ensures var expected, actual := SortTexts(listed), Inventory(root);
            InventoryMeans(root, listed, expected, actual, SortedSet(Elements(actual) - Elements(expected)),
                           SortedSet(Elements(expected) - Elements(actual)))
  {
    hide Inventory, Ascending, IsFile, SortTexts, IsSorted, Elements, SortedSet;
    var expected, actual := SortTexts(listed), Inventory(root);
    SortedTexts(listed);
    InventoryFiles(root);
    Difference(actual, expected);
    Difference(expected, actual);
  }

  lemma SortedTexts(listed: seq<string>)
    ensures multiset(SortTexts(listed)) == multiset(listed) && IsSorted(SortTexts(listed), TextKey)
    ensures forall x :: x in SortTexts(listed) <==> x in listed
  {
    hide Sort, IsSorted;
    SortMultiset(listed, TextKey);
    SortSorted(listed, TextKey);
    forall x ensures x in SortTexts(listed) <==> x in listed {
      assert x in listed <==> x in multiset(listed);
      assert x in SortTexts(listed) <==> x in multiset(SortTexts(listed));
    }
  }

  lemma Difference(a: seq<string>, b: seq<string>)
    ensures Ascending(SortedSet(Elements(a) - Elements(b)))
    ensures forall x :: x in SortedSet(Elements(a) - Elements(b)) <==> x in a && x !in b
  {
    hide Ascending, SortedSet;
    var rest := SortedSet(Elements(a) - Elements(b));
    forall x ensures x in rest <==> x in a && x !in b { assert x in rest <==> x in Elements(rest); }
  }

  lemma InventoryFiles(root: Repository)
    ensures Ascending(Inventory(root))
    ensures forall x :: x in Inventory(root) <==> exists name :: IsFile(root, name) && x == PathOf(name)
  {
    hide PathOf, IsWorkflowName, Workflows, Inventory;
    InventoryShape(root);
    ScannedFiles(root);
    forall x | x in Inventory(root) ensures exists name :: IsFile(root, name) && x == PathOf(name) {
      var i :| 0 <= i < |Inventory(root)| && Inventory(root)[i] == x;
      assert WorkflowFiles(root)[i] in WorkflowFiles(root);
    }
  }

  lemma AnchorFinding(root: Repository, topology: Topology)
    ensures var missing := MissingAnchors(root, topology.anchors);
            && IsSorted(missing, TextKey)
            && forall x :: multiset(missing)[x] == if IsFile(root, x) then 0 else multiset(topology.anchors)[x]
  {
    hide PathOf, IsWorkflowName, Inventory, IsSorted;
    var absent := Filter(anchor => PathOf(anchor) !in Inventory(root), topology.anchors);
    SortMultiset(absent, TextKey);
    SortSorted(absent, TextKey);
    InventoryShape(root);
    forall x ensures multiset(absent)[x] == if IsFile(root, x) then 0 else multiset(topology.anchors)[x] {
      FilterMultiset(anchor => PathOf(anchor) !in Inventory(root), topology.anchors, x);
    }
  }

  lemma ActionFinding(root: Repository)
    ensures forall path, spec :: (path, spec) in UnpinnedActionsOf(root) <==> UnpinnedAt(root, path, spec)
  {
    hide UnpinnedActionsOf, UnpinnedAt;
    forall path, spec ensures (path, spec) in UnpinnedActionsOf(root) <==> UnpinnedAt(root, path, spec) {
      ActionListed(root, path, spec);
      ActionFound(root, path, spec);
    }
  }

  lemma ActionListed(root: Repository, path: string, spec: string)
    ensures (path, spec) in UnpinnedActionsOf(root) ==> UnpinnedAt(root, path, spec)
  {
    hide PathOf, IsWorkflowName, Workflows, ScanWorkflow, UnpinnedIn, WorkflowFiles, Inventory;
    if (path, spec) in UnpinnedActionsOf(root) {
      ScannedFiles(root);
      var names, rows := WorkflowFiles(root), Workflows(root);
      ConcatMember(Map(UnpinnedIn, rows), (path, spec));
      var k :| 0 <= k < |rows| && (path, spec) in Map(UnpinnedIn, rows)[k];
      RowActions(names[k], root[names[k]], path, spec);
      assert names[k] in names && IsFile(root, names[k]);
    }
  }

  lemma ActionFound(root: Repository, path: string, spec: string)
    ensures UnpinnedAt(root, path, spec) ==> (path, spec) in UnpinnedActionsOf(root)
  {
    hide PathOf, IsWorkflowName, Workflows, ScanWorkflow, UnpinnedIn, WorkflowFiles, Inventory, StartsWith;
    if name, i :| IsFile(root, name) && path == PathOf(name) && 0 <= i < |root[name].uses| &&
                  root[name].uses[i].spec == spec && !StartsWith(spec, "./") && !root[name].uses[i].fullSha {
      ScannedFiles(root);
      var names, rows := WorkflowFiles(root), Workflows(root);
      assert name in names;
      var k :| 0 <= k < |names| && names[k] == name;
      RowActions(name, root[name], path, spec);
      assert (path, spec) in Map(UnpinnedIn, rows)[k];
      ConcatMember(Map(UnpinnedIn, rows), (path, spec));
    }
  }

  lemma RowActions(name: string, w: Workflow, path: string, spec: string)
    ensures (path, spec) in UnpinnedIn(ScanWorkflow(name, w)) <==>
            path == PathOf(name) && exists i :: 0 <= i < |w.uses| && w.uses[i].spec == spec && !StartsWith(spec, "./")
                                                && !w.uses[i].fullSha
  {
    hide PathOf, JobHeaders, SortedSet, StartsWith;
    var remote := Filter(IsRemote, w.uses);
    var bad := Filter(IsUnpinned, remote);
    var found := UnpinnedIn(ScanWorkflow(name, w));
    if (path, spec) in found {
      var k :| 0 <= k < |found| && found[k] == (path, spec);
      FilterMember(IsUnpinned, remote, bad[k]);
      FilterMember(IsRemote, w.uses, bad[k]);
    }
    if i :| path == PathOf(name) && 0 <= i < |w.uses| && w.uses[i].spec == spec && !StartsWith(spec, "./")
            && !w.uses[i].fullSha {
      FilterMember(IsRemote, w.uses, w.uses[i]);
      FilterMember(IsUnpinned, remote, w.uses[i]);
      var k :| 0 <= k < |bad| && bad[k] == w.uses[i];
      assert found[k] == (path, spec);
    }
  }

  lemma ContextFinding(contexts: seq<string>, live: Option<seq<string>>)
    ensures contexts != SortedSet(Elements(contexts)) <==> !Ascending(contexts)
    ensures live.Some? ==> Ascending(SortedSet(Elements(live.value)))
    ensures live.Some? ==> Elements(SortedSet(Elements(live.value))) == Elements(live.value)
  {
    hide Ascending;
    if Ascending(contexts) { SortedSetFixed(contexts); }
  }

  // ---------------------------------------------------------------- everything wrong is reported

  /** Each thing that is wrong has a finding of its own kind. */
  lemma FindingReported(root: Repository, topology: Topology, required: RequiredChecks, live: Option<seq<string>>)
    requires "ci.yml" in root
    ensures var found := Violations(root, topology, required, live);
            && (topology.schemaVersion != Some("devs69.workflow_topology.v1") ==> TopologySchemaMismatch in found)
            && (required.schemaVersion != Some("devs69.required_checks.v1") ==> RequiredChecksSchemaMismatch in found)
            && (multiset(topology.inventory) != multiset(Inventory(root)) ==>
                  exists v :: v in found && v.InventoryMismatch?)
            && (!AnchorsPresent(root, topology.anchors) ==> exists v :: v in found && v.PrimaryAnchorMissing?)
            && (!AllPinned(root) ==> exists v :: v in found && v.UnpinnedActions?)
            && (!Ascending(Strings(required.contexts)) ==> ContextsNotSortedUnique in found)
            && (live.Some? && Strings(required.contexts) != SortedSet(Elements(live.value)) ==>
                  exists v :: v in found && v.ContextDrift?)
            && (!CiMentions(root["ci.yml"], "name: Workflow contracts") ==> ContractJobMissing in found)
            && (!CiMentions(root["ci.yml"], "python scripts/check_workflow_contracts.py") ==>
                  ContractCommandMissing in found)
  {
    hide Inventory, Metrics, CiMentions, Strings, SortTexts, Ascending, MissingAnchors, UnpinnedActionsOf, AllPinned;
    hide BudgetViolations, AnchorsPresent, Elements, Violations, ContextViolations, InventoryDifference;
    hide ReusableViolations;
    var names := if live.Some? then SortedSet(Elements(live.value)) else [];
    ViolationMember(root, topology, required, live, TopologySchemaMismatch);
    ViolationMember(root, topology, required, live, RequiredChecksSchemaMismatch);
    ViolationMember(root, topology, required, live, DifferenceOf(root, topology));
    ViolationMember(root, topology, required, live, PrimaryAnchorMissing(MissingAnchors(root, topology.anchors)));
    ViolationMember(root, topology, required, live, UnpinnedActions(UnpinnedActionsOf(root)));
    ViolationMember(root, topology, required, live, ContextsNotSortedUnique);
    ViolationMember(root, topology, required, live, ContextDrift(Strings(required.contexts), names));
    ViolationMember(root, topology, required, live, ContractJobMissing);
    ViolationMember(root, topology, required, live, ContractCommandMissing);
    ContextMember(Strings(required.contexts), live, ContextsNotSortedUnique);
    ContextMember(Strings(required.contexts), live, ContextDrift(Strings(required.contexts), names));
    InventoryMatches(root, topology.inventory);
    MissingAnchorsEmpty(root, topology.anchors);
    UnpinnedAgree(root);
    ContextFinding(Strings(required.contexts), live);
  }

  function DifferenceOf(root: Repository, topology: Topology): (v: Violation)
    ensures v.InventoryMismatch?
    ensures v == InventoryDifference(SortTexts(topology.inventory), Inventory(root))
  {
    InventoryDifference(SortTexts(topology.inventory), Inventory(root))
  }

  /** Budgets are compared one by one: a finding for exactly the missing and the exceeded ones. */
  lemma BudgetReportedIff(
    root: Repository, topology: Topology, required: RequiredChecks, live: Option<seq<string>>, m: Metric)
    requires "ci.yml" in root
    ensures var found := Violations(root, topology, required, live);
            && (BudgetMissing(m) in found <==> m !in topology.budgets)
            && (m in topology.budgets ==>
                  (BudgetRegression(m, topology.budgets[m], Metrics(root)[m]) in found <==>
                   if m == Reusable then Metrics(root)[m] < topology.budgets[m]
                   else Metrics(root)[m] > topology.budgets[m]))
  {
    hide Inventory, Metrics, CiMentions, Strings, SortTexts, MissingAnchors, UnpinnedActionsOf, ReusableViolations;
    hide BudgetViolations, ContextViolations, Violations;
    BudgetFinding(root, topology, required, live, BudgetMissing(m));
    if m in topology.budgets {
      BudgetFinding(root, topology, required, live, BudgetRegression(m, topology.budgets[m], Metrics(root)[m]));
    }
    AllChecked(m);
  }

  lemma BudgetFinding(
    root: Repository, topology: Topology, required: RequiredChecks, live: Option<seq<string>>, v: Violation)
    requires "ci.yml" in root && (v.BudgetMissing? || v.BudgetRegression?)
    ensures v in Violations(root, topology, required, live) <==>
            || (v.BudgetMissing? && v.budget !in topology.budgets
                && (v.budget in MAXIMUM_CHECKS || v.budget == Reusable))
            || (v.BudgetRegression? && v.metric in topology.budgets && v.limit == topology.budgets[v.metric]
                && v.measured == Metrics(root)[v.metric]
                && ((v.metric in MAXIMUM_CHECKS && v.measured > v.limit)
                    || (v.metric == Reusable && v.measured < v.limit)))
  {
    hide Inventory, Metrics, CiMentions, Strings, SortTexts, MissingAnchors, UnpinnedActionsOf, ReusableViolations;
    hide BudgetViolations, ContextViolations, Violations;
    ViolationMember(root, topology, required, live, v);
    BudgetMember(MAXIMUM_CHECKS, Metrics(root), topology.budgets, v);
    ReusableMember(Metrics(root)[Reusable], topology.budgets, v);
    ContextMember(Strings(required.contexts), live, v);
    AllChecked(Reusable);
  }

  lemma AllChecked(m: Metric)
    ensures m in MAXIMUM_CHECKS <==> m != Reusable
  {
    assert MAXIMUM_CHECKS[0] == WorkflowCount && MAXIMUM_CHECKS[1] == WritePermission && MAXIMUM_CHECKS[2] == Heavy;
    assert MAXIMUM_CHECKS[3] == Monolithic && MAXIMUM_CHECKS[4] == Unpinned && MAXIMUM_CHECKS[5] == DriftWorkflow;
    assert MAXIMUM_CHECKS[6] == DriftOccurrence;
  }
}
