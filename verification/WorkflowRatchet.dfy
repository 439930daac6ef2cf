/** What passed evaluations guarantee, for one contract and along a chain of re-baselined contracts. */
module WorkflowRatchet {
  import opened Outcomes
  import opened Ordering
  import opened Text
  import opened WorkflowContracts

  // ---------------------------------------------------------------- the inventory

  lemma {:induction false} PrefixOrder(p: string, a: string, b: string)
    ensures StrLeq(p + a, p + b) <==> StrLeq(a, b)
    ensures p + a == p + b <==> a == b
  {
    if p == [] {
      assert p + a == a && p + b == b;
    } else {
      PrefixOrder(p[1..], a, b);
      assert (p + a)[1..] == p[1..] + a && (p + b)[1..] == p[1..] + b;
      assert a == (p + a)[|p|..] && b == (p + b)[|p|..];
    }
  }

  lemma PathOrder(a: string, b: string)
    ensures StrLeq(PathOf(a), PathOf(b)) <==> StrLeq(a, b)
    ensures PathOf(a) == PathOf(b) <==> a == b
  {
    PrefixOrder(WORKFLOW_ROOT, a, b);
  }

  /** The scanned files are the workflow files of the directory, in name order. */
  lemma ScannedFiles(root: Repository)
    ensures forall name :: name in WorkflowFiles(root) <==> name in root.Keys && IsWorkflowName(name)
    ensures |Workflows(root)| == |Inventory(root)| == |WorkflowFiles(root)|
    ensures forall i :: 0 <= i < |WorkflowFiles(root)| ==>
              && WorkflowFiles(root)[i] in root
              && IsWorkflowName(WorkflowFiles(root)[i])
              && Workflows(root)[i] == ScanWorkflow(WorkflowFiles(root)[i], root[WorkflowFiles(root)[i]])
              && Inventory(root)[i] == PathOf(WorkflowFiles(root)[i])
  {
    hide PathOf, IsWorkflowName;
    var names := WorkflowFiles(root);
    assert forall name :: name in names <==> name in Elements(names);
  }

  lemma InventoryShape(root: Repository)
    ensures Ascending(Inventory(root))
    ensures forall name :: PathOf(name) in Inventory(root) <==> name in root.Keys && IsWorkflowName(name)
  {
    hide PathOf, StrLeq, IsWorkflowName, Workflows, Inventory, ScanWorkflow;
    var names, inventory := WorkflowFiles(root), Inventory(root);
    ScannedFiles(root);
    forall i, j | 0 <= i < j < |inventory|
      ensures StrLeq(inventory[i], inventory[j]) && inventory[i] != inventory[j]
    {
      PathOrder(names[i], names[j]);
    }
    forall name ensures PathOf(name) in inventory <==> name in names {
      if PathOf(name) in inventory {
        var i :| 0 <= i < |inventory| && inventory[i] == PathOf(name);
        PathOrder(names[i], name);
      }
      if name in names {
        var i :| 0 <= i < |names| && names[i] == name;
        assert inventory[i] == PathOf(name);
      }
    }
  }

  lemma InventoryMatches(root: Repository, listed: seq<string>)
    ensures Inventory(root) == SortTexts(listed) <==> multiset(listed) == multiset(Inventory(root))
  {
    InventoryShape(root);
    SortTextsOfAscending(Inventory(root));
    SortTextsEqual(Inventory(root), listed);
  }

  lemma MissingAnchorsEmpty(root: Repository, anchors: seq<string>)
    ensures MissingAnchors(root, anchors) == [] <==> AnchorsPresent(root, anchors)
  {
    InventoryShape(root);
    var missing := (anchor: string) => PathOf(anchor) !in Inventory(root);
    SortMultiset(Filter(missing, anchors), TextKey);
    assert MissingAnchors(root, anchors) == [] <==> Filter(missing, anchors) == [];
    if Filter(missing, anchors) == [] {
      forall anchor | anchor in anchors ensures anchor in root.Keys && IsWorkflowName(anchor) {
        FilterMember(missing, anchors, anchor);
      }
    } else {
      var anchor := Filter(missing, anchors)[0];
      FilterMember(missing, anchors, anchor);
    }
  }

  // ---------------------------------------------------------------- pinned actions

  lemma {:induction false} SumZero(s: seq<int>)
    requires forall i :: 0 <= i < |s| ==> s[i] >= 0
    ensures Sum(s) >= 0
    ensures Sum(s) == 0 <==> forall i :: 0 <= i < |s| ==> s[i] == 0
  {
    if s != [] {
      SumZero(s[..|s| - 1]);
      assert forall i :: 0 <= i < |s| - 1 ==> s[..|s| - 1][i] == s[i];
    }
  }

  lemma {:induction false} ConcatEmpty<T>(s: seq<seq<T>>)
    ensures Concat(s) == [] <==> forall i :: 0 <= i < |s| ==> s[i] == []
  {
    if s != [] {
      ConcatEmpty(s[..|s| - 1]);
      assert forall i :: 0 <= i < |s| - 1 ==> s[..|s| - 1][i] == s[i];
    }
  }

  predicate RowPinned(row: Row) {
    forall i :: 0 <= i < |row.actions| ==> row.actions[i].fullSha
  }

  lemma RowUnpinned(row: Row)
    ensures Filter(IsUnpinned, row.actions) == [] <==> RowPinned(row)
  {
    if Filter(IsUnpinned, row.actions) == [] {
      forall i | 0 <= i < |row.actions| ensures row.actions[i].fullSha {
        FilterMember(IsUnpinned, row.actions, row.actions[i]);
      }
    } else {
      FilterMember(IsUnpinned, row.actions, Filter(IsUnpinned, row.actions)[0]);
    }
  }

  lemma ScanPinned(name: string, w: Workflow)
    ensures RowPinned(ScanWorkflow(name, w)) <==> PinnedWorkflow(w)
  {
    var actions := Filter(IsRemote, w.uses);
    if RowPinned(ScanWorkflow(name, w)) {
      forall i | 0 <= i < |w.uses| && IsRemote(w.uses[i]) ensures w.uses[i].fullSha {
        FilterMember(IsRemote, w.uses, w.uses[i]);
      }
    } else {
      var i :| 0 <= i < |actions| && !actions[i].fullSha;
      FilterMember(IsRemote, w.uses, actions[i]);
    }
  }

  lemma RowsPinned(root: Repository)
    ensures (forall i :: 0 <= i < |Workflows(root)| ==> RowPinned(Workflows(root)[i])) <==> AllPinned(root)
  {
    hide RowPinned, PinnedWorkflow, IsWorkflowName, ScanWorkflow, Workflows;
    var names, rows := WorkflowFiles(root), Workflows(root);
    ScannedFiles(root);
    forall i | 0 <= i < |names| ensures RowPinned(rows[i]) <==> PinnedWorkflow(root[names[i]]) {
      ScanPinned(names[i], root[names[i]]);
    }
  }

  /** The unpinned budget and the unpinned list are two views of one fact. */
  lemma UnpinnedAgree(root: Repository)
    ensures Metrics(root)[Unpinned] == 0 <==> AllPinned(root)
    ensures UnpinnedActionsOf(root) == [] <==> AllPinned(root)
    ensures Metrics(root)[Unpinned] >= 0
  {
    hide Workflows, RowPinned, AllPinned;
    RowsPinned(root);
    ScannedRows(root);
    UnpinnedRows(Workflows(root));
  }

  lemma ScannedRows(root: Repository)
    ensures forall i :: 0 <= i < |Workflows(root)| ==>
              Workflows(root)[i].unpinned == |Filter(IsUnpinned, Workflows(root)[i].actions)|
  {
    hide Workflows;
    ScannedFiles(root);
  }

  lemma UnpinnedRows(rows: seq<Row>)
    requires forall i :: 0 <= i < |rows| ==> rows[i].unpinned == |Filter(IsUnpinned, rows[i].actions)|
    ensures Measure(rows, Unpinned) >= 0
    ensures Measure(rows, Unpinned) == 0 <==> forall i :: 0 <= i < |rows| ==> RowPinned(rows[i])
    ensures Concat(Map(UnpinnedIn, rows)) == [] <==> forall i :: 0 <= i < |rows| ==> RowPinned(rows[i])
  {
    hide RowPinned, Filter;
    forall i | 0 <= i < |rows|
      ensures UnpinnedOf(rows[i]) >= 0
      ensures UnpinnedOf(rows[i]) == 0 <==> RowPinned(rows[i])
      ensures UnpinnedIn(rows[i]) == [] <==> RowPinned(rows[i])
    {
      RowUnpinned(rows[i]);
    }
    SumZero(Map(UnpinnedOf, rows));
    ConcatEmpty(Map(UnpinnedIn, rows));
  }

  // ---------------------------------------------------------------- one evaluation

  lemma {:induction false} BudgetsHold(checks: seq<Metric>, metrics: map<Metric, int>, budgets: map<Metric, int>)
    requires forall m: Metric :: m in metrics
    ensures BudgetViolations(checks, metrics, budgets) == [] <==>
            forall m :: m in checks ==> m in budgets && metrics[m] <= budgets[m]
  {
    if checks != [] {
      var front, last := checks[..|checks| - 1], checks[|checks| - 1];
      BudgetsHold(front, metrics, budgets);
      assert checks == front + [last];
      assert forall m :: m in checks <==> m in front || m == last;
    }
  }

  lemma ContextsHold(contexts: seq<string>, live: Option<seq<string>>)
    ensures ContextViolations(contexts, live) == [] <==>
            Ascending(contexts) && (live.Some? ==> Elements(live.value) == Elements(contexts))
  {
    SortedSetFixed(contexts);
    if live.Some? && Ascending(contexts) && contexts == SortedSet(Elements(live.value)) {
      assert Elements(contexts) == Elements(live.value);
    }
  }

  lemma AllEmpty<T>(
    a: seq<T>, b: seq<T>, c: seq<T>, d: seq<T>, e: seq<T>, f: seq<T>, g: seq<T>, h: seq<T>, i: seq<T>, j: seq<T>)
    ensures a + b + c + d + e + f + g + h + i + j == [] <==>
            && a == [] && b == [] && c == [] && d == [] && e == []
            && f == [] && g == [] && h == [] && i == [] && j == []
  {
    assert |a + b + c + d + e + f + g + h + i + j| ==
           |a| + |b| + |c| + |d| + |e| + |f| + |g| + |h| + |i| + |j|;
  }

  lemma ViolationsEmpty(root: Repository, topology: Topology, required: RequiredChecks, live: Option<seq<string>>)
    requires "ci.yml" in root
    ensures Violations(root, topology, required, live) == [] <==>
            && topology.schemaVersion == Some(TOPOLOGY_SCHEMA)
            && required.schemaVersion == Some(REQUIRED_CHECKS_SCHEMA)
            && Inventory(root) == SortTexts(topology.inventory)
            && MissingAnchors(root, topology.anchors) == []
            && BudgetViolations(MAXIMUM_CHECKS, Metrics(root), topology.budgets) == []
            && ReusableViolations(Metrics(root)[Reusable], topology.budgets) == []
            && UnpinnedActionsOf(root) == []
            && ContextViolations(Strings(required.contexts), live) == []
            && CiMentions(root["ci.yml"], JOB_TEXT) && CiMentions(root["ci.yml"], COMMAND_TEXT)
  {
    var inventory, expected := Inventory(root), SortTexts(topology.inventory);
    var missing, unpinned := MissingAnchors(root, topology.anchors), UnpinnedActionsOf(root);
    AllEmpty(
      When(topology.schemaVersion != Some(TOPOLOGY_SCHEMA), TopologySchemaMismatch),
      When(required.schemaVersion != Some(REQUIRED_CHECKS_SCHEMA), RequiredChecksSchemaMismatch),
      When(inventory != expected, InventoryDifference(expected, inventory)),
      When(missing != [], PrimaryAnchorMissing(missing)),
      BudgetViolations(MAXIMUM_CHECKS, Metrics(root), topology.budgets),
      ReusableViolations(Metrics(root)[Reusable], topology.budgets),
      When(unpinned != [], UnpinnedActions(unpinned)),
      ContextViolations(Strings(required.contexts), live),
      When(!CiMentions(root["ci.yml"], JOB_TEXT), ContractJobMissing),
      When(!CiMentions(root["ci.yml"], COMMAND_TEXT), ContractCommandMissing));
  }

  /** An evaluation reports no violation exactly when the repository meets both halves of the contract. */
  lemma PassesIff(root: Repository, topology: Topology, required: RequiredChecks, live: Option<seq<string>>)
    requires "ci.yml" in root
    ensures Violations(root, topology, required, live) == [] <==>
            MeetsTopology(root, topology) && MeetsChecks(root, required, live)
  {
    hide Violations, Inventory, Metrics, MissingAnchors, BudgetViolations, UnpinnedActionsOf, ContextViolations;
    hide AllPinned, AnchorsPresent, CiMentions, SortTexts, Strings, Ascending;
    ViolationsEmpty(root, topology, required, live);
    InventoryMatches(root, topology.inventory);
    MissingAnchorsEmpty(root, topology.anchors);
    UnpinnedAgree(root);
    BudgetsHold(MAXIMUM_CHECKS, Metrics(root), topology.budgets);
    ContextsHold(Strings(required.contexts), live);
  }

  lemma OwnBudgets(root: Repository, later: Repository, anchors: seq<string>)
    ensures WithinBudgets(later, BuildTopologyContract(root, anchors).budgets) <==>
            && (forall m :: m in MAXIMUM_CHECKS && m != Unpinned ==> Metrics(later)[m] <= Metrics(root)[m])
            && Metrics(later)[Unpinned] <= 0
            && Metrics(root)[Reusable] <= Metrics(later)[Reusable]
  {
    hide Measure, Inventory, Workflows;
    assert Unpinned in MAXIMUM_CHECKS by { assert MAXIMUM_CHECKS[4] == Unpinned; }
  }

  /** Freezing a repository and checking it at once passes exactly when nothing is unpinned and no anchor is missing. */
  lemma OwnContract(root: Repository, anchors: seq<string>, required: RequiredChecks, live: Option<seq<string>>)
    requires "ci.yml" in root
    ensures Passes(root, BuildTopologyContract(root, anchors), required, live) <==>
            AllPinned(root) && AnchorsPresent(root, anchors) && MeetsChecks(root, required, live)
  {
    PassesIff(root, BuildTopologyContract(root, anchors), required, live);
    UnpinnedAgree(root);
    OwnBudgets(root, root, anchors);
  }

  // ---------------------------------------------------------------- chains of contracts

  /** Every repository of the chain passes the contract frozen from its predecessor, each with anchors of its own. */
  ghost predicate Ratcheted(
    chain: seq<Repository>, anchors: seq<seq<string>>, required: seq<RequiredChecks>, live: seq<Option<seq<string>>>)
  {
    && |anchors| == |required| == |live| == |chain|
    && forall i :: 0 < i < |chain| ==>
         Passes(chain[i], BuildTopologyContract(chain[i - 1], anchors[i - 1]), required[i], live[i])
  }

  /** `later` may follow `earlier`: same inventory, no budget loosened. */
  ghost predicate NoLooser(earlier: Repository, later: Repository) {
    && Inventory(later) == Inventory(earlier)
    && (forall m :: m in MAXIMUM_CHECKS && m != Unpinned ==> Metrics(later)[m] <= Metrics(earlier)[m])
    && Metrics(earlier)[Reusable] <= Metrics(later)[Reusable]
  }

  lemma StepNoLooser(
    earlier: Repository, later: Repository, anchors: seq<string>, required: RequiredChecks, live: Option<seq<string>>)
    requires Passes(later, BuildTopologyContract(earlier, anchors), required, live)
    ensures NoLooser(earlier, later)
  {
    PassesIff(later, BuildTopologyContract(earlier, anchors), required, live);
    OwnBudgets(earlier, later, anchors);
    InventoryMatches(later, Inventory(earlier));
    InventoryShape(earlier);
    SortTextsOfAscending(Inventory(earlier));
  }

  lemma NoLooserTransitive(a: Repository, b: Repository, c: Repository)
    requires NoLooser(a, b) && NoLooser(b, c)
    ensures NoLooser(a, c)
  {
    forall m | m in MAXIMUM_CHECKS && m != Unpinned ensures Metrics(c)[m] <= Metrics(a)[m] {
      assert Metrics(c)[m] <= Metrics(b)[m];
    }
  }

  lemma {:induction false} ChainNoLooser(
    chain: seq<Repository>, anchors: seq<seq<string>>, required: seq<RequiredChecks>, live: seq<Option<seq<string>>>,
    i: nat, j: nat)
    requires Ratcheted(chain, anchors, required, live)
    requires i <= j < |chain|
    ensures NoLooser(chain[i], chain[j])
    decreases j
  {
    hide Violations, Inventory, Metrics;
    if i < j {
      ChainNoLooser(chain, anchors, required, live, i, j - 1);
      StepNoLooser(chain[j - 1], chain[j], anchors[j - 1], required[j], live[j]);
      NoLooserTransitive(chain[i], chain[j - 1], chain[j]);
    }
  }

  /** Equal inventories have the same anchors. */
  lemma SameAnchors(a: Repository, b: Repository, anchors: seq<string>)
    requires Inventory(a) == Inventory(b)
    ensures AnchorsPresent(a, anchors) <==> AnchorsPresent(b, anchors)
  {
    hide Inventory, IsWorkflowName, PathOf;
    InventoryShape(a);
    InventoryShape(b);
    forall anchor | anchor in anchors
      ensures anchor in a.Keys && IsWorkflowName(anchor) <==> anchor in b.Keys && IsWorkflowName(anchor)
    {
      assert PathOf(anchor) in Inventory(a) <==> PathOf(anchor) in Inventory(b);
    }
  }

  /**
   Safety of the ratchet: along any chain of re-baselined contracts nothing ever loosens, and every repository
   still passes every earlier contract of the chain, with that contract's own anchors.
   */
  lemma Ratchet(
    chain: seq<Repository>, anchors: seq<seq<string>>, required: seq<RequiredChecks>, live: seq<Option<seq<string>>>,
    i: nat, j: nat)
    requires Ratcheted(chain, anchors, required, live)
    requires i < j < |chain|
    ensures NoLooser(chain[i], chain[j])
    ensures Passes(chain[j], BuildTopologyContract(chain[i], anchors[i]), required[j], live[j])
  {
    hide Violations, Inventory, Metrics, AnchorsPresent, AllPinned, MeetsChecks;
    ChainNoLooser(chain, anchors, required, live, i, j);
    ChainNoLooser(chain, anchors, required, live, i + 1, j);
    var last, first := chain[j], BuildTopologyContract(chain[i], anchors[i]);
    PassesIff(chain[i + 1], first, required[i + 1], live[i + 1]);
    SameAnchors(chain[i + 1], last, anchors[i]);
    PassesIff(last, BuildTopologyContract(chain[j - 1], anchors[j - 1]), required[j], live[j]);
    PassesIff(last, first, required[j], live[j]);
    UnpinnedAgree(last);
    OwnBudgets(chain[i], last, anchors[i]);
  }

  // ---------------------------------------------------------------- required contexts

  lemma BuiltContexts(contexts: seq<string>)
    ensures Strings(BuildRequiredChecksContract(contexts).contexts) == SortedSet(Elements(Strings(contexts)))
  {
    var clean, sorted := Strings(contexts), SortedSet(Elements(Strings(contexts)));
    StringsClean(contexts);
    forall i | 0 <= i < |sorted| ensures sorted[i] != [] && Trimmed(sorted[i]) {
      assert sorted[i] in Elements(sorted);
      var j :| 0 <= j < |clean| && clean[j] == sorted[i];
    }
    StringsFixed(sorted);
  }

  /** The context names a live payload lists; an object without contexts lists none. */
  function ListedItems(payload: LivePayload): seq<string> {
    match payload
    case Listing(items) => items
    case WithContexts(items) => items
    case WithoutContexts => []
    case Unusable => []
  }

  /** Live payloads are read exactly when they are usable, and a contract frozen from one list then accepts the listing
      exactly when both name the same contexts. */
  lemma ContextRoundTrip(contexts: seq<string>, payload: LivePayload)
    ensures NormalizeLiveContexts(payload).Returned? <==> !payload.Unusable?
    ensures !payload.Unusable? ==>
              (ContextViolations(Strings(BuildRequiredChecksContract(contexts).contexts),
                                 Some(NormalizeLiveContexts(payload).value)) == [] <==>
               Elements(Strings(contexts)) == Elements(Strings(ListedItems(payload))))
  {
    if !payload.Unusable? {
      BuiltContexts(contexts);
      ContextsHold(SortedSet(Elements(Strings(contexts))), Some(NormalizeLiveContexts(payload).value));
    }
  }

  // ---------------------------------------------------------------- metrics of any repository

  lemma {:induction false} FilterSubset<T>(p: T -> bool, q: T -> bool, s: seq<T>)
    requires forall i :: 0 <= i < |s| && p(s[i]) ==> q(s[i])
    ensures |Filter(p, s)| <= |Filter(q, s)| <= |s|
  {
    if s != [] { FilterSubset(p, q, s[..|s| - 1]); }
  }

  lemma {:induction false} DriftBound(rows: seq<Row>)
    ensures |Filter(HasDrift, rows)| <= Sum(Map(DebtOf, rows))
  {
    if rows != [] {
      DriftBound(rows[..|rows| - 1]);
      assert Map(DebtOf, rows)[..|rows| - 1] == Map(DebtOf, rows[..|rows| - 1]);
    }
  }

  lemma MonolithicIsHeavy(root: Repository, i: nat)
    requires i < |Workflows(root)| && IsMonolithic(Workflows(root)[i])
    ensures IsHeavy(Workflows(root)[i])
  {
    hide Workflows;
    ScannedFiles(root);
  }

  lemma MeasureBounds(rows: seq<Row>)
    requires forall i :: 0 <= i < |rows| && IsMonolithic(rows[i]) ==> IsHeavy(rows[i])
    ensures Measure(rows, Monolithic) <= Measure(rows, Heavy) <= Measure(rows, WorkflowCount) == |rows|
    ensures Measure(rows, DriftWorkflow) <= Measure(rows, DriftOccurrence)
  {
    FilterSubset(IsMonolithic, IsHeavy, rows);
    DriftBound(rows);
  }

  lemma MetricBounds(root: Repository)
    ensures Metrics(root)[Monolithic] <= Metrics(root)[Heavy] <= Metrics(root)[WorkflowCount] == |Inventory(root)|
    ensures Metrics(root)[DriftWorkflow] <= Metrics(root)[DriftOccurrence]
  {
    hide Measure, IsHeavy, IsMonolithic;
    forall i | 0 <= i < |Workflows(root)| && IsMonolithic(Workflows(root)[i]) ensures IsHeavy(Workflows(root)[i]) {
      MonolithicIsHeavy(root, i);
    }
    MeasureBounds(Workflows(root));
  }
}
