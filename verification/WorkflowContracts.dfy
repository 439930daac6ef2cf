/**
 The workflow topology ratchet: a repository is scanned, its metrics are frozen into a budget
 contract, and later repositories are evaluated against that contract.
 */
module WorkflowContracts {
  import opened Outcomes
  import opened Ordering
  import opened Text

  /** One `uses:` line; the two flags are the verdicts of the pinning and version patterns. */
  datatype Action = Action(spec: string, fullSha: bool, exactSemver: bool)

  datatype Workflow = Workflow(
    lines: seq<string>, uses: seq<Action>, writeScopes: set<string>, writeAll: bool, reusable: bool)

  /** The regular files of `.github/workflows`, by name. */
  type Repository = map<string, Workflow>

  const WORKFLOW_ROOT := ".github/workflows/"

  function PathOf(name: string): string { WORKFLOW_ROOT + name }

  // ---------------------------------------------------------------- counting jobs

  function Indent(line: string): int { |line| - |LStrip(line)| }

  predicate IsJobNameChar(c: char) {
    'A' <= c <= 'Z' || 'a' <= c <= 'z' || '0' <= c <= '9' || c == '_' || c == '.' || c == '-'
  }

  predicate IsJobKey(s: string) {
    |s| >= 2 && s[|s| - 1] == ':' && forall i :: 0 <= i < |s| - 1 ==> IsJobNameChar(s[i])
  }

  predicate IsJobsLine(line: string) { Strip(line) == "jobs:" && Indent(line) == 0 }

  predicate IsJobHeader(line: string) { IsKept(line) && Indent(line) == 2 && IsJobKey(Strip(line)) }

  /** Line k lies in the block opened by the first `jobs:` line: nothing unindented comes between them. */
  predicate InJobsBlock(lines: seq<string>, k: nat)
    requires k < |lines|
  {
    exists j :: 0 <= j < k && OpensBlock(lines, j) && NoUnindented(lines, j, k + 1)
  }

  predicate OpensBlock(lines: seq<string>, j: nat)
    requires j < |lines|
  {
    IsJobsLine(lines[j]) && forall i :: 0 <= i < j ==> !IsJobsLine(lines[i])
  }

  predicate NoUnindented(lines: seq<string>, j: nat, n: nat)
    requires n <= |lines|
  {
    forall i :: j < i < n ==> !(IsKept(lines[i]) && Indent(lines[i]) == 0)
  }

  /** How many of the first n lines are job headers inside the block. */
  function JobHeaders(lines: seq<string>, n: nat): nat
    requires n <= |lines|
  {
    if n == 0 then 0
    else JobHeaders(lines, n - 1) + if IsJobHeader(lines[n - 1]) && InJobsBlock(lines, n - 1) then 1 else 0
  }

  method JobCount(lines: seq<string>) returns (count: nat)
    ensures count == JobHeaders(lines, |lines|)
  {
    hide Indent, Strip, StartsWith, IsJobKey;
    var inJobs := false;
    count := 0;
    ghost var start: nat := 0;
    for n := 0 to |lines|
      invariant count == JobHeaders(lines, n)
      invariant !inJobs ==> forall i :: 0 <= i < n ==> !IsJobsLine(lines[i])
      invariant inJobs ==> start < n && OpensBlock(lines, start) && NoUnindented(lines, start, n)
    {
      var stripped := Strip(lines[n]);
      if !inJobs {
        if stripped == "jobs:" && Indent(lines[n]) == 0 { inJobs, start := true, n; }
        assert !InJobsBlock(lines, n);
        continue;
      }
      InBlockIff(lines, start, n);
      if stripped == [] || StartsWith(stripped, "#") { continue; }
      if Indent(lines[n]) == 0 {
        NothingAfterBlock(lines, start, n, |lines|);
        break;
      }
      if Indent(lines[n]) == 2 && IsJobKey(stripped) { count := count + 1; }
    }
  }

  lemma InBlockIff(lines: seq<string>, start: nat, k: nat)
    requires start < k < |lines| && OpensBlock(lines, start)
    ensures InJobsBlock(lines, k) <==> NoUnindented(lines, start, k + 1)
  {
  }

  lemma {:induction false} NothingAfterBlock(lines: seq<string>, start: nat, stop: nat, n: nat)
    requires start < stop <= n <= |lines| && stop < |lines| && OpensBlock(lines, start)
    requires IsKept(lines[stop]) && Indent(lines[stop]) == 0
    ensures JobHeaders(lines, n) == JobHeaders(lines, stop)
  {
    if n > stop {
      NothingAfterBlock(lines, start, stop, n - 1);
      InBlockIff(lines, start, n - 1);
      assert !NoUnindented(lines, start, n);
    }
  }

  // ---------------------------------------------------------------- scanning

  datatype Row = Row(
    path: string, lineCount: nat, jobCount: nat, reusable: bool, heavy: bool, monolithic: bool,
    writeScopes: seq<string>, actions: seq<Action>, unpinned: nat, metadataDebt: nat)

  predicate IsRemote(a: Action) { !StartsWith(a.spec, "./") }

  predicate IsUnpinned(a: Action) { !a.fullSha }

  predicate LacksVersion(a: Action) { !a.exactSemver }

  /** The `uses:` lines that name something outside the repository, in order. */
  method ActionRows(uses: seq<Action>) returns (rows: seq<Action>)
    ensures rows == Filter(IsRemote, uses)
  {
    rows := [];
    for i := 0 to |uses|
      invariant rows == Filter(IsRemote, uses[..i])
    {
      FilterStep(IsRemote, uses, i);
      if StartsWith(uses[i].spec, "./") { continue; }
      rows := rows + [uses[i]];
    }
    assert uses[..|uses|] == uses;
  }

  function ScanWorkflow(name: string, w: Workflow): Row {
    var actions := Filter(IsRemote, w.uses);
    var jobs := JobHeaders(w.lines, |w.lines|);
    Row(PathOf(name), |w.lines|, jobs, w.reusable,
        |w.lines| >= 250 || jobs >= 8,
        |w.lines| >= 250 && jobs <= 2 && !w.reusable,
        SortedSet(w.writeScopes + if w.writeAll then {"write-all"} else {}),
        actions, |Filter(IsUnpinned, actions)|, |Filter(LacksVersion, actions)|)
  }

  predicate IsWorkflowName(name: string) { EndsWith(name, ".yml") || EndsWith(name, ".yaml") }

  function WorkflowFiles(root: Repository): seq<string> {
    SortedSet(set name | name in root.Keys && IsWorkflowName(name))
  }

  function ScanFiles(root: Repository, names: seq<string>): (rows: seq<Row>)
    requires forall name :: name in names ==> name in root
    ensures |rows| == |names|
    ensures forall i :: 0 <= i < |names| ==> rows[i] == ScanWorkflow(names[i], root[names[i]])
  {
    seq(|names|, i requires 0 <= i < |names| => ScanWorkflow(names[i], root[names[i]]))
  }

  function Workflows(root: Repository): seq<Row> {
    var names := WorkflowFiles(root);
    assert forall name :: name in names ==> name in Elements(names);
    ScanFiles(root, names)
  }

  function RowPath(r: Row): string { r.path }

  function Inventory(root: Repository): seq<string> { Map(RowPath, Workflows(root)) }

  datatype Metric =
    | WorkflowCount | WritePermission | Reusable | Heavy | Monolithic | Unpinned | DriftWorkflow | DriftOccurrence

  predicate HasWriteScope(r: Row) { r.writeScopes != [] }
  predicate IsReusable(r: Row) { r.reusable }
  predicate IsHeavy(r: Row) { r.heavy }
  predicate IsMonolithic(r: Row) { r.monolithic }
  predicate HasDrift(r: Row) { r.metadataDebt > 0 }
  function UnpinnedOf(r: Row): int { r.unpinned }
  function DebtOf(r: Row): int { r.metadataDebt }

  function Measure(rows: seq<Row>, m: Metric): int {
    match m
    case WorkflowCount => |rows|
    case WritePermission => |Filter(HasWriteScope, rows)|
    case Reusable => |Filter(IsReusable, rows)|
    case Heavy => |Filter(IsHeavy, rows)|
    case Monolithic => |Filter(IsMonolithic, rows)|
    case Unpinned => Sum(Map(UnpinnedOf, rows))
    case DriftWorkflow => |Filter(HasDrift, rows)|
    case DriftOccurrence => Sum(Map(DebtOf, rows))
  }

  function Metrics(root: Repository): (metrics: map<Metric, int>)
    ensures forall m: Metric :: m in metrics
  {
    map m: Metric | true :: Measure(Workflows(root), m)
  }

  // ---------------------------------------------------------------- contracts

  /**
   `budgets` holds the integer-valued entries of the JSON object, under the metric each one bounds
   (`minimum_reusable_workflow_count` under Reusable, `maximum_...` under the others); an entry that is
   absent or not an integer is missing.
   */
  datatype Topology = Topology(
    schemaVersion: Option<string>, inventory: seq<string>, anchors: seq<string>,
    budgets: map<Metric, int>, targetPrimary: Option<int>)

  datatype RequiredChecks = RequiredChecks(schemaVersion: Option<string>, contexts: seq<string>)

  const TOPOLOGY_SCHEMA := "devs69.workflow_topology.v1"
  const REQUIRED_CHECKS_SCHEMA := "devs69.required_checks.v1"

  const MAXIMUM_CHECKS: seq<Metric> :=
    [WorkflowCount, WritePermission, Heavy, Monolithic, Unpinned, DriftWorkflow, DriftOccurrence]

  function BuildTopologyContract(root: Repository, anchors: seq<string>): Topology {
    var metrics := Metrics(root);
    Topology(
      Some(TOPOLOGY_SCHEMA), Inventory(root), anchors,
      map m: Metric | true :: if m == Unpinned then 0 else metrics[m],
      Some(12))
  }

  function BuildRequiredChecksContract(contexts: seq<string>): RequiredChecks {
    RequiredChecks(Some(REQUIRED_CHECKS_SCHEMA), SortedSet(Elements(Strings(contexts))))
  }

  /** The JSON the live branch-protection query may hold. */
  datatype LivePayload = Listing(items: seq<string>) | WithContexts(items: seq<string>) | WithoutContexts | Unusable

  function NormalizeLiveContexts(payload: LivePayload): Outcome<seq<string>> {
    match payload
    case Listing(items) => Returned(SortedSet(Elements(Strings(items))))
    case WithContexts(items) => Returned(SortedSet(Elements(Strings(items))))
    case WithoutContexts => Returned([])
    case Unusable => Raised
  }

  // ---------------------------------------------------------------- evaluation

  datatype Violation =
    | TopologySchemaMismatch
    | RequiredChecksSchemaMismatch
    | InventoryMismatch(expected: seq<string>, actual: seq<string>, added: seq<string>, removed: seq<string>)
    | PrimaryAnchorMissing(anchors: seq<string>)
    | BudgetMissing(budget: Metric)
    | BudgetRegression(metric: Metric, limit: int, measured: int)
    | UnpinnedActions(actions: seq<(string, string)>)
    | ContextsNotSortedUnique
    | ContextDrift(contract: seq<string>, live: seq<string>)
    | ContractJobMissing
    | ContractCommandMissing

  datatype Report = Report(metrics: map<Metric, int>, contexts: seq<string>, violations: seq<Violation>)

  function BudgetViolations(checks: seq<Metric>, metrics: map<Metric, int>, budgets: map<Metric, int>): seq<Violation>
    requires forall m: Metric :: m in metrics
  {
    if checks == [] then []
    else
      var m := checks[|checks| - 1];
      BudgetViolations(checks[..|checks| - 1], metrics, budgets) +
      if m !in budgets then [BudgetMissing(m)]
      else if metrics[m] > budgets[m] then [BudgetRegression(m, budgets[m], metrics[m])]
      else []
  }

  function UnpinnedIn(row: Row): seq<(string, string)> {
    var bad := Filter(IsUnpinned, row.actions);
    seq(|bad|, i requires 0 <= i < |bad| => (row.path, bad[i].spec))
  }

  predicate CiMentions(ci: Workflow, text: string) {
    exists i :: 0 <= i < |ci.lines| && Contains(ci.lines[i], text)
  }

  const JOB_TEXT := "name: Workflow contracts"
  const COMMAND_TEXT := "python scripts/check_workflow_contracts.py"

  function MissingAnchors(root: Repository, anchors: seq<string>): seq<string> {
    SortTexts(Filter(anchor => PathOf(anchor) !in Inventory(root), anchors))
  }

  function ContextViolations(contexts: seq<string>, live: Option<seq<string>>): seq<Violation> {
    When(contexts != SortedSet(Elements(contexts)), ContextsNotSortedUnique) +
    match live
    case None => []
    case Some(names) =>
      When(contexts != SortedSet(Elements(names)), ContextDrift(contexts, SortedSet(Elements(names))))
  }

  function InventoryDifference(expected: seq<string>, actual: seq<string>): Violation {
    InventoryMismatch(expected, actual,
                      SortedSet(Elements(actual) - Elements(expected)),
                      SortedSet(Elements(expected) - Elements(actual)))
  }

  function ReusableViolations(reusable: int, budgets: map<Metric, int>): seq<Violation> {
    if Reusable !in budgets then [BudgetMissing(Reusable)]
    else When(reusable < budgets[Reusable],
              BudgetRegression(Reusable, budgets[Reusable], reusable))
  }

  function UnpinnedActionsOf(root: Repository): seq<(string, string)> {
    Concat(Map(UnpinnedIn, Workflows(root)))
  }

  /** Every violation, in the order in which the evaluation reports them. */
  function Violations(
    root: Repository, topology: Topology, required: RequiredChecks, live: Option<seq<string>>): seq<Violation>
    requires "ci.yml" in root
  {
    var inventory, metrics, expected := Inventory(root), Metrics(root), SortTexts(topology.inventory);
    When(topology.schemaVersion != Some(TOPOLOGY_SCHEMA), TopologySchemaMismatch) +
    When(required.schemaVersion != Some(REQUIRED_CHECKS_SCHEMA), RequiredChecksSchemaMismatch) +
    When(inventory != expected, InventoryDifference(expected, inventory)) +
    When(MissingAnchors(root, topology.anchors) != [], PrimaryAnchorMissing(MissingAnchors(root, topology.anchors))) +
    BudgetViolations(MAXIMUM_CHECKS, metrics, topology.budgets) +
    ReusableViolations(metrics[Reusable], topology.budgets) +
    When(UnpinnedActionsOf(root) != [], UnpinnedActions(UnpinnedActionsOf(root))) +
    ContextViolations(Strings(required.contexts), live) +
    When(!CiMentions(root["ci.yml"], JOB_TEXT), ContractJobMissing) +
    When(!CiMentions(root["ci.yml"], COMMAND_TEXT), ContractCommandMissing)
  }

  method CheckBudgets(metrics: map<Metric, int>, budgets: map<Metric, int>, found: seq<Violation>)
    returns (violations: seq<Violation>)
    requires forall m: Metric :: m in metrics
    ensures violations == found + BudgetViolations(MAXIMUM_CHECKS, metrics, budgets)
  {
    violations := found;
    for i := 0 to |MAXIMUM_CHECKS|
      invariant violations == found + BudgetViolations(MAXIMUM_CHECKS[..i], metrics, budgets)
    {
      Prefix(MAXIMUM_CHECKS, i);
      var m := MAXIMUM_CHECKS[i];
      if m !in budgets {
        violations := violations + [BudgetMissing(m)];
        continue;
      }
      if metrics[m] > budgets[m] {
        violations := violations + [BudgetRegression(m, budgets[m], metrics[m])];
      }
    }
    assert MAXIMUM_CHECKS[..|MAXIMUM_CHECKS|] == MAXIMUM_CHECKS;
  }

  method EvaluateContracts(
    root: Repository, topology: Topology, required: RequiredChecks, live: Option<seq<string>>)
    returns (outcome: Outcome<Report>)
    ensures outcome ==
            if "ci.yml" in root
            then Returned(Report(Metrics(root), Strings(required.contexts), Violations(root, topology, required, live)))
            else Raised
  {
    var inventory, metrics := Inventory(root), Metrics(root);
    var violations := When(topology.schemaVersion != Some(TOPOLOGY_SCHEMA), TopologySchemaMismatch);
    violations := violations +
      When(required.schemaVersion != Some(REQUIRED_CHECKS_SCHEMA), RequiredChecksSchemaMismatch);
    var expected := SortTexts(topology.inventory);
    violations := violations + When(inventory != expected, InventoryDifference(expected, inventory));
    var missing := MissingAnchors(root, topology.anchors);
    violations := violations + When(missing != [], PrimaryAnchorMissing(missing));
    violations := CheckBudgets(metrics, topology.budgets, violations);
    violations := violations + ReusableViolations(metrics[Reusable], topology.budgets);
    var unpinned := UnpinnedActionsOf(root);
    violations := violations + When(unpinned != [], UnpinnedActions(unpinned));
    var contexts := Strings(required.contexts);
    violations := violations + ContextViolations(contexts, live);
    if "ci.yml" !in root { return Raised; }
    violations := violations + When(!CiMentions(root["ci.yml"], JOB_TEXT), ContractJobMissing);
    violations := violations + When(!CiMentions(root["ci.yml"], COMMAND_TEXT), ContractCommandMissing);
    return Returned(Report(metrics, contexts, violations));
  }

  // ---------------------------------------------------------------- what a passed evaluation means

  predicate PinnedWorkflow(w: Workflow) {
    forall i :: 0 <= i < |w.uses| && IsRemote(w.uses[i]) ==> w.uses[i].fullSha
  }

  predicate AllPinned(root: Repository) {
    forall name :: name in root.Keys && IsWorkflowName(name) ==> PinnedWorkflow(root[name])
  }

  predicate AnchorsPresent(root: Repository, anchors: seq<string>) {
    forall anchor :: anchor in anchors ==> anchor in root.Keys && IsWorkflowName(anchor)
  }

  predicate WithinBudgets(root: Repository, budgets: map<Metric, int>) {
    && (forall m :: m in MAXIMUM_CHECKS ==> m in budgets && Metrics(root)[m] <= budgets[m])
    && Reusable in budgets && budgets[Reusable] <= Metrics(root)[Reusable]
  }

  ghost predicate MeetsTopology(root: Repository, topology: Topology) {
    && topology.schemaVersion == Some(TOPOLOGY_SCHEMA)
    && multiset(topology.inventory) == multiset(Inventory(root))
    && AnchorsPresent(root, topology.anchors)
    && WithinBudgets(root, topology.budgets)
    && AllPinned(root)
  }

  /** The half of the evaluation that looks at the required checks and at the CI workflow. */
  ghost predicate MeetsChecks(root: Repository, required: RequiredChecks, live: Option<seq<string>>)
    requires "ci.yml" in root
  {
    && required.schemaVersion == Some(REQUIRED_CHECKS_SCHEMA)
    && Ascending(Strings(required.contexts))
    && (live.Some? ==> Elements(live.value) == Elements(Strings(required.contexts)))
    && CiMentions(root["ci.yml"], JOB_TEXT) && CiMentions(root["ci.yml"], COMMAND_TEXT)
  }

  ghost predicate Passes(root: Repository, topology: Topology, required: RequiredChecks, live: Option<seq<string>>) {
    "ci.yml" in root && Violations(root, topology, required, live) == []
  }
}
