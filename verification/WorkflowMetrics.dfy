/** What the metrics and findings of the workflow contracts say about the files of the repository. */
module WorkflowMetrics {
  import opened Outcomes
  import opened Ordering
  import opened Text
  import opened WorkflowContracts
  import opened WorkflowRatchet

  // ---------------------------------------------------------------- metrics count files

  const EMPTY := Workflow([], [], {}, false, false)

  function RowNamed(root: Repository): string -> Row {
    (name: string) => ScanWorkflow(name, if name in root then root[name] else EMPTY)
  }

  function Holding(root: Repository, q: Workflow -> bool): string -> bool { name => name in root && q(root[name]) }

  lemma RowsByName(root: Repository)
    ensures Workflows(root) == Map(RowNamed(root), WorkflowFiles(root))
  {
    hide ScanWorkflow, WorkflowFiles, Workflows;
    ScannedFiles(root);
  }

  /** The workflow files of the repository that satisfy a condition. */
  ghost function FilesWith(root: Repository, q: Workflow -> bool): set<string> {
    set name | name in root.Keys && IsWorkflowName(name) && q(root[name])
  }

  /** Counting rows is counting the files they were scanned from. */
  lemma CountFiles(root: Repository, p: Row -> bool, q: Workflow -> bool)
    requires forall name :: name in root ==> p(ScanWorkflow(name, root[name])) == q(root[name])
    ensures |Filter(p, Workflows(root))| == |FilesWith(root, q)|
  {
    hide ScanWorkflow, WorkflowFiles, Workflows, IsWorkflowName;
    var names := WorkflowFiles(root);
    ScannedFiles(root);
    RowsByName(root);
    NamesDistinct(root);
    FilterOfMap(RowNamed(root), p, Holding(root, q), names);
    FilterDistinct(Holding(root, q), names);
    var kept := Filter(Holding(root, q), names);
    DistinctCounts(kept);
    forall name ensures name in Elements(kept) <==> name in FilesWith(root, q) {
      FilterMember(Holding(root, q), names, name);
    }
    assert Elements(kept) == FilesWith(root, q);
  }

  lemma NamesDistinct(root: Repository)
    ensures Distinct(WorkflowFiles(root))
  {
    hide IsWorkflowName;
    AscendingDistinct(WorkflowFiles(root));
  }

  function Any(): Workflow -> bool { (w: Workflow) => true }

  function Writes(): Workflow -> bool { (w: Workflow) => w.writeScopes != {} || w.writeAll }

  function Callable(): Workflow -> bool { (w: Workflow) => w.reusable }

  /** At least 250 lines or eight jobs. */
  function Large(): Workflow -> bool { (w: Workflow) => |w.lines| >= 250 || JobHeaders(w.lines, |w.lines|) >= 8 }

  /** At least 250 lines in at most two jobs of a workflow that is not reusable. */
  function Monolith(): Workflow -> bool {
    (w: Workflow) => |w.lines| >= 250 && JobHeaders(w.lines, |w.lines|) <= 2 && !w.reusable
  }

  /** Some non-local action line carries no exact version. */
  function Drifts(): Workflow -> bool {
    (w: Workflow) => exists i :: 0 <= i < |w.uses| && !StartsWith(w.uses[i].spec, "./") && !w.uses[i].exactSemver
  }

  /** The counting metrics count files of the repository. */
  lemma MetricsCountFiles(root: Repository)
    ensures Metrics(root)[WorkflowCount] == |FilesWith(root, Any())|
    ensures Metrics(root)[WritePermission] == |FilesWith(root, Writes())|
    ensures Metrics(root)[Reusable] == |FilesWith(root, Callable())|
    ensures Metrics(root)[Heavy] == |FilesWith(root, Large())|
    ensures Metrics(root)[Monolithic] == |FilesWith(root, Monolith())|
    ensures Metrics(root)[DriftWorkflow] == |FilesWith(root, Drifts())|
  {
    hide Workflows, IsWorkflowName, Filter, FilesWith, ScanWorkflow, Any, Writes, Callable, Large, Monolith, Drifts;
    hide HasWriteScope, IsReusable, IsHeavy, IsMonolithic, HasDrift;
    forall name, w: Workflow
      ensures HasWriteScope(ScanWorkflow(name, w)) == Writes()(w) && IsReusable(ScanWorkflow(name, w)) == Callable()(w)
      ensures IsHeavy(ScanWorkflow(name, w)) == Large()(w) && IsMonolithic(ScanWorkflow(name, w)) == Monolith()(w)
      ensures HasDrift(ScanWorkflow(name, w)) == Drifts()(w)
    {
      RowConditions(name, w);
      DriftOf(name, w);
    }
    CountsAll(root);
    CountFiles(root, HasWriteScope, Writes());
    CountFiles(root, IsReusable, Callable());
    CountFiles(root, IsHeavy, Large());
    CountFiles(root, IsMonolithic, Monolith());
    CountFiles(root, HasDrift, Drifts());
  }

  lemma CountsAll(root: Repository)
    ensures |Workflows(root)| == |FilesWith(root, Any())|
  {
    hide ScanWorkflow, WorkflowFiles, Workflows, IsWorkflowName;
    ScannedFiles(root);
    NamesDistinct(root);
    DistinctCounts(WorkflowFiles(root));
    assert Elements(WorkflowFiles(root)) == FilesWith(root, Any());
  }

  lemma RowConditions(name: string, w: Workflow)
    ensures var row := ScanWorkflow(name, w);
            && HasWriteScope(row) == Writes()(w) && IsReusable(row) == Callable()(w)
            && IsHeavy(row) == Large()(w) && IsMonolithic(row) == Monolith()(w)
  {
    hide JobHeaders, Filter, SortedSet;
    var scopes := w.writeScopes + if w.writeAll then {"write-all"} else {};
    SortedSetEmpty(scopes);
    assert w.writeAll ==> "write-all" in scopes;
  }

  lemma SortedSetEmpty(s: set<string>)
    ensures SortedSet(s) == [] <==> s == {}
  {
    assert Elements(SortedSet(s)) == s;
    if SortedSet(s) != [] { assert SortedSet(s)[0] in Elements(SortedSet(s)); }
  }

  lemma DriftOf(name: string, w: Workflow)
    ensures HasDrift(ScanWorkflow(name, w)) == Drifts()(w)
  {
    hide StartsWith, JobHeaders, SortedSet;
    var remote := Filter(IsRemote, w.uses);
    var drifting := Filter(LacksVersion, remote);
    if drifting != [] {
      FilterMember(LacksVersion, remote, drifting[0]);
      FilterMember(IsRemote, w.uses, drifting[0]);
    }
    forall i | 0 <= i < |w.uses| && IsRemote(w.uses[i]) && LacksVersion(w.uses[i]) ensures drifting != [] {
      FilterMember(IsRemote, w.uses, w.uses[i]);
      FilterMember(LacksVersion, remote, w.uses[i]);
    }
  }

  // ---------------------------------------------------------------- metrics that count action lines

  /** The action lines of a file that satisfy a condition. */
  ghost function LinesOf(root: Repository, name: string, q: Action -> bool): set<(string, nat)> {
    if name in root then set i | i in Passing(q, root[name].uses) :: (name, i) else {}
  }

  ghost function LinesIn(root: Repository, names: set<string>, q: Action -> bool): set<(string, nat)> {
    set name, line | name in names && line in LinesOf(root, name, q) :: line
  }

  lemma LinesOfSize(root: Repository, name: string, q: Action -> bool)
    requires name in root
    ensures |LinesOf(root, name, q)| == |Filter(q, root[name].uses)|
  {
    hide Passing;
    FilterIndices(q, root[name].uses);
    PairsSize(name, Passing(q, root[name].uses), LinesOf(root, name, q));
  }

  lemma {:induction false} LinesCount(root: Repository, names: seq<string>, f: string -> int, q: Action -> bool)
    requires Distinct(names) && forall name :: name in names ==> name in root && f(name) == |Filter(q, root[name].uses)|
    ensures Sum(Map(f, names)) == |LinesIn(root, Elements(names), q)|
  {
    hide Passing;
    if names == [] {
      assert LinesIn(root, Elements(names), q) == {};
    } else {
      var front, last := names[..|names| - 1], names[|names| - 1];
      LinesCount(root, front, f, q);
      assert Map(f, names)[..|names| - 1] == Map(f, front);
      assert Elements(names) == Elements(front) + {last};
      LinesOfSize(root, last, q);
      LinesDisjoint(root, Elements(front), last, q);
    }
  }

  lemma LinesDisjoint(root: Repository, names: set<string>, name: string, q: Action -> bool)
    requires name !in names
    ensures |LinesIn(root, names + {name}, q)| == |LinesIn(root, names, q)| + |LinesOf(root, name, q)|
  {
    hide Passing;
    var a, b := LinesIn(root, names, q), LinesOf(root, name, q);
    assert LinesIn(root, names + {name}, q) == a + b;
    forall line | line in a ensures line !in b { }
  }

  lemma {:induction false} PairsSize(name: string, own: set<nat>, pairs: set<(string, nat)>)
    requires forall x :: x in pairs <==> x.0 == name && x.1 in own
    ensures |pairs| == |own|
    decreases |own|
  {
    if own == {} {
      assert pairs == {};
    } else {
      var i :| i in own;
      PairsSize(name, own - {i}, pairs - {(name, i)});
    }
  }

  function UnpinnedLine(): Action -> bool { (a: Action) => !StartsWith(a.spec, "./") && !a.fullSha }

  function DriftingLine(): Action -> bool { (a: Action) => !StartsWith(a.spec, "./") && !a.exactSemver }

  /** The two occurrence metrics count the non-local action lines of all files without a full SHA, or without an exact
      version. */
  lemma MetricsCountLines(root: Repository)
    ensures Metrics(root)[Unpinned] == |LinesIn(root, FilesWith(root, Any()), UnpinnedLine())|
    ensures Metrics(root)[DriftOccurrence] == |LinesIn(root, FilesWith(root, Any()), DriftingLine())|
  {
    hide WorkflowFiles, Workflows, LinesIn, FilesWith, Filter, IsRemote, JobHeaders;
    assert Elements(WorkflowFiles(root)) == FilesWith(root, Any()) by { FilesAreAll(root); }
    forall a: Action
      ensures UnpinnedLine()(a) == (IsRemote(a) && IsUnpinned(a))
      ensures DriftingLine()(a) == (IsRemote(a) && LacksVersion(a))
    {
      LineConditions(a);
    }
    LinesMetric(root, UnpinnedOf, IsUnpinned, UnpinnedLine());
    LinesMetric(root, DebtOf, LacksVersion, DriftingLine());
  }

  lemma LineConditions(a: Action)
    ensures UnpinnedLine()(a) == (IsRemote(a) && IsUnpinned(a))
    ensures DriftingLine()(a) == (IsRemote(a) && LacksVersion(a))
  {
  }

  lemma FilesAreAll(root: Repository)
    ensures Elements(WorkflowFiles(root)) == FilesWith(root, Any())
  {
    hide WorkflowFiles, Workflows, IsWorkflowName;
    ScannedFiles(root);
  }

  lemma LinesMetric(root: Repository, f: Row -> int, q: Action -> bool, line: Action -> bool)
    requires forall name, w: Workflow :: f(ScanWorkflow(name, w)) == |Filter(q, Filter(IsRemote, w.uses))|
    requires forall a: Action :: line(a) == (IsRemote(a) && q(a))
    ensures Sum(Map(f, Workflows(root))) == |LinesIn(root, Elements(WorkflowFiles(root)), line)|
  {
    hide IsWorkflowName, WorkflowFiles, Workflows, ScanWorkflow, IsRemote, Filter, LinesIn;
    var names, rows := WorkflowFiles(root), Workflows(root);
    ScannedFiles(root);
    NamesDistinct(root);
    RowsByName(root);
    var g := (name: string) => f(RowNamed(root)(name));
    assert Map(f, rows) == Map(g, names);
    forall name | name in names ensures name in root && g(name) == |Filter(line, root[name].uses)| {
      FilterTwice(IsRemote, q, line, root[name].uses);
    }
    LinesCount(root, names, g, line);
  }

  // ---------------------------------------------------------------- job headers

  ghost predicate IsKeyText(key: string) {
    key != [] && forall c :: c in key ==>
      'A' <= c <= 'Z' || 'a' <= c <= 'z' || '0' <= c <= '9' || c == '_' || c == '.' || c == '-'
  }

  /** Two spaces, a job key and a colon, with nothing but spaces after it. */
  ghost predicate IsHeaderOf(line: string, pad: string, key: string, tail: string) {
    |pad| == 2 && AllSpace(pad) && AllSpace(tail) && IsKeyText(key) && line == pad + (key + ":") + tail
  }

  lemma JobKeyMeans(s: string)
    ensures IsJobKey(s) <==> exists key :: IsKeyText(key) && s == key + ":"
  {
    if IsJobKey(s) {
      var key := s[..|s| - 1];
      assert s == key + ":" && IsKeyText(key);
    }
    if key :| IsKeyText(key) && s == key + ":" {
      forall i | 0 <= i < |s| - 1 ensures IsJobNameChar(s[i]) { assert s[i] == key[i] && key[i] in key; }
    }
  }

  lemma KeyIsTrimmed(key: string)
    requires IsKeyText(key)
    ensures Trimmed(key + ":") && key + ":" != [] && !StartsWith(key + ":", "#")
  {
    assert (key + ":")[0] == key[0] && key[0] in key;
  }

  /** A job header is two spaces, a key and a colon. */
  lemma JobHeaderMeans(line: string)
    ensures IsJobHeader(line) <==> exists pad, key, tail :: IsHeaderOf(line, pad, key, tail)
  {
    hide IsKeyText, IsJobKey, Strip, LStrip, AllSpace, Trimmed;
    if IsJobHeader(line) {
      HeaderParts(line);
    } else if pad, key, tail :| IsHeaderOf(line, pad, key, tail) {
      KeyIsTrimmed(key);
      StripPadded(pad, key + ":", tail);
      JobKeyMeans(key + ":");
    }
  }

  lemma HeaderParts(line: string)
    requires IsJobHeader(line)
    ensures exists pad, key, tail :: IsHeaderOf(line, pad, key, tail)
  {
    hide IsKeyText, IsJobKey, RStrip, LStrip;
    var left, text := LStrip(line), Strip(line);
    LStripCuts(line);
    RStripCuts(left);
    JobKeyMeans(text);
    var key :| IsKeyText(key) && text == key + ":";
    var pad, tail := line[..2], left[|text|..];
    assert line == pad + left && left == text + tail;
    assert line == pad + (key + ":") + tail;
    assert IsHeaderOf(line, pad, key, tail);
  }

  /** The jobs block opens with an unindented `jobs:`. */
  lemma JobsLineMeans(line: string)
    ensures IsJobsLine(line) <==> exists tail :: AllSpace(tail) && line == "jobs:" + tail
  {
    hide RStrip, LStrip, AllSpace;
    if IsJobsLine(line) {
      LStripCuts(line);
      RStripCuts(line);
      assert line[0..] == line;
      var tail := line[|Strip(line)|..];
      assert line == "jobs:" + tail;
    }
    if tail :| AllSpace(tail) && line == "jobs:" + tail {
      assert AllSpace([]) && [] + "jobs:" + tail == line by { NoSpace(); }
      StripPadded([], "jobs:", tail);
    }
  }

  lemma NoSpace()
    ensures AllSpace([])
  {
  }

  /** The job count is the number of headers in the block. */
  lemma {:induction false} JobsCounted(lines: seq<string>, n: nat)
    requires n <= |lines|
    ensures JobHeaders(lines, n) == |set k: nat | k < n && IsJobHeader(lines[k]) && InJobsBlock(lines, k)|
  {
    hide IsJobHeader, InJobsBlock;
    var found := set k: nat | k < n && IsJobHeader(lines[k]) && InJobsBlock(lines, k);
    if n == 0 {
      assert found == {};
    } else {
      JobsCounted(lines, n - 1);
      var before := set k: nat | k < n - 1 && IsJobHeader(lines[k]) && InJobsBlock(lines, k);
      assert found == before + if IsJobHeader(lines[n - 1]) && InJobsBlock(lines, n - 1) then {n - 1} else {};
    }
  }

  // ---------------------------------------------------------------- the frozen contract

  /** A contract is frozen at the measured metrics, except that it allows no unpinned action, with a target of twelve
      primary workflows. */
  lemma FrozenContract(root: Repository, anchors: seq<string>, m: Metric)
    ensures var contract := BuildTopologyContract(root, anchors);
            && contract.schemaVersion == Some("devs69.workflow_topology.v1") && contract.anchors == anchors
            && contract.targetPrimary == Some(12) && contract.inventory == Inventory(root)
            && m in contract.budgets && contract.budgets[m] == if m == Unpinned then 0 else Metrics(root)[m]
  {
    hide Metrics, Inventory;
  }

  /** Workflow files are those with one of two suffixes, and their paths are below the workflow root. */
  lemma WorkflowNameMeans(name: string)
    ensures IsWorkflowName(name) <==> exists stem :: name == stem + ".yml" || name == stem + ".yaml"
    ensures PathOf(name) == ".github/workflows/" + name
  {
    if EndsWith(name, ".yml") { assert name == name[..|name| - 4] + ".yml"; }
    if EndsWith(name, ".yaml") { assert name == name[..|name| - 5] + ".yaml"; }
    if stem :| name == stem + ".yml" || name == stem + ".yaml" {
      assert name[|stem|..] == ".yml" || name[|stem|..] == ".yaml";
    }
  }
}
