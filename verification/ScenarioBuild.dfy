/** `build_db`: the extractors are run in order, deduplicated, sorted and counted. */
module ScenarioBuild {
  import opened Ordering
  import opened Outcomes
  import opened Rounding
  import opened Text
  import opened ScenarioDatabase
  import opened ScenarioMatrix

  datatype Doc = Doc(name: string, commands: set<string>)

  /** One failure signal of an artifact, with its signal text reduced to a slug. */
  datatype Event = Event(source: string, slug: string, domain: Domain)

  /** One outcome fact of an artifact, such as `status::passed`. */
  datatype Fact = Fact(source: string, text: string, domain: Domain)

  /**
   The surfaces of a repository: file names below the directory each extractor lists, in sorted order.
   `events` is None when there is no artifacts directory.
   */
  datatype Surfaces = Surfaces(
    root: string, tests: seq<TestFile>, contracts: seq<string>, workflows: seq<string>, modules: seq<string>,
    scripts: seq<string>, docs: seq<Doc>, automations: seq<string>, events: Option<seq<Event>>, facts: seq<Fact>)

  function FixedRow(prefix: string, rel: string, domain: Domain, kind: Kind): Row {
    Row(prefix + "::" + rel, domain, rel, kind)
  }

  function LocatedRow(root: string, prefix: string, rel: string, kind: Kind): Row {
    FixedRow(prefix, rel, DomainForPath(root + "/" + rel), kind)
  }

  function ContractRow(name: string): Row {
    FixedRow("contract", "docs/contracts/" + name, Governance, ContractValidation)
  }

  function WorkflowRow(name: string): Row {
    FixedRow("workflow", ".github/workflows/" + name, Reliability, WorkflowExecution)
  }

  function ModuleRow(root: string): string -> Row {
    (name: string) => LocatedRow(root, "module", "src/sdetkit/" + name, ModuleSurface)
  }

  function ScriptRow(root: string): string -> Row {
    (name: string) => LocatedRow(root, "script", "scripts/" + name, AutomationScript)
  }

  function AgentRow(name: string): Row {
    FixedRow("reviewer-agent", "templates/automations/" + name, Reliability, ReviewerAgent)
  }

  function DocRows(doc: Doc): seq<Row> {
    Map(command => Row("docs-command::docs/" + doc.name + "::" + command, Reliability, "docs/" + doc.name, DocsCommand),
        SortedSet(doc.commands))
  }

  function Stem(name: string): string { if EndsWith(name, ".yaml") then name[..|name| - 5] else name }

  predicate IsReviewer(name: string) {
    Contains(Stem(name), "worker") || Contains(Stem(name), "review") || Contains(Stem(name), "radar")
  }

  predicate HasSlug(e: Event) { e.slug != [] }

  function EventRow(e: Event): Row {
    Row("mistake-event::" + e.source + "::" + e.slug, e.domain, e.source, MistakeEvent)
  }

  function BootstrapRow(): Row {
    EventRow(Event("bootstrap", "no_failure_signals_yet", Quality)).(source := "docs/artifacts")
  }

  function FactRow(f: Fact): Row { Row("pr-outcome::" + f.source + "::" + f.text, f.domain, f.source, PrOutcome) }

  function EventRows(events: Option<seq<Event>>): seq<Row> {
    if events.None? then []
    else
      var rows := Map(EventRow, Filter(HasSlug, events.value));
      Dedup(if rows == [] then [BootstrapRow()] else rows)
  }

  function TestFileRows(root: string, tests: seq<TestFile>): seq<Row> {
    if tests == [] then [] else TestFileRows(root, tests[..|tests| - 1]) + FileRows(root, tests[|tests| - 1])
  }

  /** The extractors that run before the matrices. */
  function Before(s: Surfaces): seq<Row> {
    TestFileRows(s.root, s.tests) +
    Map(ContractRow, s.contracts) + Map(WorkflowRow, s.workflows) +
    Map(ModuleRow(s.root), s.modules) + Map(ScriptRow(s.root), s.scripts) +
    Concat(Map(DocRows, s.docs))
  }

  /** The extractors that run after the matrices, and so win over them on equal ids. */
  function After(s: Surfaces): seq<Row> {
    Map(AgentRow, Filter(IsReviewer, s.automations)) + EventRows(s.events) + Dedup(Map(FactRow, s.facts))
  }

  function Entries(s: Surfaces): seq<Row> { Before(s) + Matrices() + After(s) }

  /** The `adaptive_learning` block of the summary. */
  datatype Learning = Learning(prFeedback: int, mistakes: int, total: int, coverage: int, precisionReady: bool)

  function LearningOf(prFeedback: int, mistakes: int): Learning {
    var total := prFeedback + mistakes;
    var share := total as real / 20.0 * 100.0;
    Learning(prFeedback, mistakes, total, RoundHalfEven(if share > 100.0 then 100.0 else share),
             prFeedback >= 5 && mistakes >= 5)
  }

  /** Counts are aligned with DOMAINS and KINDS. */
  datatype Database = Database(
    rows: seq<Row>, total: nat, domains: seq<int>, kinds: seq<int>, meetsTarget: bool, learning: Learning)

  function CountOf(rows: seq<Row>, kind: Kind): nat { |Having(rows, KindOf, kind)| }

  function DatabaseOf(s: Surfaces): (db: Database)
    ensures |db.domains| == |DOMAINS| && |db.kinds| == |KINDS|
  {
    var rows := Dedup(Entries(s));
    Database(rows, |rows|, CountBy(rows, DomainOf, DOMAINS), CountBy(rows, KindOf, KINDS), |rows| >= 3000,
             LearningOf(CountOf(rows, PrOutcome), CountOf(rows, MistakeEvent)))
  }

  method BuildDb(s: Surfaces) returns (db: Database)
    ensures db == DatabaseOf(s)
  {
    hide FileRows, Dedup, ContractRow, WorkflowRow, ModuleRow, ScriptRow, DocRows, ReviewerAt, PrAt, After;
    var entries: seq<Row> := [];
    for i := 0 to |s.tests|
      invariant entries == TestFileRows(s.root, s.tests[..i])
    {
      Prefix(s.tests, i);
      var rows := ExtractTestScenarios(s.root, s.tests[i]);
      entries := entries + rows;
    }
    assert s.tests[..|s.tests|] == s.tests;
    entries := entries + Map(ContractRow, s.contracts);
    entries := entries + Map(WorkflowRow, s.workflows);
    entries := entries + Map(ModuleRow(s.root), s.modules);
    entries := entries + Map(ScriptRow(s.root), s.scripts);
    entries := entries + Concat(Map(DocRows, s.docs));
    assert entries == Before(s);
    var reviewer := GenerateReviewerMatrix();
    var pr := GeneratePrMatrix();
    entries := entries + (reviewer + pr);
    entries := entries + After(s);
    var rows := DedupRows(entries);
    var learning := LearningOf(CountOf(rows, PrOutcome), CountOf(rows, MistakeEvent));
    db := Database(rows, |rows|, CountBy(rows, DomainOf, DOMAINS), CountBy(rows, KindOf, KINDS), |rows| >= 3000,
                   learning);
  }

  // ---------------------------------------------------------------- rows of the other extractors

  /** The first two letters of the ids of a kind tell the extractors apart. */
  function Mark(kind: Kind): string {
    match kind
    case TestFunction | ParametrizedCase => "te"
    case ContractValidation => "co"
    case WorkflowExecution => "wo"
    case ModuleSurface => "mo"
    case AutomationScript => "sc"
    case DocsCommand => "do"
    case ReviewerMatrix | PrReviewerMatrix => "ad"
    case ReviewerAgent => "re"
    case MistakeEvent => "mi"
    case PrOutcome => "pr"
  }

  predicate IsMatrixKind(kind: Kind) { kind == ReviewerMatrix || kind == PrReviewerMatrix }

  /** A row of any other extractor than the matrices. */
  ghost predicate Foreign(r: Row) { |r.id| >= 2 && r.id[..2] == Mark(r.kind) && !IsMatrixKind(r.kind) }

  lemma ForeignHead(r: Row)
    requires Foreign(r)
    ensures r.id[0] != 'a'
  {
    assert r.id[..2][0] == r.id[0];
  }

  ghost predicate AllForeign(rows: seq<Row>) { forall i :: 0 <= i < |rows| ==> Foreign(rows[i]) }

  lemma AppendForeign(a: seq<Row>, b: seq<Row>)
    requires AllForeign(a) && AllForeign(b)
    ensures AllForeign(a + b)
  {
    hide Foreign;
  }

  lemma {:induction false} ConcatForeign(parts: seq<seq<Row>>)
    requires forall i :: 0 <= i < |parts| ==> AllForeign(parts[i])
    ensures AllForeign(Concat(parts))
  {
    hide AllForeign;
    if parts == [] {
      NoneForeign();
    } else {
      ConcatForeign(parts[..|parts| - 1]);
      AppendForeign(Concat(parts[..|parts| - 1]), parts[|parts| - 1]);
    }
  }

  lemma NoneForeign()
    ensures AllForeign([]) && Concat<Row>([]) == []
  {
  }

  lemma {:induction false} TestRowsForeign(rel: string, domain: Domain, found: seq<TestWalk.Found>)
    requires forall i :: 0 <= i < |found| ==> found[i].test.FunctionDef?
    requires StartsWith(rel, "te")
    ensures AllForeign(RowsOf(rel, domain, found))
  {
    hide TestWalk.Cases, Join, Decimal;
    if found != [] {
      TestRowsForeign(rel, domain, found[..|found| - 1]);
      AppendForeign(RowsOf(rel, domain, found[..|found| - 1]), TestRows(rel, domain, found[|found| - 1]));
    }
  }

  lemma {:induction false} TestFilesForeign(root: string, tests: seq<TestFile>)
    ensures AllForeign(TestFileRows(root, tests))
  {
    hide DomainForPath, AllForeign, RowsOf, FoundIn;
    if tests == [] {
      NoneForeign();
    } else {
      var file := tests[|tests| - 1];
      var rel := "tests/" + file.name;
      assert rel[..2] == "te";
      TestFilesForeign(root, tests[..|tests| - 1]);
      TestRowsForeign(rel, DomainForPath(root + "/" + rel), FoundIn(file.tree));
      AppendForeign(TestFileRows(root, tests[..|tests| - 1]), FileRows(root, file));
    }
  }

  lemma FixedForeign(prefix: string, rel: string, domain: Domain, kind: Kind)
    requires StartsWith(prefix, Mark(kind)) && !IsMatrixKind(kind)
    ensures Foreign(FixedRow(prefix, rel, domain, kind))
  {
  }

  lemma DocForeign(doc: Doc)
    ensures AllForeign(DocRows(doc))
  {
    forall i | 0 <= i < |DocRows(doc)| ensures Foreign(DocRows(doc)[i]) {
      assert DocRows(doc)[i].id[..2] == "do";
    }
  }

  lemma ListingsForeign(root: string, name: string)
    ensures Foreign(ContractRow(name)) && Foreign(WorkflowRow(name)) && Foreign(AgentRow(name))
    ensures Foreign(ModuleRow(root)(name)) && Foreign(ScriptRow(root)(name))
  {
    hide DomainForPath, FixedRow, Foreign;
    assert "contract"[..2] == "co" && "workflow"[..2] == "wo" && "reviewer-agent"[..2] == "re";
    assert "module"[..2] == "mo" && "script"[..2] == "sc";
    var module_, script := "src/sdetkit/" + name, "scripts/" + name;
    FixedForeign("contract", "docs/contracts/" + name, Governance, ContractValidation);
    FixedForeign("workflow", ".github/workflows/" + name, Reliability, WorkflowExecution);
    FixedForeign("reviewer-agent", "templates/automations/" + name, Reliability, ReviewerAgent);
    FixedForeign("module", module_, DomainForPath(root + "/" + module_), ModuleSurface);
    FixedForeign("script", script, DomainForPath(root + "/" + script), AutomationScript);
  }

  lemma MapForeign<T>(f: T -> Row, s: seq<T>)
    requires forall x :: Foreign(f(x))
    ensures AllForeign(Map(f, s))
  {
    hide Foreign;
  }

  lemma BeforeForeign(s: Surfaces)
    ensures AllForeign(Before(s))
  {
    hide Foreign, ContractRow, WorkflowRow, AgentRow, ModuleRow, ScriptRow, TestFileRows, DocRows, Concat;
    forall name: string
      ensures Foreign(ContractRow(name)) && Foreign(WorkflowRow(name))
      ensures Foreign(ModuleRow(s.root)(name)) && Foreign(ScriptRow(s.root)(name))
    {
      ListingsForeign(s.root, name);
    }
    var tests, docs := TestFileRows(s.root, s.tests), Concat(Map(DocRows, s.docs));
    var contracts, workflows := Map(ContractRow, s.contracts), Map(WorkflowRow, s.workflows);
    var modules, scripts := Map(ModuleRow(s.root), s.modules), Map(ScriptRow(s.root), s.scripts);
    MapForeign(ContractRow, s.contracts);
    MapForeign(WorkflowRow, s.workflows);
    MapForeign(ModuleRow(s.root), s.modules);
    MapForeign(ScriptRow(s.root), s.scripts);
    TestFilesForeign(s.root, s.tests);
    forall i | 0 <= i < |s.docs| ensures AllForeign(Map(DocRows, s.docs)[i]) { DocForeign(s.docs[i]); }
    ConcatForeign(Map(DocRows, s.docs));
    AppendForeign(tests, contracts);
    AppendForeign(tests + contracts, workflows);
    AppendForeign(tests + contracts + workflows, modules);
    AppendForeign(tests + contracts + workflows + modules, scripts);
    AppendForeign(tests + contracts + workflows + modules + scripts, docs);
  }

  lemma DedupForeign(rows: seq<Row>)
    requires AllForeign(rows)
    ensures AllForeign(Dedup(rows))
  {
    hide Foreign, Dedup, LastWith;
    DedupShape(rows);
    forall i | 0 <= i < |Dedup(rows)| ensures Foreign(Dedup(rows)[i]) {
      var r := Dedup(rows)[i];
      assert r in Dedup(rows);
      LastWithMember(rows, r.id);
      var j :| 0 <= j < |rows| && rows[j] == r;
    }
  }

  lemma EventsForeign(events: Option<seq<Event>>)
    ensures AllForeign(EventRows(events))
  {
    hide Dedup;
    if events.Some? {
      var rows := Map(EventRow, Filter(HasSlug, events.value));
      forall i | 0 <= i < |rows| ensures Foreign(rows[i]) { assert rows[i].id[..2] == "mi"; }
      assert BootstrapRow().id[..2] == "mi";
      DedupForeign(if rows == [] then [BootstrapRow()] else rows);
    }
  }

  lemma FactForeign(f: Fact)
    ensures Foreign(FactRow(f))
  {
    assert FactRow(f).id[..2] == "pr";
  }

  lemma AfterForeign(s: Surfaces)
    ensures AllForeign(After(s))
  {
    hide AgentRow, Dedup, EventRows, Foreign;
    forall name: string ensures Foreign(AgentRow(name)) { ListingsForeign("", name); }
    var agents := Map(AgentRow, Filter(IsReviewer, s.automations));
    MapForeign(AgentRow, Filter(IsReviewer, s.automations));
    forall f: Fact ensures Foreign(FactRow(f)) { FactForeign(f); }
    var facts := Map(FactRow, s.facts);
    MapForeign(FactRow, s.facts);
    EventsForeign(s.events);
    DedupForeign(facts);
    AppendForeign(agents, EventRows(s.events));
    AppendForeign(agents + EventRows(s.events), Dedup(facts));
  }

  lemma EntryCases(s: Surfaces, x: Row)
    requires x in Entries(s)
    ensures x in Matrices() || Foreign(x)
  {
    hide Before, After, Matrices, Foreign;
    BeforeForeign(s);
    AfterForeign(s);
  }

  // ---------------------------------------------------------------- what every database contains

  /** No extractor can take an id from the matrices: every combination survives deduplication. */
  lemma MatrixSurvives(s: Surfaces, x: Row)
    requires x in Matrices()
    ensures x in Dedup(Entries(s))
  {
    hide Before, After, Matrices, Dedup, LastWith;
    var entries := Entries(s);
    MatrixRowShape(x);
    forall q: Row | q in entries && q.id == x.id ensures q == x {
      EntryCases(s, q);
      if q in Matrices() { MatrixIdsUnique(q, x); } else { ForeignHead(q); }
    }
    OnlyRowWithId(entries, x);
    DedupShape(entries);
  }

  lemma MatrixKindOnlyThere(s: Surfaces, x: Row)
    requires x in Dedup(Entries(s))
    ensures x.kind == ReviewerMatrix <==> x in ReviewerRows(REVIEWER_ROWS)
    ensures x.kind == PrReviewerMatrix <==> x in PrRows(PR_ROWS)
  {
    hide Before, After, Dedup, LastWith, ReviewerAt, PrAt;
    DedupShape(Entries(s));
    LastWithMember(Entries(s), x.id);
    EntryCases(s, x);
    if x in Matrices() { MatrixRowShape(x); }
  }

  /** Two lists without repetition and with the same members are equally long. */
  lemma SameSize<T>(a: seq<T>, b: seq<T>)
    requires Distinct(a) && Distinct(b) && forall x :: x in a <==> x in b
    ensures |a| == |b|
  {
    DistinctFits(a, b);
    DistinctFits(b, a);
  }

  /** The matrices contribute exactly their 7560 and 1080 rows to every database. */
  lemma MatrixCounts(s: Surfaces)
    ensures |Having(Dedup(Entries(s)), KindOf, ReviewerMatrix)| == 7560
    ensures |Having(Dedup(Entries(s)), KindOf, PrReviewerMatrix)| == 1080
  {
    hide Filter, Entries, Dedup, LastWith, ReviewerAt, PrAt;
    var rows := Dedup(Entries(s));
    DedupShape(Entries(s));
    MatrixDistinct();
    FilterDistinct(Equals(KindOf, ReviewerMatrix), rows);
    FilterDistinct(Equals(KindOf, PrReviewerMatrix), rows);
    forall x ensures x in Having(rows, KindOf, ReviewerMatrix) <==> x in ReviewerRows(REVIEWER_ROWS) {
      HavingMember(rows, KindOf, ReviewerMatrix, x);
      if x in rows { MatrixKindOnlyThere(s, x); }
      if x in ReviewerRows(REVIEWER_ROWS) { assert x in Matrices(); MatrixSurvives(s, x); MatrixRowShape(x); }
    }
    forall x ensures x in Having(rows, KindOf, PrReviewerMatrix) <==> x in PrRows(PR_ROWS) {
      HavingMember(rows, KindOf, PrReviewerMatrix, x);
      if x in rows { MatrixKindOnlyThere(s, x); }
      if x in PrRows(PR_ROWS) { assert x in Matrices(); MatrixSurvives(s, x); MatrixRowShape(x); }
    }
    SameSize(Having(rows, KindOf, ReviewerMatrix), ReviewerRows(REVIEWER_ROWS));
    SameSize(Having(rows, KindOf, PrReviewerMatrix), PrRows(PR_ROWS));
  }

  lemma MatricesDistinct()
    ensures Distinct(Matrices())
  {
    hide ReviewerAt, PrAt;
    MatrixDistinct();
    var a, b := ReviewerRows(REVIEWER_ROWS), PrRows(PR_ROWS);
    forall i, j | 0 <= i < |a| && 0 <= j < |b| ensures a[i] != b[j] {
      MatrixKinds(i);
      MatrixKinds(j);
    }
  }

  /** Every domain has at least its 1512 + 216 matrix rows. */
  lemma DomainRows(s: Surfaces, d: nat)
    requires d < |DOMAINS|
    ensures |Having(Dedup(Entries(s)), DomainOf, DOMAINS[d])| >= 1728
  {
    hide Filter, Entries, Dedup, LastWith, ReviewerAt, PrAt;
    var rows, domain := Dedup(Entries(s)), DOMAINS[d];
    var expected := Having(Matrices(), DomainOf, domain);
    MatrixDomainRows(d);
    MatricesDistinct();
    FilterDistinct(Equals(DomainOf, domain), Matrices());
    forall x | x in expected ensures x in Having(rows, DomainOf, domain) {
      HavingMember(Matrices(), DomainOf, domain, x);
      MatrixSurvives(s, x);
      HavingMember(rows, DomainOf, domain, x);
    }
    DistinctFits(expected, Having(rows, DomainOf, domain));
  }

  /** The database of any repository: strictly ordered ids, counts that add up, and always enough rows. */
  lemma DatabaseSound(s: Surfaces)
    ensures var db := DatabaseOf(s);
            && Ascending(Map(IdOf, db.rows))
            && Sum(db.domains) == db.total && Sum(db.kinds) == db.total
            && db.kinds[7] == 7560 && db.kinds[8] == 1080
            && (forall d :: 0 <= d < |DOMAINS| ==> db.domains[d] >= 1728)
            && db.total >= 8640 && db.meetsTarget
  {
    hide Entries, Dedup, Having, Ascending, Sum, Map, LearningOf;
    var db := DatabaseOf(s);
    DedupShape(Entries(s));
    DomainsCovered();
    CountsSum(db.rows, DomainOf, DOMAINS);
    CountsSum(db.rows, KindOf, KINDS);
    MatrixCounts(s);
    forall d: nat | d < |DOMAINS| ensures db.domains[d] >= 1728 { DomainRows(s, d); }
    SumOfFive(db.domains);
  }

  /** Coverage is five points for each learning signal up to a hundred; readiness for precision needs half of it. */
  lemma LearningCoverage(s: Surfaces)
    ensures var learning := DatabaseOf(s).learning;
            && learning.total >= 0
            && learning.coverage == (if learning.total >= 20 then 100 else 5 * learning.total)
            && (learning.precisionReady ==> learning.coverage >= 50)
  {
    hide Dedup, Entries, Having;
    RoundInt(100);
    RoundInt(5 * DatabaseOf(s).learning.total);
  }

  const NOTHING := Surfaces("", [], [], [], [], [], [], [], None, [])

  lemma NothingEntries()
    ensures Entries(NOTHING) == Matrices()
  {
    hide Matrices;
    assert Dedup([]) == [] by { DedupNothing(); }
    assert Before(NOTHING) == [] && After(NOTHING) == [];
    assert [] + Matrices() + [] == Matrices();
  }

  lemma DedupNothing()
    ensures Dedup([]) == []
  {
    hide Matrices, Dedup;
    DedupShape([]);
    DistinctFits(Dedup([]), []);
  }

  /** A repository with nothing to extract has exactly 1728 rows in each domain. */
  lemma NothingDomainRows(d: nat)
    requires d < |DOMAINS|
    ensures |Having(Dedup(Entries(NOTHING)), DomainOf, DOMAINS[d])| == 1728
  {
    hide Filter, Entries, Dedup, LastWith, ReviewerAt, PrAt, Matrices;
    NothingEntries();
    var rows, domain := Dedup(Matrices()), DOMAINS[d];
    var expected := Having(Matrices(), DomainOf, domain);
    MatrixDomainRows(d);
    MatricesDistinct();
    DedupShape(Matrices());
    FilterDistinct(Equals(DomainOf, domain), Matrices());
    FilterDistinct(Equals(DomainOf, domain), rows);
    forall x ensures x in expected <==> x in Having(rows, DomainOf, domain) {
      HavingMember(Matrices(), DomainOf, domain, x);
      HavingMember(rows, DomainOf, domain, x);
      LastWithMember(Matrices(), x.id);
      if x in Matrices() { MatrixSurvives(NOTHING, x); }
    }
    SameSize(expected, Having(rows, DomainOf, domain));
  }

  lemma MatrixDomainRows(d: nat)
    requires d < |DOMAINS|
    ensures |Having(Matrices(), DomainOf, DOMAINS[d])| == 1728
  {
    hide ReviewerAt, PrAt, Having;
    HavingAppend(ReviewerRows(REVIEWER_ROWS), PrRows(PR_ROWS), DOMAINS[d]);
    ReviewerPerDomain(REVIEWER_ROWS, d);
    PrPerDomain(PR_ROWS, d);
  }

  lemma HavingAppend(a: seq<Row>, b: seq<Row>, domain: Domain)
    ensures Having(a + b, DomainOf, domain) == Having(a, DomainOf, domain) + Having(b, DomainOf, domain)
  {
    FilterAppend(Equals(DomainOf, domain), a, b);
  }

  lemma DomainsCovered()
    ensures Distinct(DOMAINS) && forall d: Domain :: d in DOMAINS
    ensures Distinct(KINDS) && forall k: Kind :: k in KINDS
  {
    forall d: Domain ensures d in DOMAINS {
      match d case Security => assert DOMAINS[0] == d; case Release => assert DOMAINS[1] == d;
      case Governance => assert DOMAINS[2] == d; case Reliability => assert DOMAINS[3] == d;
      case Quality => assert DOMAINS[4] == d;
    }
    forall k: Kind ensures k in KINDS {
      match k case TestFunction => assert KINDS[0] == k; case ParametrizedCase => assert KINDS[1] == k;
      case ContractValidation => assert KINDS[2] == k; case WorkflowExecution => assert KINDS[3] == k;
      case ModuleSurface => assert KINDS[4] == k; case AutomationScript => assert KINDS[5] == k;
      case DocsCommand => assert KINDS[6] == k; case ReviewerMatrix => assert KINDS[7] == k;
      case PrReviewerMatrix => assert KINDS[8] == k; case ReviewerAgent => assert KINDS[9] == k;
      case MistakeEvent => assert KINDS[10] == k; case PrOutcome => assert KINDS[11] == k;
    }
  }

  lemma SumOfFive(s: seq<int>)
    requires |s| == 5
    ensures Sum(s) == s[0] + s[1] + s[2] + s[3] + s[4]
  {
    assert Sum(s[..0]) == 0;
    assert s[..1][..0] == s[..0] && s[..2][..1] == s[..1] && s[..3][..2] == s[..2] && s[..4][..3] == s[..3];
    assert Sum(s[..1]) == s[0];
    assert Sum(s[..2]) == s[0] + s[1];
    assert Sum(s[..3]) == s[0] + s[1] + s[2];
    assert Sum(s[..4]) == s[0] + s[1] + s[2] + s[3];
  }
}
