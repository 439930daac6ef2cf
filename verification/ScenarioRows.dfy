/** Where the rows of a scenario database come from, stated on the surfaces of the repository. */
module ScenarioRows {
  import opened Ordering
  import opened Outcomes
  import opened Rounding
  import opened Text
  import opened TestWalk
  import opened ScenarioDatabase
  import opened ScenarioMatrix
  import opened ScenarioBuild

  // ---------------------------------------------------------------- origins

  /** A test function of the file's syntax tree, with the classes above it. */
  ghost predicate HasTest(file: TestFile, x: Found) {
    file.tree.Some? && exists address: seq<nat> ::
      At(file.tree.value, address) == Some(x.test) && IsTest(x.test) && x.path == ClassesAbove(file.tree.value, address)
  }

  function TestId(file: TestFile, path: seq<string>, name: string): string {
    "tests/" + file.name + "::" + Join(path + [name])
  }

  function CaseId(file: TestFile, path: seq<string>, name: string, i: nat): string {
    TestId(file, path, name) + "[case-" + Decimal(i + 1) + "]"
  }

  ghost predicate PlainOrigin(s: Surfaces, r: Row, file: TestFile, x: Found) {
    && file in s.tests && HasTest(file, x) && Cases(x.test) == 1
    && r == Row(TestId(file, x.path, x.test.name), DomainForPath(s.root + "/" + ("tests/" + file.name)),
                "tests/" + file.name, TestFunction)
  }

  ghost predicate CaseOrigin(s: Surfaces, r: Row, file: TestFile, x: Found, i: nat) {
    && file in s.tests && HasTest(file, x) && i < Cases(x.test) && Cases(x.test) != 1
    && r == Row(CaseId(file, x.path, x.test.name, i), DomainForPath(s.root + "/" + ("tests/" + file.name)),
                "tests/" + file.name, ParametrizedCase)
  }

  ghost predicate DocOrigin(r: Row, doc: Doc, command: string) {
    command in doc.commands &&
    r == Row("docs-command::docs/" + doc.name + "::" + command, Reliability, "docs/" + doc.name, DocsCommand)
  }

  ghost predicate EventOrigin(s: Surfaces, r: Row) {
    && s.events.Some?
    && if forall e :: e in s.events.value ==> e.slug == []
       then r == Row("mistake-event::bootstrap::no_failure_signals_yet", Quality, "docs/artifacts", MistakeEvent)
       else
         exists e :: e in s.events.value && e.slug != [] &&
           r == Row("mistake-event::" + e.source + "::" + e.slug, e.domain, e.source, MistakeEvent)
  }

  /** The row is one that the extractor of its kind lists. */
  ghost predicate Origin(s: Surfaces, r: Row) {
    match r.kind
    case TestFunction => exists file, x :: PlainOrigin(s, r, file, x)
    case ParametrizedCase => exists file, x, i: nat :: CaseOrigin(s, r, file, x, i)
    case ContractValidation =>
      exists name :: name in s.contracts &&
        var rel := "docs/contracts/" + name; r == Row("contract::" + rel, Governance, rel, ContractValidation)
    case WorkflowExecution =>
      exists name :: name in s.workflows &&
        var rel := ".github/workflows/" + name; r == Row("workflow::" + rel, Reliability, rel, WorkflowExecution)
    case ModuleSurface =>
      exists name :: name in s.modules &&
        var rel := "src/sdetkit/" + name;
        r == Row("module::" + rel, DomainForPath(s.root + "/" + rel), rel, ModuleSurface)
    case AutomationScript =>
      exists name :: name in s.scripts &&
        var rel := "scripts/" + name;
        r == Row("script::" + rel, DomainForPath(s.root + "/" + rel), rel, AutomationScript)
    case DocsCommand =>
      exists doc, command :: doc in s.docs && DocOrigin(r, doc, command)
    case ReviewerMatrix => exists k: nat :: k < REVIEWER_ROWS && r == ReviewerAt(k)
    case PrReviewerMatrix => exists k: nat :: k < PR_ROWS && r == PrAt(k)
    case ReviewerAgent =>
      exists name :: name in s.automations && IsReviewer(name) &&
        var rel := "templates/automations/" + name; r == Row("reviewer-agent::" + rel, Reliability, rel, ReviewerAgent)
    case MistakeEvent => EventOrigin(s, r)
    case PrOutcome =>
      exists f :: f in s.facts && r == Row("pr-outcome::" + f.source + "::" + f.text, f.domain, f.source, PrOutcome)
  }

  // ---------------------------------------------------------------- tests

  lemma HasTestFound(file: TestFile, x: Found)
    ensures x in FoundIn(file.tree) <==> HasTest(file, x)
  {
    if file.tree.Some? {
      var tree := file.tree.value;
      WalkComplete(tree, x);
      if address: seq<nat> :|
        At(tree, address) == Some(x.test) && IsTest(x.test) && x.path == ClassesAbove(tree, address)
      {
        AddressIsWalked(tree, [], address);
        assert [] + x.path == x.path;
      }
    }
  }

  /** Two tests of one file are listed row by row. */
  lemma {:induction false} RowsOfMember(rel: string, domain: Domain, found: seq<Found>, r: Row)
    requires forall i :: 0 <= i < |found| ==> found[i].test.FunctionDef?
    ensures r in RowsOf(rel, domain, found) <==>
            exists n :: 0 <= n < |found| && r in TestRows(rel, domain, found[n])
  {
    hide TestRows;
    if found != [] {
      var front, last := found[..|found| - 1], found[|found| - 1];
      RowsOfMember(rel, domain, front, r);
      assert forall n :: 0 <= n < |front| ==> front[n] == found[n];
      if r in TestRows(rel, domain, last) { assert found[|found| - 1] == last; }
    }
  }

  lemma {:induction false} TestFileMember(root: string, tests: seq<TestFile>, r: Row)
    ensures r in TestFileRows(root, tests) <==> exists n :: 0 <= n < |tests| && r in FileRows(root, tests[n])
  {
    hide FileRows;
    if tests != [] {
      var front, last := tests[..|tests| - 1], tests[|tests| - 1];
      TestFileMember(root, front, r);
      assert forall n :: 0 <= n < |front| ==> front[n] == tests[n];
      if r in FileRows(root, last) { assert tests[|tests| - 1] == last; }
    }
  }

  /** The rows of one test function, in the words of its origin. */
  lemma TestRowsMember(s: Surfaces, file: TestFile, x: Found, r: Row)
    requires file in s.tests && HasTest(file, x)
    ensures var rel := "tests/" + file.name;
            r in TestRows(rel, DomainForPath(s.root + "/" + rel), x) <==>
            PlainOrigin(s, r, file, x) || exists i: nat :: CaseOrigin(s, r, file, x, i)
  {
    hide DomainForPath, Cases, Join, Decimal, HasTest;
    var rel := "tests/" + file.name;
    var domain := DomainForPath(s.root + "/" + rel);
    HasTestFunction(file, x);
    assert BaseId(rel, x) == TestId(file, x.path, x.test.name);
    if Cases(x.test) != 1 {
      var rows := TestRows(rel, domain, x);
      if r in rows {
        var i: nat :| i < |rows| && rows[i] == r;
        assert CaseOrigin(s, r, file, x, i);
      }
      if i: nat :| CaseOrigin(s, r, file, x, i) { assert rows[i] == r; }
    }
  }

  lemma HasTestFunction(file: TestFile, x: Found)
    requires HasTest(file, x)
    ensures x.test.FunctionDef?
  {
  }

  ghost predicate TestOrigin(s: Surfaces, r: Row) {
    (exists file, x :: PlainOrigin(s, r, file, x)) || exists file, x, i: nat :: CaseOrigin(s, r, file, x, i)
  }

  lemma TestFileRowsIff(s: Surfaces, r: Row)
    ensures r in TestFileRows(s.root, s.tests) <==> TestOrigin(s, r)
  {
    hide DomainForPath, TestRows, PlainOrigin, CaseOrigin, HasTest, TestFileRows, RowsOf, FoundIn;
    TestFileMember(s.root, s.tests, r);
    if r in TestFileRows(s.root, s.tests) {
      var n :| 0 <= n < |s.tests| && r in FileRows(s.root, s.tests[n]);
      var file := s.tests[n];
      var rel := "tests/" + file.name;
      var found := FoundIn(file.tree);
      RowsOfMember(rel, DomainForPath(s.root + "/" + rel), found, r);
      var m :| 0 <= m < |found| && r in TestRows(rel, DomainForPath(s.root + "/" + rel), found[m]);
      HasTestFound(file, found[m]);
      TestRowsMember(s, file, found[m], r);
    }
    if file, x :| PlainOrigin(s, r, file, x) {
      OriginFile(s, r, file, x, 0);
      TestIsListed(s, file, x, r);
    }
    if file, x, i: nat :| CaseOrigin(s, r, file, x, i) {
      OriginFile(s, r, file, x, i);
      TestIsListed(s, file, x, r);
    }
  }

  lemma OriginFile(s: Surfaces, r: Row, file: TestFile, x: Found, i: nat)
    requires PlainOrigin(s, r, file, x) || CaseOrigin(s, r, file, x, i)
    ensures file in s.tests && HasTest(file, x)
  {
  }

  lemma TestIsListed(s: Surfaces, file: TestFile, x: Found, r: Row)
    requires file in s.tests && HasTest(file, x)
    requires PlainOrigin(s, r, file, x) || exists i: nat :: CaseOrigin(s, r, file, x, i)
    ensures r in TestFileRows(s.root, s.tests)
  {
    hide DomainForPath, TestRows, PlainOrigin, CaseOrigin, HasTest, TestFileRows, RowsOf, FoundIn;
    var n :| 0 <= n < |s.tests| && s.tests[n] == file;
    var rel := "tests/" + file.name;
    var found := FoundIn(file.tree);
    HasTestFound(file, x);
    TestRowsMember(s, file, x, r);
    RowsOfMember(rel, DomainForPath(s.root + "/" + rel), found, r);
    TestFileMember(s.root, s.tests, r);
  }

  // ---------------------------------------------------------------- the other extractors

  lemma ContractText(name: string)
    ensures var rel := "docs/contracts/" + name;
            ContractRow(name) == Row("contract::" + rel, Governance, rel, ContractValidation)
  {
    assert "contract" + "::" == "contract::";
  }

  lemma WorkflowText(name: string)
    ensures var rel := ".github/workflows/" + name;
            WorkflowRow(name) == Row("workflow::" + rel, Reliability, rel, WorkflowExecution)
  {
    assert "workflow" + "::" == "workflow::";
  }

  lemma ModuleText(root: string, name: string)
    ensures var rel := "src/sdetkit/" + name;
            ModuleRow(root)(name) == Row("module::" + rel, DomainForPath(root + "/" + rel), rel, ModuleSurface)
  {
    hide DomainForPath;
    assert "module" + "::" == "module::";
  }

  lemma ScriptText(root: string, name: string)
    ensures var rel := "scripts/" + name;
            ScriptRow(root)(name) == Row("script::" + rel, DomainForPath(root + "/" + rel), rel, AutomationScript)
  {
    hide DomainForPath;
    assert "script" + "::" == "script::";
  }

  lemma AgentText(name: string)
    ensures var rel := "templates/automations/" + name;
            AgentRow(name) == Row("reviewer-agent::" + rel, Reliability, rel, ReviewerAgent)
  {
    assert "reviewer-agent" + "::" == "reviewer-agent::";
  }

  lemma DocOrigins(s: Surfaces, r: Row)
    ensures r in Concat(Map(DocRows, s.docs)) <==>
            exists doc, command :: doc in s.docs && DocOrigin(r, doc, command)
  {
    hide DocRows;
    ConcatMember(Map(DocRows, s.docs), r);
    if r in Concat(Map(DocRows, s.docs)) {
      var n :| 0 <= n < |s.docs| && r in Map(DocRows, s.docs)[n];
      DocRowsMember(s.docs[n], r);
    }
    if doc, command :| doc in s.docs && DocOrigin(r, doc, command) {
      DocRowsMember(doc, r);
      var n :| 0 <= n < |s.docs| && s.docs[n] == doc;
      assert r in Map(DocRows, s.docs)[n];
    }
  }

  lemma DocRowsMember(doc: Doc, r: Row)
    ensures r in DocRows(doc) <==> exists command :: DocOrigin(r, doc, command)
  {
    var commands := SortedSet(doc.commands);
    if r in DocRows(doc) {
      var i :| 0 <= i < |DocRows(doc)| && DocRows(doc)[i] == r;
      assert commands[i] in Elements(commands);
      assert DocOrigin(r, doc, commands[i]);
    }
    if command :| DocOrigin(r, doc, command) {
      assert command in Elements(commands);
      var i :| 0 <= i < |commands| && commands[i] == command;
      assert DocRows(doc)[i] == r;
    }
  }

  /** The events before the extractor deduplicates them. */
  lemma EventOrigins(s: Surfaces, r: Row)
    ensures r in EventRows(s.events) ==> EventOrigin(s, r)
    ensures EventOrigin(s, r) ==> exists q :: q in EventRows(s.events) && q.id == r.id
  {
    hide Dedup, LastWith;
    if s.events.Some? {
      var kept := Filter(HasSlug, s.events.value);
      var rows := if kept == [] then [BootstrapRow()] else Map(EventRow, kept);
      assert EventRows(s.events) == Dedup(rows);
      forall e ensures e in kept <==> e in s.events.value && e.slug != [] { FilterMember(HasSlug, s.events.value, e); }
      BootstrapText();
      assert kept == [] <==> forall e :: e in s.events.value ==> e.slug == [] by {
        if kept != [] { assert kept[0] in kept; }
      }
      DedupMember(rows, r);
      if EventOrigin(s, r) {
        assert r in rows by {
          if kept != [] {
            var e :| e in s.events.value && e.slug != [] && EventRow(e) == r;
            MapMember(EventRow, kept, r);
          }
        }
      }
      if r in rows && kept != [] { MapMember(EventRow, kept, r); }
    }
  }

  lemma BootstrapText()
    ensures BootstrapRow() ==
            Row("mistake-event::bootstrap::no_failure_signals_yet", Quality, "docs/artifacts", MistakeEvent)
  {
    assert "mistake-event::" + "bootstrap" + "::" == "mistake-event::bootstrap::";
    assert "mistake-event::bootstrap::" + "no_failure_signals_yet" ==
           "mistake-event::bootstrap::no_failure_signals_yet";
  }

  /** Deduplication keeps no other rows, and one row for every id. */
  lemma DedupMember(rows: seq<Row>, r: Row)
    ensures r in Dedup(rows) ==> r in rows
    ensures r in rows ==> exists q :: q in Dedup(rows) && q in rows && q.id == r.id
  {
    hide Dedup, LastWith;
    DedupShape(rows);
    LastWithMember(rows, r.id);
    if r in rows {
      var q := LastWith(rows, r.id).value;
      assert q in Dedup(rows);
    }
  }

  // ---------------------------------------------------------------- all entries

  lemma EntryParts(s: Surfaces, r: Row)
    ensures r in Entries(s) <==>
            || r in TestFileRows(s.root, s.tests) || r in Map(ContractRow, s.contracts)
            || r in Map(WorkflowRow, s.workflows) || r in Map(ModuleRow(s.root), s.modules)
            || r in Map(ScriptRow(s.root), s.scripts) || r in Concat(Map(DocRows, s.docs)) || r in Matrices()
            || r in Map(AgentRow, Filter(IsReviewer, s.automations)) || r in EventRows(s.events)
            || r in Dedup(Map(FactRow, s.facts))
  {
    hide TestFileRows, Concat, Matrices, EventRows, Dedup, Filter;
    hide ContractRow, WorkflowRow, ModuleRow, ScriptRow, AgentRow, FactRow, DocRows;
  }

  lemma ListingMembers(s: Surfaces, r: Row)
    ensures r in Map(ContractRow, s.contracts) <==> r.kind == ContractValidation && Origin(s, r)
    ensures r in Map(WorkflowRow, s.workflows) <==> r.kind == WorkflowExecution && Origin(s, r)
    ensures r in Map(ModuleRow(s.root), s.modules) <==> r.kind == ModuleSurface && Origin(s, r)
    ensures r in Map(ScriptRow(s.root), s.scripts) <==> r.kind == AutomationScript && Origin(s, r)
    ensures r in Map(AgentRow, Filter(IsReviewer, s.automations)) <==> r.kind == ReviewerAgent && Origin(s, r)
  {
    hide ContractRow, WorkflowRow, ModuleRow, ScriptRow, AgentRow, Filter, Origin;
    ContractMembers(s, r);
    WorkflowMembers(s, r);
    ModuleMembers(s, r);
    ScriptMembers(s, r);
    AgentMembers(s, r);
  }

  lemma ContractMembers(s: Surfaces, r: Row)
    ensures r in Map(ContractRow, s.contracts) <==> r.kind == ContractValidation && Origin(s, r)
  {
    hide ContractRow, DomainForPath;
    hide HasTest, Cases, PlainOrigin, CaseOrigin, DocOrigin, EventOrigin, ReviewerAt, PrAt;
    MapMember(ContractRow, s.contracts, r);
    forall name: string { ContractText(name); }
  }

  lemma WorkflowMembers(s: Surfaces, r: Row)
    ensures r in Map(WorkflowRow, s.workflows) <==> r.kind == WorkflowExecution && Origin(s, r)
  {
    hide WorkflowRow, DomainForPath;
    hide HasTest, Cases, PlainOrigin, CaseOrigin, DocOrigin, EventOrigin, ReviewerAt, PrAt;
    MapMember(WorkflowRow, s.workflows, r);
    forall name: string { WorkflowText(name); }
  }

  lemma ModuleMembers(s: Surfaces, r: Row)
    ensures r in Map(ModuleRow(s.root), s.modules) <==> r.kind == ModuleSurface && Origin(s, r)
  {
    hide ModuleRow, DomainForPath;
    hide HasTest, Cases, PlainOrigin, CaseOrigin, DocOrigin, EventOrigin, ReviewerAt, PrAt;
    MapMember(ModuleRow(s.root), s.modules, r);
    forall name: string { ModuleText(s.root, name); }
  }

  lemma ScriptMembers(s: Surfaces, r: Row)
    ensures r in Map(ScriptRow(s.root), s.scripts) <==> r.kind == AutomationScript && Origin(s, r)
  {
    hide ScriptRow, DomainForPath;
    hide HasTest, Cases, PlainOrigin, CaseOrigin, DocOrigin, EventOrigin, ReviewerAt, PrAt;
    MapMember(ScriptRow(s.root), s.scripts, r);
    forall name: string { ScriptText(s.root, name); }
  }

  lemma AgentMembers(s: Surfaces, r: Row)
    ensures r in Map(AgentRow, Filter(IsReviewer, s.automations)) <==> r.kind == ReviewerAgent && Origin(s, r)
  {
    hide AgentRow, DomainForPath, Filter, IsReviewer;
    hide HasTest, Cases, PlainOrigin, CaseOrigin, DocOrigin, EventOrigin, ReviewerAt, PrAt;
    MapMember(AgentRow, Filter(IsReviewer, s.automations), r);
    forall name: string { AgentText(name); }
    forall name { FilterMember(IsReviewer, s.automations, name); }
  }

  lemma FactMembers(s: Surfaces, r: Row)
    ensures r in Map(FactRow, s.facts) <==> r.kind == PrOutcome && Origin(s, r)
  {
    hide DomainForPath, PlainOrigin, CaseOrigin, DocOrigin, EventOrigin, ReviewerAt, PrAt;
    MapMember(FactRow, s.facts, r);
  }

  lemma MatrixMembers(s: Surfaces, r: Row)
    ensures r in Matrices() <==> IsMatrixKind(r.kind) && Origin(s, r)
  {
    hide DomainForPath, PlainOrigin, CaseOrigin, DocOrigin, EventOrigin, ReviewerAt, PrAt;
    MatrixMember(r);
    forall k: nat { MatrixKinds(k); }
  }

  lemma TestMembers(s: Surfaces, r: Row)
    ensures r in TestFileRows(s.root, s.tests) <==>
            (r.kind == TestFunction || r.kind == ParametrizedCase) && Origin(s, r)
  {
    hide DomainForPath, HasTest, DocOrigin, EventOrigin, ReviewerAt, PrAt, TestFileRows;
    TestFileRowsIff(s, r);
  }

  lemma DocMembers(s: Surfaces, r: Row)
    ensures r in Concat(Map(DocRows, s.docs)) <==> r.kind == DocsCommand && Origin(s, r)
  {
    hide DomainForPath, PlainOrigin, CaseOrigin, EventOrigin, ReviewerAt, PrAt, DocRows, Concat;
    DocOrigins(s, r);
  }

  lemma EventKind(s: Surfaces, r: Row)
    requires EventOrigin(s, r)
    ensures r.kind == MistakeEvent && Origin(s, r)
  {
  }

  lemma EntryOrigin(s: Surfaces, r: Row)
    requires r in Entries(s)
    ensures Origin(s, r)
  {
    hide Origin, EventOrigin, Entries, TestFileRows, Matrices, EventRows, Dedup, Filter, Concat;
    hide ContractRow, WorkflowRow, ModuleRow, ScriptRow, AgentRow, FactRow, DocRows;
    EntryParts(s, r);
    TestMembers(s, r);
    ListingMembers(s, r);
    DocMembers(s, r);
    MatrixMembers(s, r);
    EventOrigins(s, r);
    if EventOrigin(s, r) { EventKind(s, r); }
    DedupMember(Map(FactRow, s.facts), r);
    FactMembers(s, r);
  }

  lemma OriginEntry(s: Surfaces, r: Row)
    requires Origin(s, r)
    ensures exists q :: q in Entries(s) && q.id == r.id
  {
    hide Origin, EventOrigin, Entries, TestFileRows, Matrices, EventRows, Dedup, Filter, Concat;
    hide ContractRow, WorkflowRow, ModuleRow, ScriptRow, AgentRow, FactRow, DocRows;
    EntryParts(s, r);
    TestMembers(s, r);
    ListingMembers(s, r);
    DocMembers(s, r);
    MatrixMembers(s, r);
    if r.kind == MistakeEvent {
      assert EventOrigin(s, r) by { EventOfOrigin(s, r); }
      EventOrigins(s, r);
      var q :| q in EventRows(s.events) && q.id == r.id;
      EntryParts(s, q);
    } else if r.kind == PrOutcome {
      FactMembers(s, r);
      DedupMember(Map(FactRow, s.facts), r);
      var q :| q in Dedup(Map(FactRow, s.facts)) && q.id == r.id;
      EntryParts(s, q);
    } else {
      assert r in Entries(s);
    }
  }

  lemma EventOfOrigin(s: Surfaces, r: Row)
    requires Origin(s, r) && r.kind == MistakeEvent
    ensures EventOrigin(s, r)
  {
    hide EventOrigin;
  }

  // ---------------------------------------------------------------- the database

  /** Rows with the same id come from the same extractor. */
  predicate SameExtractor(a: Kind, b: Kind) {
    a == b || (IsTestKind(a) && IsTestKind(b))
  }

  predicate IsTestKind(kind: Kind) { kind == TestFunction || kind == ParametrizedCase }

  /**
   The database has exactly the ids that the extractors list, each under the extractor that lists it, and every row is
   one that its extractor lists.
   */
  lemma DatabaseRows(s: Surfaces, r: Row)
    ensures r in DatabaseOf(s).rows ==> Origin(s, r)
    ensures Origin(s, r) ==> exists q :: q in DatabaseOf(s).rows && q.id == r.id && SameExtractor(q.kind, r.kind)
  {
    hide Entries, Dedup, Origin;
    DedupMember(Entries(s), r);
    if r in Entries(s) { EntryOrigin(s, r); }
    if Origin(s, r) {
      OriginEntry(s, r);
      var x :| x in Entries(s) && x.id == r.id;
      DedupMember(Entries(s), x);
      var q :| q in Dedup(Entries(s)) && q in Entries(s) && q.id == x.id;
      EntryOrigin(s, q);
      SameIdSameKind(s, q, r);
    }
  }

  lemma OriginForeign(s: Surfaces, r: Row)
    requires Origin(s, r) && !IsMatrixKind(r.kind)
    ensures Foreign(r)
  {
    hide Origin, EventOrigin, Foreign, TestFileRows, Filter, Concat;
    hide ContractRow, WorkflowRow, ModuleRow, ScriptRow, AgentRow, FactRow, DocRows;
    if r.kind == MistakeEvent {
      EventOfOrigin(s, r);
      EventForeign(s, r);
    } else if r.kind == PrOutcome {
      FactMembers(s, r);
      MapMember(FactRow, s.facts, r);
      var f :| f in s.facts && FactRow(f) == r;
      FactForeign(f);
    } else if r.kind == ReviewerAgent {
      ListingMembers(s, r);
      MapMember(AgentRow, Filter(IsReviewer, s.automations), r);
      var name :| AgentRow(name) == r;
      ListingsForeign("", name);
    } else {
      TestMembers(s, r);
      ListingMembers(s, r);
      DocMembers(s, r);
      BeforeForeign(s);
      assert r in Before(s);
    }
  }

  lemma EventStart(e: Event)
    ensures |EventRow(e).id| >= 2 && EventRow(e).id[..2] == "mi"
  {
  }

  lemma EventForeign(s: Surfaces, r: Row)
    requires EventOrigin(s, r)
    ensures Foreign(r)
  {
    BootstrapText();
    if r == BootstrapRow() {
      EventStart(Event("bootstrap", "no_failure_signals_yet", Quality));
    } else {
      var e :| e in s.events.value && EventRow(e) == r;
      EventStart(e);
    }
  }

  lemma SameIdSameKind(s: Surfaces, q: Row, r: Row)
    requires Origin(s, q) && Origin(s, r) && q.id == r.id
    ensures SameExtractor(q.kind, r.kind)
  {
    hide Origin, Matrices;
    MatrixMembers(s, q);
    MatrixMembers(s, r);
    if q in Matrices() { MatrixRowShape(q); } else { OriginForeign(s, q); ForeignHead(q); }
    if r in Matrices() { MatrixRowShape(r); } else { OriginForeign(s, r); ForeignHead(r); }
    if q in Matrices() && r in Matrices() { MatrixIdsUnique(q, r); }
  }

  /** A row that is the only one its extractors list under its id is in the database as it is. */
  lemma OnlyOrigin(s: Surfaces, r: Row)
    requires Origin(s, r) && forall q :: Origin(s, q) && q.id == r.id ==> q == r
    ensures r in DatabaseOf(s).rows
  {
    hide DatabaseOf, Origin;
    DatabaseRows(s, r);
    var q :| q in DatabaseOf(s).rows && q.id == r.id;
    DatabaseRows(s, q);
  }

  /** What a directory lists is in the database with the domain and source of its extractor. */
  lemma ListingsKept(s: Surfaces, name: string)
    ensures name in s.contracts ==>
              var rel := "docs/contracts/" + name;
              Row("contract::" + rel, Governance, rel, ContractValidation) in DatabaseOf(s).rows
    ensures name in s.workflows ==>
              var rel := ".github/workflows/" + name;
              Row("workflow::" + rel, Reliability, rel, WorkflowExecution) in DatabaseOf(s).rows
    ensures name in s.modules ==>
              var rel := "src/sdetkit/" + name;
              Row("module::" + rel, DomainForPath(s.root + "/" + rel), rel, ModuleSurface) in DatabaseOf(s).rows
    ensures name in s.scripts ==>
              var rel := "scripts/" + name;
              Row("script::" + rel, DomainForPath(s.root + "/" + rel), rel, AutomationScript) in DatabaseOf(s).rows
    ensures name in s.automations && IsReviewer(name) ==>
              var rel := "templates/automations/" + name;
              Row("reviewer-agent::" + rel, Reliability, rel, ReviewerAgent) in DatabaseOf(s).rows
  {
    hide DatabaseOf, Origin, DomainForPath, IsReviewer;
    if name in s.contracts { ContractKept(s, name); }
    if name in s.workflows { WorkflowKept(s, name); }
    if name in s.modules { ModuleKept(s, name); }
    if name in s.scripts { ScriptKept(s, name); }
    if name in s.automations && IsReviewer(name) { AgentKept(s, name); }
  }

  lemma ContractKept(s: Surfaces, name: string)
    requires name in s.contracts
    ensures var rel := "docs/contracts/" + name;
            Row("contract::" + rel, Governance, rel, ContractValidation) in DatabaseOf(s).rows
  {
    hide DatabaseOf;
    var rel := "docs/contracts/" + name;
    ListedKept(s, Row("contract::" + rel, Governance, rel, ContractValidation));
  }

  lemma WorkflowKept(s: Surfaces, name: string)
    requires name in s.workflows
    ensures var rel := ".github/workflows/" + name;
            Row("workflow::" + rel, Reliability, rel, WorkflowExecution) in DatabaseOf(s).rows
  {
    hide DatabaseOf;
    var rel := ".github/workflows/" + name;
    ListedKept(s, Row("workflow::" + rel, Reliability, rel, WorkflowExecution));
  }

  lemma ModuleKept(s: Surfaces, name: string)
    requires name in s.modules
    ensures var rel := "src/sdetkit/" + name;
            Row("module::" + rel, DomainForPath(s.root + "/" + rel), rel, ModuleSurface) in DatabaseOf(s).rows
  {
    hide DatabaseOf, DomainForPath;
    var rel := "src/sdetkit/" + name;
    ListedKept(s, Row("module::" + rel, DomainForPath(s.root + "/" + rel), rel, ModuleSurface));
  }

  lemma ScriptKept(s: Surfaces, name: string)
    requires name in s.scripts
    ensures var rel := "scripts/" + name;
            Row("script::" + rel, DomainForPath(s.root + "/" + rel), rel, AutomationScript) in DatabaseOf(s).rows
  {
    hide DatabaseOf, DomainForPath;
    var rel := "scripts/" + name;
    ListedKept(s, Row("script::" + rel, DomainForPath(s.root + "/" + rel), rel, AutomationScript));
  }

  lemma AgentKept(s: Surfaces, name: string)
    requires name in s.automations && IsReviewer(name)
    ensures var rel := "templates/automations/" + name;
            Row("reviewer-agent::" + rel, Reliability, rel, ReviewerAgent) in DatabaseOf(s).rows
  {
    hide DatabaseOf, IsReviewer;
    var rel := "templates/automations/" + name;
    ListedKept(s, Row("reviewer-agent::" + rel, Reliability, rel, ReviewerAgent));
  }

  predicate IsListing(kind: Kind) {
    kind == ContractValidation || kind == WorkflowExecution || kind == ModuleSurface || kind == AutomationScript ||
    kind == ReviewerAgent
  }

  lemma ListedKept(s: Surfaces, r: Row)
    requires IsListing(r.kind) && Origin(s, r)
    ensures r in DatabaseOf(s).rows
  {
    hide DatabaseOf, Origin, DomainForPath;
    forall q | Origin(s, q) && q.id == r.id ensures q == r {
      SameIdSameKind(s, q, r);
      SameListing(s, q, r);
    }
    OnlyOrigin(s, r);
  }

  lemma SameListing(s: Surfaces, q: Row, r: Row)
    requires IsListing(r.kind) && Origin(s, q) && Origin(s, r) && q.kind == r.kind && q.id == r.id
    ensures q == r
  {
    hide DomainForPath, IsReviewer;
    match r.kind
    case ContractValidation => SameTail("contract::", q.source, r.source);
    case WorkflowExecution => SameTail("workflow::", q.source, r.source);
    case ModuleSurface => SameTail("module::", q.source, r.source);
    case AutomationScript => SameTail("script::", q.source, r.source);
    case ReviewerAgent => SameTail("reviewer-agent::", q.source, r.source);
    case _ =>
  }

  lemma SameTail(head: string, a: string, b: string)
    requires head + a == head + b
    ensures a == b
  {
    assert a == (head + a)[|head|..] && b == (head + b)[|head|..];
  }

  // ---------------------------------------------------------------- counts

  /** The ids that the extractor of a kind lists, for all kinds except the two of the tests. */
  ghost function Listed(s: Surfaces, kind: Kind): set<string>
    requires !IsTestKind(kind)
  {
    match kind
    case ContractValidation => set name | name in s.contracts :: "contract::" + ("docs/contracts/" + name)
    case WorkflowExecution => set name | name in s.workflows :: "workflow::" + (".github/workflows/" + name)
    case ModuleSurface => set name | name in s.modules :: "module::" + ("src/sdetkit/" + name)
    case AutomationScript => set name | name in s.scripts :: "script::" + ("scripts/" + name)
    case DocsCommand => set doc, command | doc in s.docs && command in doc.commands ::
                          "docs-command::docs/" + doc.name + "::" + command
    case ReviewerMatrix => set k: nat | k < REVIEWER_ROWS :: ReviewerAt(k).id
    case PrReviewerMatrix => set k: nat | k < PR_ROWS :: PrAt(k).id
    case ReviewerAgent => set name | name in s.automations && IsReviewer(name) ::
                            "reviewer-agent::" + ("templates/automations/" + name)
    case MistakeEvent => EventIds(s)
    case PrOutcome => set f | f in s.facts :: "pr-outcome::" + f.source + "::" + f.text
  }

  ghost function EventIds(s: Surfaces): set<string> {
    if s.events.None? then {}
    else if forall e :: e in s.events.value ==> e.slug == [] then {"mistake-event::bootstrap::no_failure_signals_yet"}
    else set e | e in s.events.value && e.slug != [] :: "mistake-event::" + e.source + "::" + e.slug
  }

  function TestIdsOf(file: TestFile, x: Found): set<string>
    requires x.test.FunctionDef?
  {
    if Cases(x.test) == 1 then {TestId(file, x.path, x.test.name)}
    else set i: nat | i < Cases(x.test) :: CaseId(file, x.path, x.test.name, i)
  }

  /** The ids of the tests and of the cases of parametrized tests. */
  ghost function TestIds(s: Surfaces): set<string> {
    set file, x, id | file in s.tests && x in FoundIn(file.tree) && id in TestIdsOf(file, x) :: id
  }

  lemma OriginListed(s: Surfaces, r: Row)
    requires !IsTestKind(r.kind) && Origin(s, r)
    ensures r.id in Listed(s, r.kind)
  {
    hide DomainForPath, IsReviewer, ReviewerAt, PrAt;
  }

  lemma ListedOrigin(s: Surfaces, kind: Kind, id: string) returns (r: Row)
    requires !IsTestKind(kind) && id in Listed(s, kind)
    ensures Origin(s, r) && r.kind == kind && r.id == id
  {
    hide DomainForPath, IsReviewer, ReviewerAt, PrAt;
    match kind
    case ContractValidation =>
      var name :| name in s.contracts && id == "contract::" + ("docs/contracts/" + name);
      r := Row(id, Governance, "docs/contracts/" + name, kind);
    case WorkflowExecution =>
      var name :| name in s.workflows && id == "workflow::" + (".github/workflows/" + name);
      r := Row(id, Reliability, ".github/workflows/" + name, kind);
    case ModuleSurface =>
      var name :| name in s.modules && id == "module::" + ("src/sdetkit/" + name);
      r := Row(id, DomainForPath(s.root + "/" + ("src/sdetkit/" + name)), "src/sdetkit/" + name, kind);
    case AutomationScript =>
      var name :| name in s.scripts && id == "script::" + ("scripts/" + name);
      r := Row(id, DomainForPath(s.root + "/" + ("scripts/" + name)), "scripts/" + name, kind);
    case DocsCommand =>
      var doc, command :| doc in s.docs && command in doc.commands
                          && id == "docs-command::docs/" + doc.name + "::" + command;
      r := Row(id, Reliability, "docs/" + doc.name, kind);
      assert DocOrigin(r, doc, command);
    case ReviewerMatrix =>
      var k: nat :| k < REVIEWER_ROWS && id == ReviewerAt(k).id;
      MatrixKinds(k);
      r := ReviewerAt(k);
    case PrReviewerMatrix =>
      var k: nat :| k < PR_ROWS && id == PrAt(k).id;
      MatrixKinds(k);
      r := PrAt(k);
    case ReviewerAgent =>
      var name :| name in s.automations && IsReviewer(name) &&
                  id == "reviewer-agent::" + ("templates/automations/" + name);
      r := Row(id, Reliability, "templates/automations/" + name, kind);
    case MistakeEvent =>
      r := ListedEvent(s, id);
    case PrOutcome =>
      var f :| f in s.facts && id == "pr-outcome::" + f.source + "::" + f.text;
      r := Row(id, f.domain, f.source, kind);
  }

  lemma ListedEvent(s: Surfaces, id: string) returns (r: Row)
    requires id in EventIds(s)
    ensures EventOrigin(s, r) && Origin(s, r) && r.kind == MistakeEvent && r.id == id
  {
    if forall e :: e in s.events.value ==> e.slug == [] {
      r := Row(id, Quality, "docs/artifacts", MistakeEvent);
    } else {
      var e :| e in s.events.value && e.slug != [] && id == "mistake-event::" + e.source + "::" + e.slug;
      r := Row(id, e.domain, e.source, MistakeEvent);
    }
  }

  lemma TestIdOrigin(s: Surfaces, id: string)
    ensures id in TestIds(s) <==> exists r :: Origin(s, r) && IsTestKind(r.kind) && r.id == id
  {
    hide DomainForPath, Cases, HasTest, FoundIn, Join, Decimal;
    if id in TestIds(s) {
      var file, x :| file in s.tests && x in FoundIn(file.tree) && id in TestIdsOf(file, x);
      var rel := "tests/" + file.name;
      var domain := DomainForPath(s.root + "/" + rel);
      HasTestFound(file, x);
      if Cases(x.test) == 1 {
        var r := Row(id, domain, rel, TestFunction);
        assert PlainOrigin(s, r, file, x);
        assert Origin(s, r);
      } else {
        var i: nat :| i < Cases(x.test) && id == CaseId(file, x.path, x.test.name, i);
        var r := Row(id, domain, rel, ParametrizedCase);
        assert CaseOrigin(s, r, file, x, i);
        assert Origin(s, r);
      }
    }
    if r :| Origin(s, r) && IsTestKind(r.kind) && r.id == id {
      if file, x :| PlainOrigin(s, r, file, x) {
        HasTestFound(file, x);
        assert id in TestIdsOf(file, x);
      } else {
        var file, x, i: nat :| CaseOrigin(s, r, file, x, i);
        HasTestFound(file, x);
        assert id in TestIdsOf(file, x);
      }
    }
  }

  /** Rows with distinct ids are as many as their ids. */
  lemma CountIds(rows: seq<Row>, p: Row -> bool, ids: set<string>)
    requires Ascending(Map(IdOf, rows))
    requires forall id :: id in ids <==> exists r: Row :: r in rows && p(r) && r.id == id
    ensures |Filter(p, rows)| == |ids|
  {
    hide Ascending, StrLeq;
    var kept := Filter(p, rows);
    AscendingDistinct(Map(IdOf, rows));
    FilterKeepsKeys(p, IdOf, rows);
    DistinctCounts(Map(IdOf, kept));
    forall id ensures id in Elements(Map(IdOf, kept)) <==> id in ids {
      MapMember(IdOf, kept, id);
      forall r { FilterMember(p, rows, r); }
    }
    assert Elements(Map(IdOf, kept)) == ids;
  }

  lemma KindCount(s: Surfaces, kind: Kind)
    requires !IsTestKind(kind)
    ensures CountOf(DatabaseOf(s).rows, kind) == |Listed(s, kind)|
  {
    hide Origin, Entries, Listed, Filter, DatabaseOf, Equals;
    var rows, p := DatabaseOf(s).rows, Equals(KindOf, kind);
    RowsAscend(s);
    forall r: Row ensures p(r) == (r.kind == kind) { EqualsHolds(KindOf, kind, r); }
    forall id ensures id in Listed(s, kind) <==> exists r :: r in rows && p(r) && r.id == id {
      if id in Listed(s, kind) {
        var r := ListedOrigin(s, kind, id);
        DatabaseRows(s, r);
        var q :| q in rows && q.id == r.id && SameExtractor(q.kind, r.kind);
        assert p(q);
      }
      if r :| r in rows && p(r) && r.id == id {
        DatabaseRows(s, r);
        OriginListed(s, r);
      }
    }
    CountIds(rows, p, Listed(s, kind));
  }

  lemma RowsAscend(s: Surfaces)
    ensures Ascending(Map(IdOf, DatabaseOf(s).rows))
  {
    hide Entries, Dedup, Ascending;
    DedupShape(Entries(s));
  }

  /** Each kind is counted as often as its extractor lists a new id: no extractor takes a row from another. */
  lemma KindCounts(s: Surfaces, k: nat)
    requires k < |KINDS| && !IsTestKind(KINDS[k])
    ensures DatabaseOf(s).kinds[k] == |Listed(s, KINDS[k])|
  {
    hide Listed, DatabaseOf, CountOf;
    KindAt(s, k);
    KindCount(s, KINDS[k]);
  }

  lemma KindAt(s: Surfaces, k: nat)
    requires k < |KINDS|
    ensures DatabaseOf(s).kinds[k] == CountOf(DatabaseOf(s).rows, KINDS[k])
  {
    hide Entries, Dedup, Having, LearningOf;
  }

  function OfTests(): Row -> bool { (r: Row) => IsTestKind(r.kind) }

  lemma {:induction false} TestKinds(rows: seq<Row>)
    ensures |Filter(OfTests(), rows)| == CountOf(rows, TestFunction) + CountOf(rows, ParametrizedCase)
  {
    if rows != [] {
      TestKinds(rows[..|rows| - 1]);
      HavingStep(rows, KindOf, TestFunction);
      HavingStep(rows, KindOf, ParametrizedCase);
    }
  }

  /** Plain tests and cases together are counted as often as the tests have ids. */
  lemma TestCounts(s: Surfaces)
    ensures DatabaseOf(s).kinds[0] + DatabaseOf(s).kinds[1] == |TestIds(s)|
  {
    hide Origin, Entries, Dedup, TestIds, Filter, Ascending;
    var rows := DatabaseOf(s).rows;
    RowsAscend(s);
    forall id ensures id in TestIds(s) <==> exists r :: r in rows && OfTests()(r) && r.id == id {
      TestIdOrigin(s, id);
      if id in TestIds(s) {
        var r :| Origin(s, r) && IsTestKind(r.kind) && r.id == id;
        DatabaseRows(s, r);
        var q :| q in rows && q.id == r.id && SameExtractor(q.kind, r.kind);
        assert OfTests()(q);
      }
      if r :| r in rows && OfTests()(r) && r.id == id { DatabaseRows(s, r); }
    }
    CountIds(rows, OfTests(), TestIds(s));
    TestKinds(rows);
  }

  /** The learning block counts the outcomes and events of the artifacts. */
  lemma LearningSignals(s: Surfaces, db: Database, outcomes: nat, events: nat)
    requires db == DatabaseOf(s) && outcomes == |Listed(s, PrOutcome)| && events == |Listed(s, MistakeEvent)|
    ensures db.learning.prFeedback == outcomes && db.learning.mistakes == events
    ensures db.learning.total == outcomes + events
    ensures db.learning.precisionReady <==> outcomes >= 5 && events >= 5
  {
    hide Listed, DatabaseOf, CountOf, LearningOf;
    KindCount(s, PrOutcome);
    KindCount(s, MistakeEvent);
    LearningParts(s);
    LearningFields(CountOf(db.rows, PrOutcome), CountOf(db.rows, MistakeEvent));
  }

  lemma LearningParts(s: Surfaces)
    ensures var rows := DatabaseOf(s).rows;
            DatabaseOf(s).learning == LearningOf(CountOf(rows, PrOutcome), CountOf(rows, MistakeEvent))
  {
    hide Entries, Dedup, CountOf, LearningOf, CountBy;
  }

  lemma LearningFields(outcomes: int, events: int)
    ensures var learning := LearningOf(outcomes, events);
            && learning.prFeedback == outcomes && learning.mistakes == events && learning.total == outcomes + events
            && (learning.precisionReady <==> outcomes >= 5 && events >= 5)
  {
    hide RoundHalfEven;
  }

  // ---------------------------------------------------------------- domains and reviewers

  /** The domain of a path: the first of these words that it contains decides, and quality is left. */
  lemma DomainMeans(path: string)
    ensures DomainForPath(path) == Security <==> Contains(path, "security")
    ensures DomainForPath(path) == Release <==>
            !Contains(path, "security") && (Contains(path, "release") || Contains(path, "version"))
    ensures DomainForPath(path) == Governance <==>
            && !Contains(path, "security") && !Contains(path, "release") && !Contains(path, "version")
            && (Contains(path, "repo") || Contains(path, "policy"))
    ensures DomainForPath(path) == Quality <==>
            && !Contains(path, "security") && !Contains(path, "release") && !Contains(path, "version")
            && !Contains(path, "repo") && !Contains(path, "policy") && !Contains(path, "review")
            && !Contains(path, "doctor") && !Contains(path, "adaptive")
  {
    hide Contains;
  }

  /** An automation is a reviewer by its name without the suffix. */
  lemma ReviewerMeans(stem: string)
    ensures IsReviewer(stem + ".yaml") <==>
            Contains(stem, "worker") || Contains(stem, "review") || Contains(stem, "radar")
  {
    hide Contains;
    var name := stem + ".yaml";
    assert name[|name| - 5..] == ".yaml" && name[..|name| - 5] == stem;
  }
}
