/** The scenario database: rows from every surface of a repository, deduplicated by id, and counted. */
module ScenarioDatabase {
  import opened Ordering
  import opened Outcomes
  import opened Text
  import opened TestWalk

  datatype Domain = Security | Release | Governance | Reliability | Quality

  datatype Kind =
    | TestFunction | ParametrizedCase | ContractValidation | WorkflowExecution | ModuleSurface | AutomationScript
    | DocsCommand | ReviewerMatrix | PrReviewerMatrix | ReviewerAgent | MistakeEvent | PrOutcome

  datatype Row = Row(id: string, domain: Domain, source: string, kind: Kind)

  const DOMAINS := [Security, Release, Governance, Reliability, Quality]

  const KINDS := [
    TestFunction, ParametrizedCase, ContractValidation, WorkflowExecution, ModuleSurface, AutomationScript,
    DocsCommand, ReviewerMatrix, PrReviewerMatrix, ReviewerAgent, MistakeEvent, PrOutcome
  ]

  function DomainName(d: Domain): string {
    match d
    case Security => "security"
    case Release => "release"
    case Governance => "governance"
    case Reliability => "reliability"
    case Quality => "quality"
  }

  function DomainForPath(path: string): Domain {
    if Contains(path, "security") then Security
    else if Contains(path, "release") || Contains(path, "version") then Release
    else if Contains(path, "repo") || Contains(path, "policy") then Governance
    else if Contains(path, "review") || Contains(path, "doctor") || Contains(path, "adaptive") then Reliability
    else Quality
  }

  function IdOf(r: Row): string { r.id }
  function DomainOf(r: Row): Domain { r.domain }
  function KindOf(r: Row): Kind { r.kind }

  // ---------------------------------------------------------------- texts

  /** `"::".join(fields)` */
  function Join(fields: seq<string>): string {
    if fields == [] then [] else if |fields| == 1 then fields[0] else fields[0] + "::" + Join(fields[1..])
  }

  lemma CutAtColon(a: string, x: string, b: string, y: string)
    requires ':' !in a && ':' !in b
    requires a + "::" + x == b + "::" + y
    ensures a == b && x == y
  {
    assert a + "::" + x == a + [':'] + (":" + x) && b + "::" + y == b + [':'] + (":" + y);
    CutAt(':', a, ":" + x, b, ":" + y);
    assert x == (":" + x)[1..] && y == (":" + y)[1..];
  }

  lemma {:induction false} JoinInjective(f: seq<string>, g: seq<string>)
    requires |f| == |g| && Join(f) == Join(g)
    requires forall i :: 0 <= i < |f| ==> ':' !in f[i] && ':' !in g[i]
    ensures f == g
  {
    if |f| > 1 {
      CutAtColon(f[0], Join(f[1..]), g[0], Join(g[1..]));
      JoinInjective(f[1..], g[1..]);
      assert f == [f[0]] + f[1..] && g == [g[0]] + g[1..];
    }
  }

  // ---------------------------------------------------------------- rows of test files

  datatype TestFile = TestFile(name: string, tree: Option<Node>)

  function BaseId(rel: string, x: Found): string
    requires x.test.FunctionDef?
  {
    rel + "::" + Join(x.path + [x.test.name])
  }

  function CaseRow(rel: string, domain: Domain, x: Found, i: nat): Row
    requires x.test.FunctionDef?
  {
    Row(BaseId(rel, x) + "[case-" + Decimal(i + 1) + "]", domain, rel, ParametrizedCase)
  }

  /** One row for a plain test, one numbered row per case for a parametrized one. */
  function TestRows(rel: string, domain: Domain, x: Found): seq<Row>
    requires x.test.FunctionDef?
  {
    if Cases(x.test) == 1 then [Row(BaseId(rel, x), domain, rel, TestFunction)]
    else seq(Cases(x.test), i requires 0 <= i < Cases(x.test) => CaseRow(rel, domain, x, i))
  }

  function RowsOf(rel: string, domain: Domain, found: seq<Found>): seq<Row>
    requires forall i :: 0 <= i < |found| ==> found[i].test.FunctionDef?
  {
    if found == [] then []
    else RowsOf(rel, domain, found[..|found| - 1]) + TestRows(rel, domain, found[|found| - 1])
  }

  lemma {:induction false} OnlyTests(node: Node, path: seq<string>)
    ensures forall i :: 0 <= i < |TestNodes(node, path)| ==> TestNodes(node, path)[i].test.FunctionDef?
  {
    forall i | 0 <= i < |TestNodes(node, path)| ensures TestNodes(node, path)[i].test.FunctionDef? {
      var address := WalkFindsAddress(node, path, TestNodes(node, path)[i]);
    }
  }

  function FoundIn(tree: Option<Node>): (found: seq<Found>)
    ensures forall i :: 0 <= i < |found| ==> found[i].test.FunctionDef?
  {
    if tree.None? then [] else OnlyTests(tree.value, []); TestNodes(tree.value, [])
  }

  function FileRows(root: string, file: TestFile): seq<Row> {
    var rel := "tests/" + file.name;
    RowsOf(rel, DomainForPath(root + "/" + rel), FoundIn(file.tree))
  }

  method EmitRows(rel: string, domain: Domain, x: Found, before: seq<Row>) returns (out: seq<Row>)
    requires x.test.FunctionDef?
    ensures out == before + TestRows(rel, domain, x)
  {
    hide Cases, BaseId, CaseRow;
    out := before;
    var cases := ParametrizeCases(x.test);
    if cases == 1 {
      out := out + [Row(BaseId(rel, x), domain, rel, TestFunction)];
    } else {
      for i := 0 to cases
        invariant out == before + TestRows(rel, domain, x)[..i]
      {
        out := out + [CaseRow(rel, domain, x, i)];
      }
      assert TestRows(rel, domain, x)[..cases] == TestRows(rel, domain, x);
    }
  }

  method ExtractTestScenarios(root: string, file: TestFile) returns (out: seq<Row>)
    ensures out == FileRows(root, file)
  {
    hide TestNodes, Cases, DomainForPath, TestRows;
    var rel := "tests/" + file.name;
    out := [];
    if file.tree.None? { return; }
    var domain := DomainForPath(root + "/" + rel);
    var walker := new Walker();
    walker.Walk(file.tree.value);
    var found := walker.found;
    assert found == FoundIn(file.tree) by {
      assert [] + TestNodes(file.tree.value, []) == TestNodes(file.tree.value, []);
    }
    for n := 0 to |found|
      invariant out == RowsOf(rel, domain, found[..n])
    {
      Prefix(found, n);
      out := EmitRows(rel, domain, found[n], out);
    }
    assert found[..|found|] == found;
  }

  function CasesOf(x: Found): int { Cases(x.test) }

  lemma TestRowsCount(rel: string, domain: Domain, x: Found)
    requires x.test.FunctionDef?
    ensures |TestRows(rel, domain, x)| == Cases(x.test)
  {
    hide Cases, BaseId, CaseRow;
  }

  lemma {:induction false} RowsOfCount(rel: string, domain: Domain, found: seq<Found>)
    requires forall i :: 0 <= i < |found| ==> found[i].test.FunctionDef?
    ensures |RowsOf(rel, domain, found)| == Sum(Map(CasesOf, found))
  {
    hide Cases, TestRows;
    if found != [] {
      RowsOfCount(rel, domain, found[..|found| - 1]);
      TestRowsCount(rel, domain, found[|found| - 1]);
      assert Map(CasesOf, found)[..|found| - 1] == Map(CasesOf, found[..|found| - 1]);
    }
  }

  /** A file contributes the sum, over its test functions, of the product of their literal case lists. */
  lemma FileRowCount(root: string, file: TestFile)
    ensures |FileRows(root, file)| == Sum(Map(CasesOf, FoundIn(file.tree)))
  {
    hide DomainForPath, FoundIn;
    var rel := "tests/" + file.name;
    RowsOfCount(rel, DomainForPath(root + "/" + rel), FoundIn(file.tree));
  }

  /** The cases of one test keep distinct ids, so deduplication cannot merge them. */
  lemma CaseIdsDistinct(rel: string, domain: Domain, x: Found)
    requires x.test.FunctionDef?
    ensures Distinct(Map(IdOf, TestRows(rel, domain, x)))
  {
    hide Cases, BaseId;
    var rows := TestRows(rel, domain, x);
    forall i, j | 0 <= i < j < |rows| ensures rows[i].id != rows[j].id {
      var head := BaseId(rel, x) + "[case-";
      if rows[i].id == rows[j].id {
        assert rows[i].id == head + Decimal(i + 1) + "]" && rows[j].id == head + Decimal(j + 1) + "]";
        MiddleEqual(head, Decimal(i + 1), Decimal(j + 1));
        DecimalInjective(i + 1, j + 1);
      }
    }
  }

  lemma MiddleEqual(head: string, a: string, b: string)
    requires head + a + "]" == head + b + "]"
    ensures a == b
  {
    var s, t := head + a + "]", head + b + "]";
    assert a == s[|head|..|s| - 1] && b == t[|head|..|t| - 1];
  }

  // ---------------------------------------------------------------- deduplication

  function Ids(rows: seq<Row>): set<string> { Elements(Map(IdOf, rows)) }

  /** The last row with an id. */
  function LastWith(rows: seq<Row>, id: string): Option<Row> {
    if rows == [] then None
    else if rows[|rows| - 1].id == id then Some(rows[|rows| - 1])
    else LastWith(rows[..|rows| - 1], id)
  }

  lemma {:induction false} LastWithMember(rows: seq<Row>, id: string)
    ensures LastWith(rows, id).Some? ==> LastWith(rows, id).value in rows && LastWith(rows, id).value.id == id
    ensures id in Ids(rows) <==> LastWith(rows, id).Some?
    ensures LastWith(rows, id).Some? <==> exists r: Row :: r in rows && r.id == id
  {
    if rows != [] {
      var front, last := rows[..|rows| - 1], rows[|rows| - 1];
      LastWithMember(front, id);
      assert rows == front + [last];
      assert Map(IdOf, rows) == Map(IdOf, front) + [last.id];
      assert forall r :: r in rows <==> r in front || r == last;
    }
  }

  /** Last wins, sorted by id. */
  function Dedup(rows: seq<Row>): (out: seq<Row>)
    ensures |out| == |SortedSet(Ids(rows))|
  {
    var ids := SortedSet(Ids(rows));
    seq(|ids|, i requires 0 <= i < |ids| =>
      assert ids[i] in Elements(ids);
      LastWithMember(rows, ids[i]);
      LastWith(rows, ids[i]).value)
  }

  function Lookup(m: map<string, Row>, id: string): Option<Row> { if id in m then Some(m[id]) else None }

  method DedupRows(rows: seq<Row>) returns (out: seq<Row>)
    ensures out == Dedup(rows)
  {
    hide Ids, LastWith;
    var dedup: map<string, Row> := map[];
    NoRow();
    for i := 0 to |rows|
      invariant forall id :: Lookup(dedup, id) == LastWith(rows[..i], id)
    {
      ghost var before := dedup;
      dedup := dedup[rows[i].id := rows[i]];
      forall id ensures Lookup(dedup, id) == LastWith(rows[..i + 1], id) {
        LastWithStep(rows, i, id);
        assert Lookup(before, id) == LastWith(rows[..i], id);
      }
    }
    assert rows[..|rows|] == rows;
    forall id ensures id in dedup.Keys <==> id in Ids(rows) {
      LastWithMember(rows, id);
      assert Lookup(dedup, id) == LastWith(rows, id);
    }
    var ids := SortedSet(dedup.Keys);
    assert dedup.Keys == Ids(rows);
    forall i | 0 <= i < |ids| ensures ids[i] in dedup && Lookup(dedup, ids[i]) == LastWith(rows, ids[i]) {
      assert ids[i] in Elements(ids);
    }
    out := seq(|ids|, i requires 0 <= i < |ids| => dedup[ids[i]]);
  }

  lemma LastWithStep(rows: seq<Row>, i: nat, id: string)
    requires i < |rows|
    ensures LastWith(rows[..i + 1], id) == if rows[i].id == id then Some(rows[i]) else LastWith(rows[..i], id)
  {
    Prefix(rows, i);
  }

  lemma NoRow()
    ensures forall id :: LastWith([], id) == None
  {
  }

  /** The result holds exactly the last row of every id, in strictly increasing order of ids. */
  lemma DedupShape(rows: seq<Row>)
    ensures Ascending(Map(IdOf, Dedup(rows)))
    ensures Distinct(Dedup(rows))
    ensures forall r: Row :: r in Dedup(rows) <==> LastWith(rows, r.id) == Some(r)
  {
    hide LastWith, StrLeq, Ids;
    var ids, out := SortedSet(Ids(rows)), Dedup(rows);
    forall i | 0 <= i < |out| ensures out[i].id == ids[i] && LastWith(rows, ids[i]) == Some(out[i]) {
      assert ids[i] in Elements(ids);
      LastWithMember(rows, ids[i]);
    }
    assert Map(IdOf, out) == ids;
    forall i, j | 0 <= i < j < |out| ensures out[i] != out[j] { assert ids[i] != ids[j]; }
    forall r: Row | LastWith(rows, r.id) == Some(r) ensures r in out {
      LastWithMember(rows, r.id);
      assert r.id in Elements(ids);
      var i :| 0 <= i < |ids| && ids[i] == r.id;
      assert out[i] == r;
    }
  }

  lemma {:induction false} OnlyRowWithId(rows: seq<Row>, r: Row)
    requires r in rows && forall q: Row :: q in rows && q.id == r.id ==> q == r
    ensures LastWith(rows, r.id) == Some(r)
  {
    LastWithMember(rows, r.id);
  }

  lemma {:induction false} LastStays(before: seq<Row>, r: Row, after: seq<Row>)
    requires forall x :: x in after ==> x.id != r.id
    ensures LastWith(before + [r] + after, r.id) == Some(r)
  {
    var rows := before + [r] + after;
    if after == [] {
      assert rows[|rows| - 1] == r;
    } else {
      assert rows[|rows| - 1] == after[|after| - 1] && after[|after| - 1] in after;
      assert rows[..|rows| - 1] == before + [r] + after[..|after| - 1];
      LastStays(before, r, after[..|after| - 1]);
    }
  }

  /** A row that no later row of the same id follows is the one that is kept, and the others of its id are not. */
  lemma LastRowWins(before: seq<Row>, r: Row, after: seq<Row>)
    requires forall x :: x in after ==> x.id != r.id
    ensures r in Dedup(before + [r] + after)
    ensures forall q :: q in Dedup(before + [r] + after) && q.id == r.id ==> q == r
  {
    hide LastWith, Dedup;
    LastStays(before, r, after);
    DedupShape(before + [r] + after);
  }

  /** Deduplicating an extractor's own rows first changes nothing that survives. */
  lemma DedupIdempotent(rows: seq<Row>)
    ensures Dedup(Dedup(rows)) == Dedup(rows)
  {
    hide LastWith, Ids, Ascending;
    var once := Dedup(rows);
    DedupShape(rows);
    DedupShape(once);
    assert Ids(once) == Ids(rows) by {
      forall id ensures id in Ids(once) <==> id in Ids(rows) {
        LastWithMember(once, id);
        LastWithMember(rows, id);
        if id in Ids(rows) {
          var r := LastWith(rows, id).value;
          assert r in once;
        }
      }
    }
    var ids := SortedSet(Ids(rows));
    forall i | 0 <= i < |ids| ensures LastWith(once, ids[i]) == LastWith(rows, ids[i]) {
      assert ids[i] in Elements(ids);
      LastWithMember(once, ids[i]);
    }
  }

  // ---------------------------------------------------------------- counters

  /** `Counter(f(r) for r in rows)`, listing absent keys with count zero. */
  function CountBy<C(==)>(rows: seq<Row>, f: Row -> C, keys: seq<C>): (counts: seq<int>)
    ensures |counts| == |keys|
  {
    seq(|keys|, i requires 0 <= i < |keys| => |Having(rows, f, keys[i])|)
  }

  lemma CountsSum<C>(rows: seq<Row>, f: Row -> C, keys: seq<C>)
    requires Distinct(keys) && forall r :: r in rows ==> f(r) in keys
    ensures Sum(CountBy(rows, f, keys)) == |rows|
  {
    SplitCovers(rows, f, keys);
    ConcatLength(Split(rows, f, keys), CountBy(rows, f, keys));
    SameLength(Concat(Split(rows, f, keys)), rows);
  }
}
