/** The two synthetic reviewer matrices: every combination once, under an id of its own. */
module ScenarioMatrix {
  import opened Ordering
  import opened Text
  import opened ScenarioDatabase

  const SEVERITIES := ["low", "medium", "high", "critical"]
  const STATES := ["stable", "drifting", "contradictory", "noisy", "degraded", "recovering", "saturated"]
  const DECISIONS := ["go", "conditional-go", "no-go"]
  const PHASES := [1, 2, 3, 4, 5, 6]
  const MODES := ["reactive", "guided", "predictive"]

  const REVIEWER_MODES := ["human-first", "agent-first", "co-pilot"]
  const PR_DECISIONS := ["approve", "request-changes", "escalate"]

  const REVIEWER_ROWS := 7560
  const PR_ROWS := 1080

  function PhaseName(p: nat): string { "phase-" + Decimal(p) }

  function ReviewerFields(d: Domain, severity: string, state: string, decision: string, phase: nat, mode: string)
    : seq<string>
  {
    ["adaptive-reviewer", PhaseName(phase), DomainName(d), severity, state, decision, mode]
  }

  function ReviewerRow(d: Domain, severity: string, state: string, decision: string, phase: nat, mode: string): Row {
    Row(Join(ReviewerFields(d, severity, state, decision, phase, mode)), d, "synthetic/adaptive-reviewer-matrix",
        ReviewerMatrix)
  }

  function PrFields(d: Domain, risk: string, mode: string, phase: nat, decision: string): seq<string> {
    ["adaptive-pr-reviewer", PhaseName(phase), DomainName(d), risk, mode, decision]
  }

  function PrRow(d: Domain, risk: string, mode: string, phase: nat, decision: string): Row {
    Row(Join(PrFields(d, risk, mode, phase, decision)), d, "synthetic/adaptive-pr-reviewer-matrix", PrReviewerMatrix)
  }

  /** Row k of the reviewer matrix: the digits of k in mixed radix select one value of every list. */
  function ReviewerAt(k: nat): Row
    requires k < REVIEWER_ROWS
  {
    ReviewerCell(k / 1512, k / 378 % 4, k / 54 % 7, k / 18 % 3, k / 3 % 6, k % 3)
  }

  function ReviewerCell(d: nat, s: nat, t: nat, c: nat, p: nat, m: nat): Row
    requires d < 5 && s < 4 && t < 7 && c < 3 && p < 6 && m < 3
  {
    ReviewerRow(DOMAINS[d], SEVERITIES[s], STATES[t], DECISIONS[c], PHASES[p], MODES[m])
  }

  function PrAt(k: nat): Row
    requires k < PR_ROWS
  {
    PrCell(k / 216, k / 54 % 4, k / 18 % 3, k / 3 % 6, k % 3)
  }

  function PrCell(d: nat, r: nat, m: nat, p: nat, c: nat): Row
    requires d < 5 && r < 4 && m < 3 && p < 6 && c < 3
  {
    PrRow(DOMAINS[d], SEVERITIES[r], REVIEWER_MODES[m], PHASES[p], PR_DECISIONS[c])
  }

  function ReviewerRows(n: nat): (rows: seq<Row>)
    requires n <= REVIEWER_ROWS
    ensures |rows| == n && forall k :: 0 <= k < n ==> rows[k] == ReviewerAt(k)
  {
    seq(n, k requires 0 <= k < n => ReviewerAt(k))
  }

  function PrRows(n: nat): (rows: seq<Row>)
    requires n <= PR_ROWS
    ensures |rows| == n && forall k :: 0 <= k < n ==> rows[k] == PrAt(k)
  {
    seq(n, k requires 0 <= k < n => PrAt(k))
  }

  lemma ReviewerDigits(k: nat, d: nat, s: nat, t: nat, c: nat, p: nat, m: nat)
    requires d < 5 && s < 4 && t < 7 && c < 3 && p < 6 && m < 3
    requires k == 1512 * d + 378 * s + 54 * t + 18 * c + 3 * p + m
    ensures k < REVIEWER_ROWS && k / 1512 == d && k / 378 % 4 == s && k / 54 % 7 == t
    ensures k / 18 % 3 == c && k / 3 % 6 == p && k % 3 == m
  {
    assert k / 3 == 504 * d + 126 * s + 18 * t + 6 * c + p;
    assert k / 18 == 84 * d + 21 * s + 3 * t + c;
    assert k / 54 == 28 * d + 7 * s + t;
    assert k / 378 == 4 * d + s;
  }

  lemma PrDigits(k: nat, d: nat, r: nat, m: nat, p: nat, c: nat)
    requires d < 5 && r < 4 && m < 3 && p < 6 && c < 3
    requires k == 216 * d + 54 * r + 18 * m + 3 * p + c
    ensures k < PR_ROWS && k / 216 == d && k / 54 % 4 == r && k / 18 % 3 == m && k / 3 % 6 == p && k % 3 == c
  {
    assert k / 3 == 72 * d + 18 * r + 6 * m + p;
    assert k / 18 == 12 * d + 3 * r + m;
    assert k / 54 == 4 * d + r;
  }

  lemma NextReviewerRow(k: nat)
    requires k < REVIEWER_ROWS
    ensures ReviewerRows(k) + [ReviewerCell(k / 1512, k / 378 % 4, k / 54 % 7, k / 18 % 3, k / 3 % 6, k % 3)] ==
            ReviewerRows(k + 1)
  {
    hide ReviewerCell;
  }

  lemma NextPrRow(k: nat)
    requires k < PR_ROWS
    ensures PrRows(k) + [PrCell(k / 216, k / 54 % 4, k / 18 % 3, k / 3 % 6, k % 3)] == PrRows(k + 1)
  {
    hide PrCell;
  }

  method GenerateReviewerMatrix() returns (out: seq<Row>)
    ensures out == ReviewerRows(REVIEWER_ROWS)
  {
    hide ReviewerCell, ReviewerRows, ReviewerAt;
    out := [];
    for d := 0 to |DOMAINS|
      invariant |out| == 1512 * d && out == ReviewerRows(|out|)
    {
      for s := 0 to |SEVERITIES|
        invariant |out| == 1512 * d + 378 * s && out == ReviewerRows(|out|)
      {
        for t := 0 to |STATES|
          invariant |out| == 1512 * d + 378 * s + 54 * t && out == ReviewerRows(|out|)
        {
          for c := 0 to |DECISIONS|
            invariant |out| == 1512 * d + 378 * s + 54 * t + 18 * c && out == ReviewerRows(|out|)
          {
            for p := 0 to |PHASES|
              invariant |out| == 1512 * d + 378 * s + 54 * t + 18 * c + 3 * p && out == ReviewerRows(|out|)
            {
              for m := 0 to |MODES|
                invariant |out| == 1512 * d + 378 * s + 54 * t + 18 * c + 3 * p + m && out == ReviewerRows(|out|)
              {
                ReviewerDigits(|out|, d, s, t, c, p, m);
                NextReviewerRow(|out|);
                out := out + [ReviewerCell(d, s, t, c, p, m)];
              }
            }
          }
        }
      }
    }
  }

  method GeneratePrMatrix() returns (out: seq<Row>)
    ensures out == PrRows(PR_ROWS)
  {
    hide PrCell, PrRows, PrAt;
    out := [];
    for d := 0 to |DOMAINS|
      invariant |out| == 216 * d && out == PrRows(|out|)
    {
      for r := 0 to |SEVERITIES|
        invariant |out| == 216 * d + 54 * r && out == PrRows(|out|)
      {
        for m := 0 to |REVIEWER_MODES|
          invariant |out| == 216 * d + 54 * r + 18 * m && out == PrRows(|out|)
        {
          for p := 0 to |PHASES|
            invariant |out| == 216 * d + 54 * r + 18 * m + 3 * p && out == PrRows(|out|)
          {
            for c := 0 to |PR_DECISIONS|
              invariant |out| == 216 * d + 54 * r + 18 * m + 3 * p + c && out == PrRows(|out|)
            {
              PrDigits(|out|, d, r, m, p, c);
              NextPrRow(|out|);
              out := out + [PrCell(d, r, m, p, c)];
            }
          }
        }
      }
    }
  }

  // ---------------------------------------------------------------- ids determine rows

  /** Names that can be told apart, none of which contains the separator. */
  ghost predicate CleanNames(names: seq<string>) {
    Distinct(names) && forall i :: 0 <= i < |names| ==> ':' !in names[i]
  }

  lemma ConstantNames()
    ensures CleanNames(SEVERITIES) && CleanNames(DECISIONS) && CleanNames(MODES)
  {
  }

  lemma PrConstantNames()
    ensures CleanNames(REVIEWER_MODES) && CleanNames(PR_DECISIONS)
  {
  }

  lemma StateNames()
    ensures CleanNames(STATES)
  {
  }

  lemma DomainNames(d: Domain, e: Domain)
    ensures ':' !in DomainName(d)
    ensures DomainName(d) == DomainName(e) ==> d == e
  {
  }

  lemma PhaseNames(p: nat, q: nat)
    requires p < 10 && q < 10
    ensures ':' !in PhaseName(p)
    ensures PhaseName(p) == PhaseName(q) ==> p == q
  {
    assert PhaseName(p)[6] == Digit(p) && PhaseName(q)[6] == Digit(q);
  }

  lemma ReviewerFieldsClean(k: nat)
    requires k < REVIEWER_ROWS
    ensures var f := ReviewerFields(DOMAINS[k / 1512], SEVERITIES[k / 378 % 4], STATES[k / 54 % 7],
                                    DECISIONS[k / 18 % 3], PHASES[k / 3 % 6], MODES[k % 3]);
            forall i :: 0 <= i < |f| ==> ':' !in f[i]
  {
    hide DomainName, PhaseName;
    ConstantNames();
    StateNames();
    DomainNames(DOMAINS[k / 1512], Security);
    PhaseNames(PHASES[k / 3 % 6], 1);
  }

  lemma PrFieldsClean(k: nat)
    requires k < PR_ROWS
    ensures var f := PrFields(DOMAINS[k / 216], SEVERITIES[k / 54 % 4], REVIEWER_MODES[k / 18 % 3],
                              PHASES[k / 3 % 6], PR_DECISIONS[k % 3]);
            forall i :: 0 <= i < |f| ==> ':' !in f[i]
  {
    hide DomainName, PhaseName;
    ConstantNames();
    PrConstantNames();
    DomainNames(DOMAINS[k / 216], Security);
    PhaseNames(PHASES[k / 3 % 6], 1);
  }

  lemma ReviewerIds(a: nat, b: nat)
    requires a < REVIEWER_ROWS && b < REVIEWER_ROWS && ReviewerAt(a).id == ReviewerAt(b).id
    ensures a == b
  {
    hide DomainName, PhaseName, Join;
    var f := ReviewerFields(DOMAINS[a / 1512], SEVERITIES[a / 378 % 4], STATES[a / 54 % 7],
                            DECISIONS[a / 18 % 3], PHASES[a / 3 % 6], MODES[a % 3]);
    var g := ReviewerFields(DOMAINS[b / 1512], SEVERITIES[b / 378 % 4], STATES[b / 54 % 7],
                            DECISIONS[b / 18 % 3], PHASES[b / 3 % 6], MODES[b % 3]);
    ReviewerFieldsClean(a);
    ReviewerFieldsClean(b);
    JoinInjective(f, g);
    assert f[1] == g[1] && f[2] == g[2] && f[3] == g[3] && f[4] == g[4] && f[5] == g[5] && f[6] == g[6];
    ConstantNames();
    StateNames();
    DomainNames(DOMAINS[a / 1512], DOMAINS[b / 1512]);
    PhaseNames(PHASES[a / 3 % 6], PHASES[b / 3 % 6]);
    SamePosition(SEVERITIES, a / 378 % 4, b / 378 % 4);
    SamePosition(STATES, a / 54 % 7, b / 54 % 7);
    SamePosition(DECISIONS, a / 18 % 3, b / 18 % 3);
    SamePosition(MODES, a % 3, b % 3);
    DomainPositions(a / 1512, b / 1512);
    SameReviewerDigits(a, b);
  }

  lemma SamePosition(names: seq<string>, i: nat, j: nat)
    requires CleanNames(names) && i < |names| && j < |names| && names[i] == names[j]
    ensures i == j
  {
  }

  lemma DomainPositions(i: nat, j: nat)
    requires i < 5 && j < 5 && DOMAINS[i] == DOMAINS[j]
    ensures i == j
  {
  }

  lemma SameReviewerDigits(a: nat, b: nat)
    requires a / 1512 == b / 1512 && a / 378 % 4 == b / 378 % 4 && a / 54 % 7 == b / 54 % 7
    requires a / 18 % 3 == b / 18 % 3 && a / 3 % 6 == b / 3 % 6 && a % 3 == b % 3
    ensures a == b
  {
    assert a / 378 == b / 378 by { assert a / 378 / 4 == a / 1512 && b / 378 / 4 == b / 1512; }
    assert a / 54 == b / 54 by { assert a / 54 / 7 == a / 378 && b / 54 / 7 == b / 378; }
    assert a / 18 == b / 18 by { assert a / 18 / 3 == a / 54 && b / 18 / 3 == b / 54; }
    assert a / 3 == b / 3 by { assert a / 3 / 6 == a / 18 && b / 3 / 6 == b / 18; }
  }

  lemma SamePrDigits(a: nat, b: nat)
    requires a / 216 == b / 216 && a / 54 % 4 == b / 54 % 4 && a / 18 % 3 == b / 18 % 3
    requires a / 3 % 6 == b / 3 % 6 && a % 3 == b % 3
    ensures a == b
  {
    assert a / 54 == b / 54 by { assert a / 54 / 4 == a / 216 && b / 54 / 4 == b / 216; }
    assert a / 18 == b / 18 by { assert a / 18 / 3 == a / 54 && b / 18 / 3 == b / 54; }
    assert a / 3 == b / 3 by { assert a / 3 / 6 == a / 18 && b / 3 / 6 == b / 18; }
  }

  lemma PrIds(a: nat, b: nat)
    requires a < PR_ROWS && b < PR_ROWS && PrAt(a).id == PrAt(b).id
    ensures a == b
  {
    hide DomainName, PhaseName, Join;
    var f := PrFields(DOMAINS[a / 216], SEVERITIES[a / 54 % 4], REVIEWER_MODES[a / 18 % 3],
                      PHASES[a / 3 % 6], PR_DECISIONS[a % 3]);
    var g := PrFields(DOMAINS[b / 216], SEVERITIES[b / 54 % 4], REVIEWER_MODES[b / 18 % 3],
                      PHASES[b / 3 % 6], PR_DECISIONS[b % 3]);
    PrFieldsClean(a);
    PrFieldsClean(b);
    JoinInjective(f, g);
    assert f[1] == g[1] && f[2] == g[2] && f[3] == g[3] && f[4] == g[4] && f[5] == g[5];
    ConstantNames();
    PrConstantNames();
    DomainNames(DOMAINS[a / 216], DOMAINS[b / 216]);
    PhaseNames(PHASES[a / 3 % 6], PHASES[b / 3 % 6]);
    SamePosition(SEVERITIES, a / 54 % 4, b / 54 % 4);
    SamePosition(REVIEWER_MODES, a / 18 % 3, b / 18 % 3);
    SamePosition(PR_DECISIONS, a % 3, b % 3);
    DomainPositions(a / 216, b / 216);
    SamePrDigits(a, b);
  }

  /** Where the ids of the two matrices differ from each other and from every other id. */
  lemma MatrixIdShape(k: nat)
    ensures k < REVIEWER_ROWS ==> var id := ReviewerAt(k).id; |id| > 9 && id[0] == 'a' && id[9] == 'r'
    ensures k < PR_ROWS ==> var id := PrAt(k).id; |id| > 9 && id[0] == 'a' && id[9] == 'p'
  {
    hide Join, DomainName, PhaseName;
    if k < REVIEWER_ROWS {
      var f := ReviewerFields(DOMAINS[k / 1512], SEVERITIES[k / 378 % 4], STATES[k / 54 % 7],
                              DECISIONS[k / 18 % 3], PHASES[k / 3 % 6], MODES[k % 3]);
      HeadOfJoin(f);
    }
    if k < PR_ROWS {
      var f := PrFields(DOMAINS[k / 216], SEVERITIES[k / 54 % 4], REVIEWER_MODES[k / 18 % 3],
                        PHASES[k / 3 % 6], PR_DECISIONS[k % 3]);
      HeadOfJoin(f);
    }
  }

  lemma HeadOfJoin(f: seq<string>)
    requires f != []
    ensures |Join(f)| >= |f[0]| && Join(f)[..|f[0]|] == f[0]
    ensures forall i :: 0 <= i < |f[0]| ==> Join(f)[i] == f[0][i]
  {
    if |f| == 1 {
      assert Join(f) == f[0];
    } else {
      assert Join(f) == f[0] + ("::" + Join(f[1..]));
    }
  }

  // ---------------------------------------------------------------- both matrices together

  function Matrices(): seq<Row> { ReviewerRows(REVIEWER_ROWS) + PrRows(PR_ROWS) }

  lemma MatrixMember(x: Row)
    ensures x in ReviewerRows(REVIEWER_ROWS) <==> exists k :: 0 <= k < REVIEWER_ROWS && x == ReviewerAt(k)
    ensures x in PrRows(PR_ROWS) <==> exists k :: 0 <= k < PR_ROWS && x == PrAt(k)
  {
    hide ReviewerAt, PrAt;
    if x in ReviewerRows(REVIEWER_ROWS) {
      var k :| 0 <= k < REVIEWER_ROWS && ReviewerRows(REVIEWER_ROWS)[k] == x;
    }
    if k :| 0 <= k < REVIEWER_ROWS && x == ReviewerAt(k) { assert ReviewerRows(REVIEWER_ROWS)[k] == x; }
    if x in PrRows(PR_ROWS) {
      var k :| 0 <= k < PR_ROWS && PrRows(PR_ROWS)[k] == x;
    }
    if k :| 0 <= k < PR_ROWS && x == PrAt(k) { assert PrRows(PR_ROWS)[k] == x; }
  }

  lemma MatrixKinds(k: nat)
    ensures k < REVIEWER_ROWS ==> ReviewerAt(k).kind == ReviewerMatrix && ReviewerAt(k).domain == DOMAINS[k / 1512]
    ensures k < PR_ROWS ==> PrAt(k).kind == PrReviewerMatrix && PrAt(k).domain == DOMAINS[k / 216]
  {
    hide Join;
  }

  lemma MatrixRowShape(x: Row)
    requires x in Matrices()
    ensures |x.id| > 9 && x.id[0] == 'a'
    ensures x in ReviewerRows(REVIEWER_ROWS) <==> x.kind == ReviewerMatrix
    ensures x in PrRows(PR_ROWS) <==> x.kind == PrReviewerMatrix
    ensures x in ReviewerRows(REVIEWER_ROWS) ==> x.id[9] == 'r'
    ensures x in PrRows(PR_ROWS) ==> x.id[9] == 'p'
  {
    hide ReviewerAt, PrAt;
    MatrixMember(x);
    if x in ReviewerRows(REVIEWER_ROWS) {
      var k :| 0 <= k < REVIEWER_ROWS && x == ReviewerAt(k);
      MatrixIdShape(k);
      MatrixKinds(k);
    }
    if x in PrRows(PR_ROWS) {
      var k :| 0 <= k < PR_ROWS && x == PrAt(k);
      MatrixIdShape(k);
      MatrixKinds(k);
    }
  }

  /** No two combinations share an id, within a matrix or across the two. */
  lemma MatrixIdsUnique(x: Row, y: Row)
    requires x in Matrices() && y in Matrices() && x.id == y.id
    ensures x == y
  {
    hide ReviewerAt, PrAt;
    MatrixMember(x);
    MatrixMember(y);
    MatrixRowShape(x);
    MatrixRowShape(y);
    if x in ReviewerRows(REVIEWER_ROWS) {
      var a :| 0 <= a < REVIEWER_ROWS && x == ReviewerAt(a);
      var b :| 0 <= b < REVIEWER_ROWS && y == ReviewerAt(b);
      ReviewerIds(a, b);
    } else {
      var a :| 0 <= a < PR_ROWS && x == PrAt(a);
      var b :| 0 <= b < PR_ROWS && y == PrAt(b);
      PrIds(a, b);
    }
  }

  lemma MatrixDistinct()
    ensures Distinct(ReviewerRows(REVIEWER_ROWS)) && Distinct(PrRows(PR_ROWS))
  {
    hide ReviewerAt, PrAt;
    forall i, j | 0 <= i < j < REVIEWER_ROWS
      ensures ReviewerRows(REVIEWER_ROWS)[i] != ReviewerRows(REVIEWER_ROWS)[j]
    {
      if ReviewerAt(i) == ReviewerAt(j) { ReviewerIds(i, j); }
    }
    forall i, j | 0 <= i < j < PR_ROWS ensures PrRows(PR_ROWS)[i] != PrRows(PR_ROWS)[j] {
      if PrAt(i) == PrAt(j) { PrIds(i, j); }
    }
  }

  // ---------------------------------------------------------------- rows per domain

  function Within(n: nat, lo: nat, width: nat): nat { if n <= lo then 0 else if n <= lo + width then n - lo else width }

  lemma InBlock(k: nat, width: nat, d: nat)
    requires width > 0
    ensures k / width == d <==> width * d <= k < width * d + width
  {
    assert width * (k / width) <= k < width * (k / width) + width;
    if k / width < d { assert width * (k / width + 1) <= width * d; }
    if d < k / width { assert width * (d + 1) <= width * (k / width); }
  }

  lemma NothingHad(d: nat)
    requires d < 5
    ensures Having([], DomainOf, DOMAINS[d]) == []
  {
  }

  lemma {:induction false} ReviewerPerDomain(n: nat, d: nat)
    requires n <= REVIEWER_ROWS && d < 5
    ensures |Having(ReviewerRows(n), DomainOf, DOMAINS[d])| == Within(n, 1512 * d, 1512)
  {
    hide ReviewerAt, Having;
    assert ReviewerRows(0) == [] && Having(ReviewerRows(0), DomainOf, DOMAINS[d]) == [] by { NothingHad(d); }
    if n > 0 {
      ReviewerPerDomain(n - 1, d);
      HavingStep(ReviewerRows(n), DomainOf, DOMAINS[d]);
      MatrixKinds(n - 1);
      InBlock(n - 1, 1512, d);
      assert ReviewerRows(n)[..n - 1] == ReviewerRows(n - 1);
      if DOMAINS[(n - 1) / 1512] == DOMAINS[d] { DomainPositions((n - 1) / 1512, d); }
    }
  }

  lemma {:induction false} PrPerDomain(n: nat, d: nat)
    requires n <= PR_ROWS && d < 5
    ensures |Having(PrRows(n), DomainOf, DOMAINS[d])| == Within(n, 216 * d, 216)
  {
    hide PrAt, Having;
    assert PrRows(0) == [] && Having(PrRows(0), DomainOf, DOMAINS[d]) == [] by { NothingHad(d); }
    if n > 0 {
      PrPerDomain(n - 1, d);
      HavingStep(PrRows(n), DomainOf, DOMAINS[d]);
      MatrixKinds(n - 1);
      InBlock(n - 1, 216, d);
      assert PrRows(n)[..n - 1] == PrRows(n - 1);
      if DOMAINS[(n - 1) / 216] == DOMAINS[d] { DomainPositions((n - 1) / 216, d); }
    }
  }
}
