/** The rows of the two matrices, written out: every combination of the listed words, and nothing else. */
module MatrixContent {
  import opened Ordering
  import opened Text
  import opened ScenarioDatabase
  import opened ScenarioMatrix

  predicate IsDomain(d: Domain, name: string) {
    match d
    case Security => name == "security"
    case Release => name == "release"
    case Governance => name == "governance"
    case Reliability => name == "reliability"
    case Quality => name == "quality"
  }

  predicate IsSeverity(s: string) { s == "low" || s == "medium" || s == "high" || s == "critical" }

  predicate IsState(s: string) {
    s == "stable" || s == "drifting" || s == "contradictory" || s == "noisy" || s == "degraded" || s == "recovering"
    || s == "saturated"
  }

  predicate IsDecision(s: string) { s == "go" || s == "conditional-go" || s == "no-go" }

  predicate IsMode(s: string) { s == "reactive" || s == "guided" || s == "predictive" }

  predicate IsReviewerMode(s: string) { s == "human-first" || s == "agent-first" || s == "co-pilot" }

  predicate IsPrDecision(s: string) { s == "approve" || s == "request-changes" || s == "escalate" }

  /** `"::".join([head, *parts])` */
  function Chain(head: string, rest: string): string { head + "::" + rest }

  ghost predicate ReviewerSays(
    r: Row, phase: nat, name: string, severity: string, state: string, decision: string, mode: string)
  {
    && 1 <= phase <= 6 && IsDomain(r.domain, name)
    && IsSeverity(severity) && IsState(state) && IsDecision(decision) && IsMode(mode)
    && r.id == Chain("adaptive-reviewer", Chain("phase-" + Decimal(phase), Chain(name, Chain(severity, Chain(state,
                 Chain(decision, mode))))))
    && r.source == "synthetic/adaptive-reviewer-matrix" && r.kind == ReviewerMatrix
  }

  ghost predicate PrSays(r: Row, phase: nat, name: string, risk: string, mode: string, decision: string) {
    && 1 <= phase <= 6 && IsDomain(r.domain, name)
    && IsSeverity(risk) && IsReviewerMode(mode) && IsPrDecision(decision)
    && r.id == Chain("adaptive-pr-reviewer", Chain("phase-" + Decimal(phase), Chain(name, Chain(risk, Chain(mode,
                 decision)))))
    && r.source == "synthetic/adaptive-pr-reviewer-matrix" && r.kind == PrReviewerMatrix
  }

  // ---------------------------------------------------------------- the lists of words

  lemma SeverityListed(s: string)
    ensures IsSeverity(s) <==> exists i :: 0 <= i < 4 && SEVERITIES[i] == s
  {
    assert SEVERITIES[0] == "low" && SEVERITIES[1] == "medium" && SEVERITIES[2] == "high";
    assert SEVERITIES[3] == "critical";
  }

  lemma StateListed(s: string)
    ensures IsState(s) <==> exists i :: 0 <= i < 7 && STATES[i] == s
  {
    assert STATES[0] == "stable" && STATES[1] == "drifting" && STATES[2] == "contradictory" && STATES[3] == "noisy";
    assert STATES[4] == "degraded" && STATES[5] == "recovering" && STATES[6] == "saturated";
  }

  lemma DecisionListed(s: string)
    ensures IsDecision(s) <==> exists i :: 0 <= i < 3 && DECISIONS[i] == s
  {
    assert DECISIONS[0] == "go" && DECISIONS[1] == "conditional-go" && DECISIONS[2] == "no-go";
  }

  lemma ModeListed(s: string)
    ensures IsMode(s) <==> exists i :: 0 <= i < 3 && MODES[i] == s
  {
    assert MODES[0] == "reactive" && MODES[1] == "guided" && MODES[2] == "predictive";
  }

  lemma ReviewerModeListed(s: string)
    ensures IsReviewerMode(s) <==> exists i :: 0 <= i < 3 && REVIEWER_MODES[i] == s
  {
    assert REVIEWER_MODES[0] == "human-first" && REVIEWER_MODES[1] == "agent-first";
    assert REVIEWER_MODES[2] == "co-pilot";
  }

  lemma PrDecisionListed(s: string)
    ensures IsPrDecision(s) <==> exists i :: 0 <= i < 3 && PR_DECISIONS[i] == s
  {
    assert PR_DECISIONS[0] == "approve" && PR_DECISIONS[1] == "request-changes" && PR_DECISIONS[2] == "escalate";
  }

  lemma DomainListed(d: Domain, name: string)
    ensures IsDomain(d, name) <==> name == DomainName(d)
    ensures exists i :: 0 <= i < 5 && DOMAINS[i] == d
  {
    assert DOMAINS[0] == Security && DOMAINS[1] == Release && DOMAINS[2] == Governance;
    assert DOMAINS[3] == Reliability && DOMAINS[4] == Quality;
  }

  lemma PhaseListed(i: nat)
    requires i < 6
    ensures PHASES[i] == i + 1
  {
  }

  // ---------------------------------------------------------------- ids

  lemma JoinStep(fields: seq<string>)
    requires |fields| > 1
    ensures Join(fields) == Chain(fields[0], Join(fields[1..]))
  {
  }

  lemma JoinOfTwo(a: string, b: string)
    ensures Join([a, b]) == Chain(a, b)
  {
    assert [a, b][1..] == [b];
  }

  lemma JoinOfSix(a: string, b: string, c: string, d: string, e: string, f: string)
    ensures Join([a, b, c, d, e, f]) == Chain(a, Chain(b, Chain(c, Chain(d, Chain(e, f)))))
  {
    hide Join, Chain;
    JoinStep([a, b, c, d, e, f]);
    assert [a, b, c, d, e, f][1..] == [b, c, d, e, f];
    JoinStep([b, c, d, e, f]);
    assert [b, c, d, e, f][1..] == [c, d, e, f];
    JoinStep([c, d, e, f]);
    assert [c, d, e, f][1..] == [d, e, f];
    JoinStep([d, e, f]);
    assert [d, e, f][1..] == [e, f];
    JoinOfTwo(e, f);
  }

  lemma JoinOfSeven(a: string, b: string, c: string, d: string, e: string, f: string, g: string)
    ensures Join([a, b, c, d, e, f, g]) == Chain(a, Chain(b, Chain(c, Chain(d, Chain(e, Chain(f, g))))))
  {
    hide Join, Chain;
    JoinStep([a, b, c, d, e, f, g]);
    assert [a, b, c, d, e, f, g][1..] == [b, c, d, e, f, g];
    JoinOfSix(b, c, d, e, f, g);
  }

  lemma ReviewerRowMeans(
    r: Row, d: Domain, severity: string, state: string, decision: string, phase: nat, mode: string)
    ensures r == ReviewerRow(d, severity, state, decision, phase, mode) <==>
            && r.domain == d && r.source == "synthetic/adaptive-reviewer-matrix" && r.kind == ReviewerMatrix
            && r.id == Chain("adaptive-reviewer", Chain("phase-" + Decimal(phase), Chain(DomainName(d),
                         Chain(severity, Chain(state, Chain(decision, mode))))))
  {
    hide Join, Chain, DomainName, Decimal;
    JoinOfSeven("adaptive-reviewer", "phase-" + Decimal(phase), DomainName(d), severity, state, decision, mode);
  }

  lemma PrRowMeans(r: Row, d: Domain, risk: string, mode: string, phase: nat, decision: string)
    ensures r == PrRow(d, risk, mode, phase, decision) <==>
            && r.domain == d && r.source == "synthetic/adaptive-pr-reviewer-matrix" && r.kind == PrReviewerMatrix
            && r.id == Chain("adaptive-pr-reviewer", Chain("phase-" + Decimal(phase), Chain(DomainName(d),
                         Chain(risk, Chain(mode, decision)))))
  {
    hide Join, Chain, DomainName, Decimal;
    JoinOfSix("adaptive-pr-reviewer", "phase-" + Decimal(phase), DomainName(d), risk, mode, decision);
  }

  // ---------------------------------------------------------------- the matrices

  lemma ReviewerSaid(k: nat) returns (phase: nat, name: string, severity: string, state: string, decision: string,
                                      mode: string)
    requires k < REVIEWER_ROWS
    ensures ReviewerSays(ReviewerAt(k), phase, name, severity, state, decision, mode)
  {
    hide IsSeverity, IsState, IsDecision, IsMode, IsDomain, Chain, DomainName, Decimal, ReviewerRow;
    var d := DOMAINS[k / 1512];
    severity, state, decision := SEVERITIES[k / 378 % 4], STATES[k / 54 % 7], DECISIONS[k / 18 % 3];
    phase, mode, name := PHASES[k / 3 % 6], MODES[k % 3], DomainName(d);
    PhaseListed(k / 3 % 6);
    SeverityListed(severity);
    StateListed(state);
    DecisionListed(decision);
    ModeListed(mode);
    DomainListed(d, name);
    ReviewerRowMeans(ReviewerAt(k), d, severity, state, decision, phase, mode);
  }

  lemma SaidReviewer(r: Row, phase: nat, name: string, severity: string, state: string, decision: string, mode: string)
    returns (k: nat)
    requires ReviewerSays(r, phase, name, severity, state, decision, mode)
    ensures k < REVIEWER_ROWS && r == ReviewerAt(k)
  {
    hide IsSeverity, IsState, IsDecision, IsMode, IsDomain, Chain, DomainName, Decimal, ReviewerRow;
    SeverityListed(severity);
    StateListed(state);
    DecisionListed(decision);
    ModeListed(mode);
    DomainListed(r.domain, name);
    var d: nat :| d < 5 && DOMAINS[d] == r.domain;
    var s: nat :| s < 4 && SEVERITIES[s] == severity;
    var t: nat :| t < 7 && STATES[t] == state;
    var c: nat :| c < 3 && DECISIONS[c] == decision;
    var m: nat :| m < 3 && MODES[m] == mode;
    PhaseListed(phase - 1);
    k := 1512 * d + 378 * s + 54 * t + 18 * c + 3 * (phase - 1) + m;
    ReviewerDigits(k, d, s, t, c, phase - 1, m);
    ReviewerRowMeans(r, r.domain, severity, state, decision, phase, mode);
  }

  lemma PrSaid(k: nat) returns (phase: nat, name: string, risk: string, mode: string, decision: string)
    requires k < PR_ROWS
    ensures PrSays(PrAt(k), phase, name, risk, mode, decision)
  {
    hide IsSeverity, IsReviewerMode, IsPrDecision, IsDomain, Chain, DomainName, Decimal, PrRow;
    var d := DOMAINS[k / 216];
    risk, mode, decision := SEVERITIES[k / 54 % 4], REVIEWER_MODES[k / 18 % 3], PR_DECISIONS[k % 3];
    phase, name := PHASES[k / 3 % 6], DomainName(d);
    PhaseListed(k / 3 % 6);
    SeverityListed(risk);
    ReviewerModeListed(mode);
    PrDecisionListed(decision);
    DomainListed(d, name);
    PrRowMeans(PrAt(k), d, risk, mode, phase, decision);
  }

  lemma SaidPr(r: Row, phase: nat, name: string, risk: string, mode: string, decision: string) returns (k: nat)
    requires PrSays(r, phase, name, risk, mode, decision)
    ensures k < PR_ROWS && r == PrAt(k)
  {
    hide IsSeverity, IsReviewerMode, IsPrDecision, IsDomain, Chain, DomainName, Decimal, PrRow;
    SeverityListed(risk);
    ReviewerModeListed(mode);
    PrDecisionListed(decision);
    DomainListed(r.domain, name);
    var d: nat :| d < 5 && DOMAINS[d] == r.domain;
    var s: nat :| s < 4 && SEVERITIES[s] == risk;
    var m: nat :| m < 3 && REVIEWER_MODES[m] == mode;
    var c: nat :| c < 3 && PR_DECISIONS[c] == decision;
    PhaseListed(phase - 1);
    k := 216 * d + 54 * s + 18 * m + 3 * (phase - 1) + c;
    PrDigits(k, d, s, m, phase - 1, c);
    PrRowMeans(r, r.domain, risk, mode, phase, decision);
  }

  /** The matrices hold exactly the rows of all combinations. */
  lemma MatricesMean(r: Row)
    ensures r in Matrices() <==>
            || (exists phase, name, severity, state, decision, mode ::
                  ReviewerSays(r, phase, name, severity, state, decision, mode))
            || exists phase, name, risk, mode, decision :: PrSays(r, phase, name, risk, mode, decision)
  {
    hide ReviewerSays, PrSays, ReviewerAt, PrAt, ReviewerRows, PrRows;
    MatrixMember(r);
    if k: nat :| k < REVIEWER_ROWS && r == ReviewerAt(k) {
      var phase, name, severity, state, decision, mode := ReviewerSaid(k);
    } else if k: nat :| k < PR_ROWS && r == PrAt(k) {
      var phase, name, risk, mode, decision := PrSaid(k);
    }
    if phase, name, severity, state, decision, mode :| ReviewerSays(r, phase, name, severity, state, decision, mode) {
      var k := SaidReviewer(r, phase, name, severity, state, decision, mode);
    } else if phase, name, risk, mode, decision :| PrSays(r, phase, name, risk, mode, decision) {
      var k := SaidPr(r, phase, name, risk, mode, decision);
    }
  }
}
