/** The first-proof summary contract, and the health score computed from a summary. */
module FirstProofSummary {
  import opened Ordering
  import opened Outcomes

  datatype Json =
    | Null | Bool(b: bool) | Int(i: int) | Float(r: real) | Str(s: string)
    | Array(items: seq<Json>) | Object(fields: map<string, Json>)

  type Fields = map<string, Json>

  /** `fields.get(key)` */
  function Get(fields: Fields, key: string): Json { if key in fields then fields[key] else Null }

  /** `isinstance(value, int)`: booleans are integers. */
  predicate IsInt(j: Json) { j.Int? || j.Bool? }

  function IntOf(j: Json): int
    requires IsInt(j)
  {
    if j.Int? then j.i else if j.b then 1 else 0
  }

  predicate IsNonEmptyStr(j: Json) { j.Str? && j.s != [] }

  predicate AllStr(items: seq<Json>) { forall k :: 0 <= k < |items| ==> items[k].Str? }

  predicate IsStrList(j: Json) { j.Array? && AllStr(j.items) }

  function Texts(items: seq<Json>): (texts: seq<string>)
    requires AllStr(items)
    ensures |texts| == |items|
  {
    seq(|items|, k requires 0 <= k < |items| => items[k].s)
  }

  /** Whether Python can order the list at all: mixing texts with other values raises. */
  predicate Sortable(items: seq<Json>) {
    |items| <= 1 || AllStr(items) || forall k :: 0 <= k < |items| ==> IsInt(items[k]) || items[k].Float?
  }

  predicate Hashable(j: Json) { !j.Array? && !j.Object? }

  datatype Error =
    | MissingKey(key: string) | OkNotBool | DecisionInvalid | DecisionLineInvalid | StrictNotBool | PythonInvalid
    | FailedStepsInvalid | StepsNotList | StepNotObject(idx: nat) | StepMissingKey(idx: nat, key: string)
    | StepName(idx: nat) | StepCommand(idx: nat) | StepReturncode(idx: nat)
    | StepStdout(idx: nat) | StepStderr(idx: nat)
    | FailedStepsMismatch | OkMismatch | DecisionMismatch | DecisionLineMismatch

  const TOP_LEVEL := ["ok", "decision", "decision_line", "strict", "selected_python", "steps", "failed_steps"]
  const STEP_KEYS := ["name", "command", "returncode", "stdout_log", "stderr_log", "artifact"]
  const LINE := "FIRST_PROOF_DECISION="

  predicate IsDecision(j: Json) { j == Str("SHIP") || j == Str("NO-SHIP") }

  predicate IsDecisionLine(j: Json) { j == Str(LINE + "SHIP") || j == Str(LINE + "NO-SHIP") }

  function Decision(ship: bool): string { if ship then "SHIP" else "NO-SHIP" }

  // ---------------------------------------------------------------- the errors, piece by piece

  function MissingTop(keys: seq<string>, fields: Fields): seq<Error> {
    if keys == [] then []
    else MissingTop(keys[..|keys| - 1], fields) + When(keys[|keys| - 1] !in fields, MissingKey(keys[|keys| - 1]))
  }

  function MissingStep(keys: seq<string>, fields: Fields, idx: nat): seq<Error> {
    if keys == [] then []
    else
      MissingStep(keys[..|keys| - 1], fields, idx) +
      When(keys[|keys| - 1] !in fields, StepMissingKey(idx, keys[|keys| - 1]))
  }

  function FieldErrors(p: Fields): seq<Error> {
    When(!Get(p, "ok").Bool?, OkNotBool) +
    When(!IsDecision(Get(p, "decision")), DecisionInvalid) +
    When(!IsDecisionLine(Get(p, "decision_line")), DecisionLineInvalid) +
    When(!Get(p, "strict").Bool?, StrictNotBool) +
    When(!IsNonEmptyStr(Get(p, "selected_python")), PythonInvalid) +
    When(!IsStrList(Get(p, "failed_steps")), FailedStepsInvalid)
  }

  function StepFieldErrors(f: Fields, idx: nat): seq<Error> {
    When(!IsNonEmptyStr(Get(f, "name")), StepName(idx)) +
    When(!IsStrList(Get(f, "command")), StepCommand(idx)) +
    When(!IsInt(Get(f, "returncode")), StepReturncode(idx)) +
    When(!IsNonEmptyStr(Get(f, "stdout_log")), StepStdout(idx)) +
    When(!IsNonEmptyStr(Get(f, "stderr_log")), StepStderr(idx))
  }

  function StepErrors(step: Json, idx: nat): seq<Error> {
    if !step.Object? then [StepNotObject(idx)]
    else MissingStep(STEP_KEYS, step.fields, idx) + StepFieldErrors(step.fields, idx)
  }

  /** A named step with a non-zero return code. */
  predicate Fails(step: Json) {
    && step.Object? && Get(step.fields, "name").Str? && IsInt(Get(step.fields, "returncode"))
    && IntOf(Get(step.fields, "returncode")) != 0
  }

  function AllStepErrors(steps: seq<Json>): seq<Error> {
    if steps == [] then [] else AllStepErrors(steps[..|steps| - 1]) + StepErrors(steps[|steps| - 1], |steps|)
  }

  /** The names of the failing steps, in order. */
  function Failing(steps: seq<Json>): seq<string> {
    if steps == [] then []
    else
      var last := steps[|steps| - 1];
      Failing(steps[..|steps| - 1]) + if Fails(last) then [Get(last.fields, "name").s] else []
  }

  function MismatchErrors(p: Fields, failing: seq<string>): seq<Error> {
    var failed := Get(p, "failed_steps");
    When(failed.Array? && (!AllStr(failed.items) || SortTexts(Texts(failed.items)) != SortTexts(failing)),
         FailedStepsMismatch)
  }

  function OutcomeErrors(p: Fields, ship: bool): seq<Error> {
    if !Get(p, "ok").Bool? then []
    else
      When(Get(p, "ok") != Bool(ship), OkMismatch) +
      When(IsDecision(Get(p, "decision")) && Get(p, "decision") != Str(Decision(ship)), DecisionMismatch) +
      When(IsDecisionLine(Get(p, "decision_line")) && Get(p, "decision_line") != Str(LINE + Decision(ship)),
           DecisionLineMismatch)
  }

  /** Unhashable decisions, and failed steps that cannot be sorted, make the check raise instead of reporting. */
  predicate Raises(p: Fields) {
    || !Hashable(Get(p, "decision")) || !Hashable(Get(p, "decision_line"))
    || (Get(p, "steps").Array? && Get(p, "failed_steps").Array? && !Sortable(Get(p, "failed_steps").items))
  }

  function ContractErrors(p: Fields): seq<Error> {
    var head := MissingTop(TOP_LEVEL, p) + FieldErrors(p);
    if !Get(p, "steps").Array? then head + [StepsNotList]
    else
      var steps := Get(p, "steps").items;
      head + AllStepErrors(steps) + MismatchErrors(p, Failing(steps)) + OutcomeErrors(p, Failing(steps) == [])
  }

  // ---------------------------------------------------------------- the loop

  method CheckSteps(steps: seq<Json>, before: seq<Error>) returns (errors: seq<Error>, failing: seq<string>)
    ensures errors == before + AllStepErrors(steps) && failing == Failing(steps)
  {
    hide StepErrors;
    errors, failing := before, [];
    for n := 0 to |steps|
      invariant errors == before + AllStepErrors(steps[..n])
      invariant failing == Failing(steps[..n])
    {
      Prefix(steps, n);
      var step := steps[n];
      errors := errors + StepErrors(step, n + 1);
      if !step.Object? { continue; }
      var name, returncode := Get(step.fields, "name"), Get(step.fields, "returncode");
      if name.Str? && IsInt(returncode) && IntOf(returncode) != 0 { failing := failing + [name.s]; }
    }
    assert steps[..|steps|] == steps;
  }

  method MissingKeys(p: Fields) returns (errors: seq<Error>)
    ensures errors == MissingTop(TOP_LEVEL, p)
  {
    errors := [];
    for n := 0 to |TOP_LEVEL|
      invariant errors == MissingTop(TOP_LEVEL[..n], p)
    {
      Prefix(TOP_LEVEL, n);
      if TOP_LEVEL[n] !in p { errors := errors + [MissingKey(TOP_LEVEL[n])]; }
    }
    assert TOP_LEVEL[..|TOP_LEVEL|] == TOP_LEVEL;
  }

  method CheckContract(p: Fields) returns (outcome: Outcome<seq<Error>>)
    ensures outcome == if Raises(p) then Raised else Returned(ContractErrors(p))
  {
    hide MissingTop, FieldErrors, AllStepErrors, Failing, MismatchErrors, OutcomeErrors, Hashable, Sortable;
    var errors := MissingKeys(p);
    if !Hashable(Get(p, "decision")) || !Hashable(Get(p, "decision_line")) { return Raised; }
    errors := errors + FieldErrors(p);
    if !Get(p, "steps").Array? { return Returned(errors + [StepsNotList]); }
    var failing;
    errors, failing := CheckSteps(Get(p, "steps").items, errors);
    if Get(p, "failed_steps").Array? && !Sortable(Get(p, "failed_steps").items) { return Raised; }
    errors := errors + MismatchErrors(p, failing);
    errors := errors + OutcomeErrors(p, failing == []);
    return Returned(errors);
  }

  // ---------------------------------------------------------------- what an accepted summary is

  predicate ValidStep(step: Json) {
    && step.Object?
    && IsNonEmptyStr(Get(step.fields, "name"))
    && IsStrList(Get(step.fields, "command"))
    && IsInt(Get(step.fields, "returncode"))
    && IsNonEmptyStr(Get(step.fields, "stdout_log"))
    && IsNonEmptyStr(Get(step.fields, "stderr_log"))
    && "artifact" in step.fields
  }

  /** The failed steps are exactly the failing ones, and all three verdicts say whether there are none. */
  ghost predicate ValidSummary(p: Fields) {
    && Get(p, "strict").Bool?
    && IsNonEmptyStr(Get(p, "selected_python"))
    && Get(p, "steps").Array?
    && (forall k :: 0 <= k < |Get(p, "steps").items| ==> ValidStep(Get(p, "steps").items[k]))
    && var failing := Failing(Get(p, "steps").items);
    && IsStrList(Get(p, "failed_steps"))
    && multiset(Texts(Get(p, "failed_steps").items)) == multiset(failing)
    && Get(p, "ok") == Bool(failing == [])
    && Get(p, "decision") == Str(Decision(failing == []))
    && Get(p, "decision_line") == Str(LINE + Decision(failing == []))
  }

  lemma {:induction false} NothingMissing(keys: seq<string>, fields: Fields)
    ensures MissingTop(keys, fields) == [] <==> forall k :: k in keys ==> k in fields
  {
    if keys != [] {
      NothingMissing(keys[..|keys| - 1], fields);
      assert forall k :: k in keys <==> k in keys[..|keys| - 1] || k == keys[|keys| - 1];
    }
  }

  lemma {:induction false} NothingMissingInStep(keys: seq<string>, fields: Fields, idx: nat)
    ensures MissingStep(keys, fields, idx) == [] <==> forall k :: k in keys ==> k in fields
  {
    if keys != [] {
      NothingMissingInStep(keys[..|keys| - 1], fields, idx);
      assert forall k :: k in keys <==> k in keys[..|keys| - 1] || k == keys[|keys| - 1];
    }
  }

  lemma PresentIfTyped(fields: Fields, key: string)
    ensures !Get(fields, key).Null? ==> key in fields
  {
  }

  lemma StepAccepted(step: Json, idx: nat)
    ensures StepErrors(step, idx) == [] <==> ValidStep(step)
  {
    if step.Object? {
      var f := step.fields;
      NothingMissingInStep(STEP_KEYS, f, idx);
      assert |StepFieldErrors(f, idx)| ==
        |When(!IsNonEmptyStr(Get(f, "name")), StepName(idx))| + |When(!IsStrList(Get(f, "command")), StepCommand(idx))|
        + |When(!IsInt(Get(f, "returncode")), StepReturncode(idx))|
        + |When(!IsNonEmptyStr(Get(f, "stdout_log")), StepStdout(idx))|
        + |When(!IsNonEmptyStr(Get(f, "stderr_log")), StepStderr(idx))|;
      assert STEP_KEYS[5] == "artifact";
      if ValidStep(step) {
        forall k | k in STEP_KEYS ensures k in f { PresentIfTyped(f, k); }
      }
    }
  }

  lemma {:induction false} StepsAccepted(steps: seq<Json>)
    ensures AllStepErrors(steps) == [] <==> forall k :: 0 <= k < |steps| ==> ValidStep(steps[k])
  {
    hide StepErrors, ValidStep;
    if steps != [] {
      StepsAccepted(steps[..|steps| - 1]);
      StepAccepted(steps[|steps| - 1], |steps|);
      assert forall k :: 0 <= k < |steps| - 1 ==> steps[..|steps| - 1][k] == steps[k];
    }
  }

  lemma FieldsAccepted(p: Fields)
    ensures FieldErrors(p) == [] <==>
            && Get(p, "ok").Bool? && IsDecision(Get(p, "decision")) && IsDecisionLine(Get(p, "decision_line"))
            && Get(p, "strict").Bool? && IsNonEmptyStr(Get(p, "selected_python")) && IsStrList(Get(p, "failed_steps"))
  {
    hide IsDecision, IsDecisionLine, IsNonEmptyStr, IsStrList, Get;
    assert |FieldErrors(p)| ==
      |When(!Get(p, "ok").Bool?, OkNotBool)| + |When(!IsDecision(Get(p, "decision")), DecisionInvalid)|
      + |When(!IsDecisionLine(Get(p, "decision_line")), DecisionLineInvalid)|
      + |When(!Get(p, "strict").Bool?, StrictNotBool)|
      + |When(!IsNonEmptyStr(Get(p, "selected_python")), PythonInvalid)|
      + |When(!IsStrList(Get(p, "failed_steps")), FailedStepsInvalid)|;
  }

  lemma DecisionsDiffer(ship: bool)
    ensures Decision(ship) != Decision(!ship) && LINE + Decision(ship) != LINE + Decision(!ship)
    ensures IsDecision(Str(Decision(ship))) && IsDecisionLine(Str(LINE + Decision(ship)))
    ensures Hashable(Str(Decision(ship)))
  {
    assert |Decision(true)| != |Decision(false)|;
  }

  lemma OutcomeAccepted(p: Fields, ship: bool)
    requires Get(p, "ok").Bool? && IsDecision(Get(p, "decision")) && IsDecisionLine(Get(p, "decision_line"))
    ensures OutcomeErrors(p, ship) == [] <==>
            && Get(p, "ok") == Bool(ship) && Get(p, "decision") == Str(Decision(ship))
            && Get(p, "decision_line") == Str(LINE + Decision(ship))
  {
    hide Get, IsDecision, IsDecisionLine, Decision;
  }

  /** No errors are reported exactly for valid summaries. */
  lemma AcceptedIff(p: Fields)
    ensures !Raises(p) && ContractErrors(p) == [] <==> ValidSummary(p)
  {
    hide StepErrors, AllStepErrors, Failing, ValidStep, Decision, FieldErrors, MissingTop, OutcomeErrors, SortTexts;
    var steps := Get(p, "steps");
    NothingMissing(TOP_LEVEL, p);
    FieldsAccepted(p);
    if steps.Array? {
      var ship := Failing(steps.items) == [];
      StepsAccepted(steps.items);
      DecisionsDiffer(ship);
      if FieldErrors(p) == [] {
        OutcomeAccepted(p, ship);
        SortTextsEqual(Texts(Get(p, "failed_steps").items), Failing(steps.items));
      }
      if ValidSummary(p) {
        forall k | k in TOP_LEVEL ensures k in p { PresentIfTyped(p, k); }
      }
    }
  }

  // ---------------------------------------------------------------- the health score

  predicate Truthy(j: Json) {
    match j
    case Null => false
    case Bool(b) => b
    case Int(i) => i != 0
    case Float(r) => r != 0.0
    case Str(s) => s != []
    case Array(items) => items != []
    case Object(fields) => fields != map[]
  }

  /** `len(value)` of a value that has a length. */
  function Length(j: Json): Outcome<nat> {
    match j
    case Str(s) => Returned(|s|)
    case Array(items) => Returned(|items|)
    case Object(fields) => Returned(|fields|)
    case _ => Raised
  }

  /** The first step called doctor; a step that is no object raises unless a doctor step comes before it. */
  function FirstDoctor(steps: seq<Json>): Outcome<Option<Fields>>
    decreases |steps|
  {
    if steps == [] then Returned(None)
    else if !steps[0].Object? then Raised
    else if Get(steps[0].fields, "name") == Str("doctor") then Returned(Some(steps[0].fields))
    else FirstDoctor(steps[1..])
  }

  /** `int(step.get("returncode", 1)) != 0` */
  function NonZeroReturn(step: Fields): Outcome<bool> {
    if "returncode" !in step then Returned(true)
    else
      match step["returncode"]
      case Int(i) => Returned(i != 0)
      case Bool(b) => Returned(b)
      case Float(r) => Returned(r <= -1.0 || r >= 1.0)
      case _ => Raised
  }

  function DoctorFailed(p: Fields): Outcome<bool> {
    if "steps" !in p then Returned(false)
    else if !p["steps"].Array? then Raised
    else
      match FirstDoctor(p["steps"].items)
      case Raised => Raised
      case Returned(None) => Returned(false)
      case Returned(Some(step)) => NonZeroReturn(step)
  }

  datatype Reason = NotOk | FailedSteps(count: nat, penalty: nat) | DoctorFailure

  datatype Light = Green | Yellow | Red

  function LightOf(score: int): Light { if score >= 85 then Green else if score >= 60 then Yellow else Red }

  function StepsPenalty(n: nat): nat { if 10 * n < 30 then 10 * n else 30 }

  function ClampScore(score: int): int { if score < 0 then 0 else if score > 100 then 100 else score }

  /** The number of failed steps that `len(summary.get("failed_steps") or [])` sees. */
  function FailedCount(p: Fields): Outcome<nat> {
    if Truthy(Get(p, "failed_steps")) then Length(Get(p, "failed_steps")) else Returned(0)
  }

  function Reasons(p: Fields, count: nat, doctor: bool): seq<Reason> {
    (if !Truthy(Get(p, "ok")) then [NotOk] else []) +
    (if Truthy(Get(p, "failed_steps")) then [FailedSteps(count, StepsPenalty(count))] else []) +
    (if doctor then [DoctorFailure] else [])
  }

  /** The score before it is clamped, with the reasons for every penalty. */
  function RawHealth(p: Fields): Outcome<(int, seq<Reason>)> {
    var count, doctor := FailedCount(p), DoctorFailed(p);
    if count.Raised? || doctor.Raised? then Raised
    else
      var notOk, doctorFailed := if Truthy(Get(p, "ok")) then 0 else 50, if doctor.value then 20 else 0;
      var score := 100 - notOk - StepsPenalty(count.value) - doctorFailed;
      Returned((score, Reasons(p, count.value, doctor.value)))
  }

  method CalculateScore(p: Fields) returns (outcome: Outcome<(int, seq<Reason>)>)
    ensures outcome == match RawHealth(p) case Raised => Raised case Returned(h) => Returned((ClampScore(h.0), h.1))
  {
    hide DoctorFailed, Truthy, Length;
    var score := 100;
    var reasons: seq<Reason> := [];
    if !Truthy(Get(p, "ok")) {
      score := score - 50;
      reasons := reasons + [NotOk];
    }
    var failed := Get(p, "failed_steps");
    if Truthy(failed) {
      var length := Length(failed);
      if length.Raised? { return Raised; }
      var penalty := StepsPenalty(length.value);
      score := score - penalty;
      reasons := reasons + [FailedSteps(length.value, penalty)];
    }
    var doctor := DoctorFailed(p);
    if doctor.Raised? { return Raised; }
    if doctor.value {
      score := score - 20;
      reasons := reasons + [DoctorFailure];
    }
    assert reasons == Reasons(p, FailedCount(p).value, doctor.value);
    return Returned((ClampScore(score), reasons));
  }

  lemma {:induction false} FailingMember(steps: seq<Json>, k: nat)
    requires k < |steps| && Fails(steps[k])
    ensures Failing(steps) != []
  {
    hide Fails;
    if k < |steps| - 1 { FailingMember(steps[..|steps| - 1], k); }
  }

  lemma {:induction false} ValidDoctor(steps: seq<Json>)
    requires forall k :: 0 <= k < |steps| ==> ValidStep(steps[k])
    ensures FirstDoctor(steps).Returned?
    ensures FirstDoctor(steps).value.Some? ==>
              exists k :: 0 <= k < |steps| && steps[k] == Object(FirstDoctor(steps).value.value)
    decreases |steps|
  {
    if steps != [] {
      assert ValidStep(steps[0]);
      if Get(steps[0].fields, "name") != Str("doctor") {
        ValidDoctor(steps[1..]);
        if FirstDoctor(steps).value.Some? {
          var k :| 0 <= k < |steps[1..]| && steps[1..][k] == Object(FirstDoctor(steps).value.value);
          assert steps[k + 1] == steps[1..][k];
        }
      }
    }
  }

  /** In a valid summary the doctor penalty is defined, and it implies that some step fails. */
  lemma ValidDoctorFailed(p: Fields)
    requires ValidSummary(p)
    ensures DoctorFailed(p).Returned?
    ensures DoctorFailed(p).value ==> Failing(Get(p, "steps").items) != []
  {
    hide FirstDoctor, Failing, IsStrList;
    var steps := Get(p, "steps").items;
    ValidDoctor(steps);
    if FirstDoctor(steps).value.Some? {
      var k :| 0 <= k < |steps| && steps[k] == Object(FirstDoctor(steps).value.value);
      assert ValidStep(steps[k]);
      PresentIfTyped(steps[k].fields, "returncode");
      if DoctorFailed(p).value { FailingMember(steps, k); }
    }
  }

  /**
   For every accepted summary, of any length: SHIP scores 100 and is green, NO-SHIP scores at most 40 and is
   red by exactly these penalties, yellow never occurs, and the clamp never acts.
   */
  lemma HealthOfAccepted(p: Fields)
    requires !Raises(p) && ContractErrors(p) == []
    ensures RawHealth(p).Returned?
    ensures var (score, reasons) := RawHealth(p).value;
            var failed := |Get(p, "failed_steps").items|;
            && ClampScore(score) == score
            && (Get(p, "decision") == Str("SHIP") ==> score == 100 && LightOf(score) == Green && reasons == [])
            && (Get(p, "decision") == Str("NO-SHIP") ==>
                  && score == 50 - (if failed >= 3 then 30 else 10 * failed) - (if DoctorFailed(p).value then 20 else 0)
                  && 0 <= score <= 40 && LightOf(score) == Red)
            && LightOf(score) != Yellow
            && IsDecision(Get(p, "decision"))
  {
    hide Raises, ContractErrors, DoctorFailed, ValidStep, IsDecisionLine;
    AcceptedIff(p);
    ValidDoctorFailed(p);
    var failing, texts := Failing(Get(p, "steps").items), Texts(Get(p, "failed_steps").items);
    assert |texts| == |multiset(texts)| == |multiset(failing)| == |failing|;
    DecisionsDiffer(failing == []);
  }
}
