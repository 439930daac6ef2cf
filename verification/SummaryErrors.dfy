/** What each error of the summary contract and each penalty of the health score says about the summary. */
module SummaryErrors {
  import opened Outcomes
  import opened Ordering
  import opened FirstProofSummary

  // ---------------------------------------------------------------- fields

  ghost predicate HasBool(p: Fields, key: string) { key in p && p[key].Bool? }

  ghost predicate HasText(p: Fields, key: string) { key in p && p[key].Str? && p[key].s != "" }

  ghost predicate HasTexts(p: Fields, key: string) {
    key in p && p[key].Array? && forall x :: x in p[key].items ==> x.Str?
  }

  /** An integer or a boolean, which counts as one. */
  ghost predicate HasInt(p: Fields, key: string) { key in p && (p[key].Int? || p[key].Bool?) }

  ghost predicate HasDecision(p: Fields) {
    "decision" in p && (p["decision"] == Str("SHIP") || p["decision"] == Str("NO-SHIP"))
  }

  function LineOf(ship: bool): string {
    if ship then "FIRST_PROOF_DECISION=SHIP" else "FIRST_PROOF_DECISION=NO-SHIP"
  }

  ghost predicate HasLine(p: Fields) {
    "decision_line" in p && (p["decision_line"] == Str(LineOf(true)) || p["decision_line"] == Str(LineOf(false)))
  }

  ghost predicate HasList(p: Fields, key: string) { key in p && p[key].Array? }

  lemma LineText(ship: bool)
    ensures LINE + Decision(ship) == LineOf(ship)
  {
  }

  lemma FieldsMean(p: Fields, key: string)
    ensures Get(p, key).Bool? <==> HasBool(p, key)
    ensures IsNonEmptyStr(Get(p, key)) <==> HasText(p, key)
    ensures IsStrList(Get(p, key)) <==> HasTexts(p, key)
    ensures IsInt(Get(p, key)) <==> HasInt(p, key)
    ensures Get(p, key).Array? <==> HasList(p, key)
  {
  }

  // ---------------------------------------------------------------- failing steps

  /** The step at position i is a named one with a return code that is a number other than zero, or true. */
  ghost predicate FailsAs(steps: seq<Json>, i: int, name: string) {
    && 0 <= i < |steps| && steps[i].Object?
    && "name" in steps[i].fields && steps[i].fields["name"] == Str(name)
    && "returncode" in steps[i].fields
    && match steps[i].fields["returncode"]
       case Int(code) => code != 0
       case Bool(code) => code
       case _ => false
  }

  ghost function FailingAs(steps: seq<Json>, name: string): set<nat> {
    set i: nat | i < |steps| && FailsAs(steps, i, name)
  }

  ghost predicate NoneFails(steps: seq<Json>) { forall i, name :: !FailsAs(steps, i, name) }

  lemma {:induction false} FailingMeans(steps: seq<Json>, name: string)
    ensures multiset(Failing(steps))[name] == |FailingAs(steps, name)|
  {
    if steps == [] {
      assert FailingAs(steps, name) == {};
    } else {
      var front, n := steps[..|steps| - 1], |steps| - 1;
      FailingMeans(front, name);
      FailingStep(steps, name);
      StepFails(steps, n, name);
      hide Fails, FailsAs;
      var before, added := Failing(front), if Fails(steps[n]) then [Get(steps[n].fields, "name").s] else [];
      assert multiset(before + added) == multiset(before) + multiset(added);
    }
  }

  lemma StepFails(steps: seq<Json>, n: nat, name: string)
    requires n < |steps|
    ensures FailsAs(steps, n, name) <==> Fails(steps[n]) && Get(steps[n].fields, "name").s == name
  {
  }

  lemma FailingStep(steps: seq<Json>, name: string)
    requires steps != []
    ensures |FailingAs(steps, name)| == |FailingAs(steps[..|steps| - 1], name)| +
                                        if FailsAs(steps, |steps| - 1, name) then 1 else 0
  {
    var front, n := steps[..|steps| - 1], |steps| - 1;
    assert forall i :: 0 <= i < n ==> (FailsAs(front, i, name) <==> FailsAs(steps, i, name));
    hide FailsAs;
    assert FailingAs(steps, name) == FailingAs(front, name) + if FailsAs(steps, n, name) then {n} else {};
  }

  lemma NoneFailsMeans(steps: seq<Json>)
    ensures Failing(steps) == [] <==> NoneFails(steps)
  {
    hide FailsAs, Failing;
    if Failing(steps) != [] {
      var name := Failing(steps)[0];
      FailingMeans(steps, name);
      assert name in multiset(Failing(steps));
      var i :| i in FailingAs(steps, name);
    }
    if i, name :| FailsAs(steps, i, name) {
      FailingMeans(steps, name);
      InRange(steps, i, name);
      assert i in FailingAs(steps, name);
    }
  }

  lemma InRange(steps: seq<Json>, i: int, name: string)
    requires FailsAs(steps, i, name)
    ensures 0 <= i < |steps|
  {
  }

  // ---------------------------------------------------------------- errors

  predicate IsTopKey(key: string) {
    key == "ok" || key == "decision" || key == "decision_line" || key == "strict" || key == "selected_python"
    || key == "steps" || key == "failed_steps"
  }

  predicate IsStepKey(key: string) {
    key == "name" || key == "command" || key == "returncode" || key == "stdout_log" || key == "stderr_log"
    || key == "artifact"
  }

  /** The step with the given number, which counts from one, is an object. */
  ghost predicate StepAt(steps: seq<Json>, idx: nat) { 0 < idx <= |steps| && steps[idx - 1].Object? }

  /** The failed steps are not the names of the failing ones, each as often. */
  ghost predicate FailedStepsDiffer(p: Fields, steps: seq<Json>) {
    HasList(p, "failed_steps") &&
    exists x: Json :: multiset(p["failed_steps"].items)[x] != if x.Str? then |FailingAs(steps, x.s)| else 0
  }

  /** The error is true of the summary. */
  ghost predicate Tells(p: Fields, e: Error) {
    var steps := if HasList(p, "steps") then p["steps"].items else [];
    match e
    case MissingKey(key) => IsTopKey(key) && key !in p
    case OkNotBool => !HasBool(p, "ok")
    case DecisionInvalid => !HasDecision(p)
    case DecisionLineInvalid => !HasLine(p)
    case StrictNotBool => !HasBool(p, "strict")
    case PythonInvalid => !HasText(p, "selected_python")
    case FailedStepsInvalid => !HasTexts(p, "failed_steps")
    case StepsNotList => !HasList(p, "steps")
    case StepNotObject(idx) => 0 < idx <= |steps| && !steps[idx - 1].Object?
    case StepMissingKey(idx, key) => StepAt(steps, idx) && IsStepKey(key) && key !in steps[idx - 1].fields
    case StepName(idx) => StepAt(steps, idx) && !HasText(steps[idx - 1].fields, "name")
    case StepCommand(idx) => StepAt(steps, idx) && !HasTexts(steps[idx - 1].fields, "command")
    case StepReturncode(idx) => StepAt(steps, idx) && !HasInt(steps[idx - 1].fields, "returncode")
    case StepStdout(idx) => StepAt(steps, idx) && !HasText(steps[idx - 1].fields, "stdout_log")
    case StepStderr(idx) => StepAt(steps, idx) && !HasText(steps[idx - 1].fields, "stderr_log")
    case FailedStepsMismatch => HasList(p, "steps") && FailedStepsDiffer(p, steps)
    case OkMismatch => HasList(p, "steps") && HasBool(p, "ok") && p["ok"] != Bool(NoneFails(steps))
    case DecisionMismatch =>
      HasList(p, "steps") && HasBool(p, "ok") && HasDecision(p) &&
      p["decision"] != Str(if NoneFails(steps) then "SHIP" else "NO-SHIP")
    case DecisionLineMismatch =>
      HasList(p, "steps") && HasBool(p, "ok") && HasLine(p) &&
      p["decision_line"] != Str(LineOf(NoneFails(steps)))
  }

  lemma {:induction false} MissingTopMember(keys: seq<string>, p: Fields, e: Error)
    ensures e in MissingTop(keys, p) <==> e.MissingKey? && e.key in keys && e.key !in p
  {
    if keys != [] {
      MissingTopMember(keys[..|keys| - 1], p, e);
      assert forall k :: k in keys <==> k in keys[..|keys| - 1] || k == keys[|keys| - 1];
    }
  }

  lemma {:induction false} MissingStepMember(keys: seq<string>, f: Fields, idx: nat, e: Error)
    ensures e in MissingStep(keys, f, idx) <==>
            e.StepMissingKey? && e.idx == idx && e.key in keys && e.key !in f
  {
    if keys != [] {
      MissingStepMember(keys[..|keys| - 1], f, idx, e);
      assert forall k :: k in keys <==> k in keys[..|keys| - 1] || k == keys[|keys| - 1];
    }
  }

  lemma TopKeys(key: string)
    ensures key in TOP_LEVEL <==> IsTopKey(key)
  {
    assert TOP_LEVEL[0] == "ok" && TOP_LEVEL[1] == "decision" && TOP_LEVEL[2] == "decision_line";
    assert TOP_LEVEL[3] == "strict" && TOP_LEVEL[4] == "selected_python" && TOP_LEVEL[5] == "steps";
    assert TOP_LEVEL[6] == "failed_steps";
  }

  lemma StepKeys(key: string)
    ensures key in STEP_KEYS <==> IsStepKey(key)
  {
    assert STEP_KEYS[0] == "name" && STEP_KEYS[1] == "command" && STEP_KEYS[2] == "returncode";
    assert STEP_KEYS[3] == "stdout_log" && STEP_KEYS[4] == "stderr_log" && STEP_KEYS[5] == "artifact";
  }

  lemma FieldErrorsMember(p: Fields, e: Error)
    ensures e in FieldErrors(p) <==>
            || (e == OkNotBool && !HasBool(p, "ok")) || (e == DecisionInvalid && !HasDecision(p))
            || (e == DecisionLineInvalid && !HasLine(p)) || (e == StrictNotBool && !HasBool(p, "strict"))
            || (e == PythonInvalid && !HasText(p, "selected_python"))
            || (e == FailedStepsInvalid && !HasTexts(p, "failed_steps"))
  {
    hide HasBool, HasText, HasTexts, IsNonEmptyStr, IsStrList, HasLine, IsDecisionLine;
    FieldsMean(p, "ok");
    FieldsMean(p, "strict");
    FieldsMean(p, "selected_python");
    FieldsMean(p, "failed_steps");
    LineMeans(p);
  }

  lemma LineMeans(p: Fields)
    ensures IsDecisionLine(Get(p, "decision_line")) <==> HasLine(p)
  {
    hide Decision;
    assert Decision(true) == "SHIP" && Decision(false) == "NO-SHIP" by { DecisionTexts(); }
    LineText(true);
    LineText(false);
  }

  lemma DecisionTexts()
    ensures Decision(true) == "SHIP" && Decision(false) == "NO-SHIP"
  {
  }

  lemma StepFieldErrorsMember(f: Fields, idx: nat, e: Error)
    ensures e in StepFieldErrors(f, idx) <==>
            || (e == StepName(idx) && !HasText(f, "name")) || (e == StepCommand(idx) && !HasTexts(f, "command"))
            || (e == StepReturncode(idx) && !HasInt(f, "returncode"))
            || (e == StepStdout(idx) && !HasText(f, "stdout_log"))
            || (e == StepStderr(idx) && !HasText(f, "stderr_log"))
  {
    hide HasText, HasTexts, HasInt, IsNonEmptyStr, IsStrList, IsInt;
    FieldsMean(f, "name");
    FieldsMean(f, "command");
    FieldsMean(f, "returncode");
    FieldsMean(f, "stdout_log");
    FieldsMean(f, "stderr_log");
  }

  /** What is found at the step with the given number. */
  ghost predicate StepTells(step: Json, idx: nat, e: Error) {
    match e
    case StepNotObject(n) => n == idx && !step.Object?
    case StepMissingKey(n, key) => n == idx && step.Object? && IsStepKey(key) && key !in step.fields
    case StepName(n) => n == idx && step.Object? && !HasText(step.fields, "name")
    case StepCommand(n) => n == idx && step.Object? && !HasTexts(step.fields, "command")
    case StepReturncode(n) => n == idx && step.Object? && !HasInt(step.fields, "returncode")
    case StepStdout(n) => n == idx && step.Object? && !HasText(step.fields, "stdout_log")
    case StepStderr(n) => n == idx && step.Object? && !HasText(step.fields, "stderr_log")
    case _ => false
  }

  lemma StepErrorsMember(step: Json, idx: nat, e: Error)
    ensures e in StepErrors(step, idx) <==> StepTells(step, idx, e)
  {
    hide HasText, HasTexts, HasInt, MissingStep, StepFieldErrors, IsStepKey;
    if step.Object? {
      MissingStepMember(STEP_KEYS, step.fields, idx, e);
      StepFieldErrorsMember(step.fields, idx, e);
      if e.StepMissingKey? { StepKeys(e.key); }
    }
  }

  lemma {:induction false} AllStepErrorsMember(steps: seq<Json>, e: Error)
    ensures e in AllStepErrors(steps) <==> exists i :: 0 <= i < |steps| && StepTells(steps[i], i + 1, e)
  {
    hide StepErrors, StepTells;
    if steps != [] {
      var front := steps[..|steps| - 1];
      AllStepErrorsMember(front, e);
      StepErrorsMember(steps[|steps| - 1], |steps|, e);
      assert forall i :: 0 <= i < |front| ==> front[i] == steps[i];
    }
  }

  lemma {:induction false} TextsCount(items: seq<Json>, name: string)
    requires AllStr(items)
    ensures multiset(Texts(items))[name] == multiset(items)[Str(name)]
  {
    if items != [] {
      var front, last := items[..|items| - 1], items[|items| - 1];
      TextsCount(front, name);
      assert items == front + [last] && Texts(items) == Texts(front) + [last.s];
    }
  }

  lemma MismatchMeans(p: Fields, steps: seq<Json>, e: Error)
    ensures e in MismatchErrors(p, Failing(steps)) <==> e == FailedStepsMismatch && FailedStepsDiffer(p, steps)
  {
    hide Failing, FailsAs, Texts, SortTexts;
    if HasList(p, "failed_steps") {
      var items, failing := p["failed_steps"].items, Failing(steps);
      forall name { FailingMeans(steps, name); }
      if AllStr(items) {
        forall name { TextsCount(items, name); }
        SortTextsEqual(Texts(items), failing);
        forall x: Json | !x.Str? ensures multiset(items)[x] == 0 { assert x !in items; }
        if x: Json :| multiset(items)[x] != if x.Str? then |FailingAs(steps, x.s)| else 0 {
          assert multiset(Texts(items))[x.s] != multiset(failing)[x.s];
        } else {
          forall name ensures multiset(Texts(items))[name] == multiset(failing)[name] {
            assert multiset(items)[Str(name)] == |FailingAs(steps, name)|;
          }
          assert multiset(Texts(items)) == multiset(failing);
        }
      } else {
        var i :| 0 <= i < |items| && !items[i].Str?;
        assert items[i] in items;
      }
    }
  }

  lemma OutcomeMeans(p: Fields, ship: bool, e: Error)
    ensures e in OutcomeErrors(p, ship) <==>
            HasBool(p, "ok") &&
            (|| (e == OkMismatch && p["ok"] != Bool(ship))
             || (e == DecisionMismatch && HasDecision(p) && p["decision"] != Str(if ship then "SHIP" else "NO-SHIP"))
             || (e == DecisionLineMismatch && HasLine(p) && p["decision_line"] != Str(LineOf(ship))))
  {
    hide LineOf, HasLine, IsDecisionLine;
    LineMeans(p);
    LineText(ship);
    LinePresent(p);
  }

  lemma LinePresent(p: Fields)
    ensures HasLine(p) ==> "decision_line" in p
  {
  }

  predicate IsHeadError(e: Error) {
    e.MissingKey? || e.OkNotBool? || e.DecisionInvalid? || e.DecisionLineInvalid? || e.StrictNotBool?
    || e.PythonInvalid? || e.FailedStepsInvalid?
  }

  predicate IsOutcomeError(e: Error) {
    e.FailedStepsMismatch? || e.OkMismatch? || e.DecisionMismatch? || e.DecisionLineMismatch?
  }

  lemma HeadMeans(p: Fields, e: Error)
    ensures e in MissingTop(TOP_LEVEL, p) + FieldErrors(p) <==> IsHeadError(e) && Tells(p, e)
  {
    hide HasBool, HasText, HasTexts, HasInt, HasDecision, HasLine, HasList, MissingTop, FieldErrors, IsTopKey;
    MissingTopMember(TOP_LEVEL, p, e);
    if e.MissingKey? { TopKeys(e.key); }
    FieldErrorsMember(p, e);
  }

  lemma StepsMean(p: Fields, e: Error)
    requires HasList(p, "steps")
    ensures e in AllStepErrors(p["steps"].items) <==>
            !IsHeadError(e) && !e.StepsNotList? && !IsOutcomeError(e) && Tells(p, e)
  {
    hide HasBool, HasText, HasTexts, HasInt, HasDecision, HasLine, AllStepErrors, IsStepKey, FailedStepsDiffer;
    hide NoneFails;
    AllStepErrorsMember(p["steps"].items, e);
  }

  lemma OutcomesMean(p: Fields, e: Error)
    requires HasList(p, "steps")
    ensures var steps := p["steps"].items;
            e in MismatchErrors(p, Failing(steps)) + OutcomeErrors(p, Failing(steps) == []) <==>
            IsOutcomeError(e) && Tells(p, e)
  {
    hide HasBool, HasDecision, HasLine, NoneFails, FailedStepsDiffer, Failing, LineOf, MismatchErrors, OutcomeErrors;
    var steps := p["steps"].items;
    MismatchMeans(p, steps, e);
    NoneFailsMeans(steps);
    OutcomeMeans(p, Failing(steps) == [], e);
  }

  /** The contract reports exactly the errors that are true of the summary. */
  lemma ErrorMeans(p: Fields, e: Error)
    ensures e in ContractErrors(p) <==> Tells(p, e)
  {
    hide Tells, HasList, MissingTop, FieldErrors, AllStepErrors, MismatchErrors, OutcomeErrors, Failing;
    FieldsMean(p, "steps");
    HeadMeans(p, e);
    NotList(p, e);
    if HasList(p, "steps") {
      StepsMean(p, e);
      OutcomesMean(p, e);
      assert Get(p, "steps") == p["steps"];
    }
  }

  lemma NotList(p: Fields, e: Error)
    ensures e.StepsNotList? ==> (Tells(p, e) <==> !HasList(p, "steps"))
    ensures !HasList(p, "steps") && Tells(p, e) ==> IsHeadError(e) || e.StepsNotList?
    ensures HasList(p, "steps") ==> "steps" in p
  {
    hide HasBool, HasText, HasTexts, HasInt, HasDecision, HasLine, IsTopKey, IsStepKey;
  }

  /** A list of at least two entries that are neither all texts nor all numbers has no order. */
  ghost predicate IsMixed(items: seq<Json>) {
    && |items| >= 2 && (exists x :: x in items && !x.Str?)
    && exists x :: x in items && !x.Int? && !x.Bool? && !x.Float?
  }

  /** The check raises exactly for verdicts that are lists or objects, and for failed steps that have no order. */
  lemma RaisesMeans(p: Fields)
    ensures Raises(p) <==>
            || ("decision" in p && (p["decision"].Array? || p["decision"].Object?))
            || ("decision_line" in p && (p["decision_line"].Array? || p["decision_line"].Object?))
            || (HasList(p, "steps") && HasList(p, "failed_steps") && IsMixed(p["failed_steps"].items))
  {
    if HasList(p, "failed_steps") { MixedMeans(p["failed_steps"].items); }
  }

  lemma MixedMeans(items: seq<Json>)
    ensures Sortable(items) <==> !IsMixed(items)
  {
    if i :| 0 <= i < |items| && !items[i].Str? { assert items[i] in items; }
    if i :| 0 <= i < |items| && !(IsInt(items[i]) || items[i].Float?) { assert items[i] in items; }
  }

  // ---------------------------------------------------------------- the health score

  /** The doctor step is the first one of that name; it failed when its return code is missing or not zero. */
  ghost predicate DoctorAt(steps: seq<Json>, i: int) {
    && 0 <= i < |steps| && steps[i].Object? && Get(steps[i].fields, "name") == Str("doctor")
    && forall k :: 0 <= k < i ==> steps[k].Object? && Get(steps[k].fields, "name") != Str("doctor")
  }

  lemma {:induction false} FirstDoctorMeans(steps: seq<Json>, i: int)
    requires DoctorAt(steps, i)
    ensures FirstDoctor(steps) == Returned(Some(steps[i].fields))
    decreases |steps|
  {
    if i > 0 {
      assert steps[0].Object?;
      assert DoctorAt(steps[1..], i - 1);
      FirstDoctorMeans(steps[1..], i - 1);
    }
  }

  /** The penalties: fifty for a summary that is not ok, ten up to thirty for failed steps, twenty for the doctor. */
  lemma HealthMeans(p: Fields, failed: seq<Json>, i: int)
    requires HasBool(p, "ok") && Get(p, "failed_steps") == Array(failed)
    requires HasList(p, "steps") && DoctorAt(p["steps"].items, i)
    requires var doctor := p["steps"].items[i].fields;
             "returncode" in doctor ==> HasInt(doctor, "returncode")
    ensures var doctor := p["steps"].items[i].fields;
            var passed := "returncode" in doctor &&
                          (doctor["returncode"] == Int(0) || doctor["returncode"] == Bool(false));
            var points := 100 - (if p["ok"].b then 0 else 50)
                          - (if |failed| >= 3 then 30 else 10 * |failed|)
                          - (if passed then 0 else 20);
            RawHealth(p).Returned? && RawHealth(p).value.0 == points && ClampScore(points) == points
  {
    hide FirstDoctor;
    FirstDoctorMeans(p["steps"].items, i);
  }

  lemma {:induction false} NoDoctorFound(steps: seq<Json>)
    requires forall k :: 0 <= k < |steps| ==> steps[k].Object? && Get(steps[k].fields, "name") != Str("doctor")
    ensures FirstDoctor(steps) == Returned(None)
    decreases |steps|
  {
    if steps != [] { NoDoctorFound(steps[1..]); }
  }

  /** Without a doctor step nothing is taken off for it. */
  lemma HealthWithoutDoctor(p: Fields, failed: seq<Json>)
    requires HasBool(p, "ok") && Get(p, "failed_steps") == Array(failed) && HasList(p, "steps")
    requires forall k :: 0 <= k < |p["steps"].items| ==>
               p["steps"].items[k].Object? && Get(p["steps"].items[k].fields, "name") != Str("doctor")
    ensures RawHealth(p).Returned?
    ensures RawHealth(p).value.0 ==
            100 - (if p["ok"].b then 0 else 50) - (if |failed| >= 3 then 30 else 10 * |failed|)
  {
    hide FirstDoctor;
    NoDoctorFound(p["steps"].items);
  }

  /** A summary that calls itself ok although its doctor failed scores eighty and is yellow: the contract refuses such
      a summary, but the health score does not ask it. */
  lemma YellowSummary()
    ensures var doctor := Object(map["name" := Str("doctor"), "returncode" := Int(1)]);
            var p := map["ok" := Bool(true), "failed_steps" := Array([]), "steps" := Array([doctor])];
            RawHealth(p).Returned? && RawHealth(p).value.0 == 80 && LightOf(80) == Yellow && LightOf(85) == Green
            && LightOf(84) == Yellow && LightOf(60) == Yellow && LightOf(59) == Red
  {
    var doctor := Object(map["name" := Str("doctor"), "returncode" := Int(1)]);
    var p := map["ok" := Bool(true), "failed_steps" := Array([]), "steps" := Array([doctor])];
    assert DoctorAt(p["steps"].items, 0);
    HealthMeans(p, [], 0);
  }
}
