/** Waiting for a summary that another process writes: poll until it is valid or the deadline has passed. */
module SummaryPolling {
  import opened Outcomes
  import opened FirstProofSummary

  /** What one poll finds: a JSON object, no file, a file that holds no JSON object, or an operating-system error other
      than a missing file, such as a directory or a missing permission, which no handler catches. */
  datatype Read = Content(fields: Fields) | NotFound | Unreadable | Denied

  /** Crashed: reading or the contract check raised an error that escapes the loop.  Checked: the errors that are
      reported, success if none. */
  datatype Verdict = Crashed | Skipped | CannotLoad(missing: bool) | Checked(errors: seq<Error>)

  predicate Succeeds(r: Read) { r.Content? && !Raises(r.fields) && ContractErrors(r.fields) == [] }

  predicate Crashes(r: Read) { r.Denied? || (r.Content? && Raises(r.fields)) }

  /** The most recent object among the first n polls. */
  function LastContent(seen: nat -> Read, n: nat): Option<Fields> {
    if n == 0 then None
    else if seen(n - 1).Content? then Some(seen(n - 1).fields)
    else LastContent(seen, n - 1)
  }

  /** The verdict of a run whose last poll was poll n - 1. */
  function VerdictAfter(seen: nat -> Read, n: nat, allowMissing: bool): Verdict
    requires n > 0
  {
    var last, retained := seen(n - 1), LastContent(seen, n);
    if Crashes(last) then Crashed
    else if retained.Some? then Checked(ContractErrors(retained.value))
    else if allowMissing && last.NotFound? then Skipped
    else CannotLoad(last.NotFound?)
  }

  function Max(a: real, b: real): real { if a >= b then a else b }

  function Ceiling(x: real): int { -((-x).Floor) }

  function Deadline(start: real, wait: real): real { start + Max(wait, 0.0) }

  /** The pause between two polls. */
  function Pause(interval: real): real { Max(interval, 0.05) }

  /** The most polls a wait can take. */
  function PollBound(wait: real, interval: real): int { Ceiling(Max(wait, 0.0) / Pause(interval)) + 1 }

  /** Poll i ends the loop. */
  predicate Stops(seen: nat -> Read, clock: nat -> real, deadline: real, i: nat) {
    Succeeds(seen(i)) || Crashes(seen(i)) || clock(i) >= deadline
  }

  /** clock(i) is the reading after poll i; between two readings the loop sleeps for the whole pause. */
  ghost predicate ClockAdvances(clock: nat -> real, start: real, pause: real) {
    clock(0) >= start && forall i: nat :: clock(i + 1) >= clock(i) + pause
  }

  lemma {:induction false} ClockReaches(clock: nat -> real, start: real, pause: real, i: nat)
    requires ClockAdvances(clock, start, pause)
    ensures clock(i) >= start + i as real * pause
  {
    if i > 0 {
      ClockReaches(clock, start, pause, i - 1);
      assert clock((i - 1) + 1) >= clock(i - 1) + pause;
      assert i as real * pause == (i - 1) as real * pause + pause;
    }
  }

  lemma BelowBound(i: nat, wait: real, interval: real)
    requires i as real * Pause(interval) < Max(wait, 0.0)
    ensures i + 1 < PollBound(wait, interval)
  {
    var w, s := Max(wait, 0.0), Pause(interval);
    var q := w / s;
    assert q * s == w;
    assert i as real >= q ==> i as real * s >= q * s;
    assert i as real < q;
  }

  lemma BoundPositive(wait: real, interval: real)
    ensures PollBound(wait, interval) >= 1
  {
    var w, s := Max(wait, 0.0), Pause(interval);
    var q := w / s;
    assert q * s == w;
    assert q < 0.0 ==> q * s < 0.0;
  }

  /** Waiting for n pauses takes at most n + 1 polls, where no pause is shorter than a twentieth of a second; without a
      positive wait there is one poll. */
  lemma BoundMeans(interval: real, n: nat)
    ensures interval >= 0.05 ==> PollBound(n as real * interval, interval) == n + 1
    ensures interval <= 0.05 ==> PollBound(n as real * 0.05, interval) == n + 1
    ensures forall wait :: wait <= 0.0 ==> PollBound(wait, interval) == 1
    ensures forall start, wait: real :: Deadline(start, wait) == if wait <= 0.0 then start else start + wait
  {
    assert Ceiling(n as real) == n && Ceiling(0.0) == 0;
    Quotients(n as real, Pause(interval));
    Quotients(n as real, 0.05);
    if interval >= 0.05 {
      Quotients(n as real, interval);
      var wait := n as real * interval;
      assert Max(wait, 0.0) == wait && wait / interval == n as real;
    }
  }

  lemma Quotients(x: real, pause: real)
    requires pause > 0.0 && x >= 0.0
    ensures x * pause / pause == x && 0.0 / pause == 0.0 && x * pause >= 0.0
  {
  }

  /** The run of a clock ends with poll n - 1: the first one that stops it. */
  ghost predicate RunEnds(seen: nat -> Read, clock: nat -> real, deadline: real, n: nat) {
    n > 0 && Stops(seen, clock, deadline, n - 1) && forall i: nat :: i < n - 1 ==> !Stops(seen, clock, deadline, i)
  }

  method PollSummary(
    seen: nat -> Read, clock: nat -> real, start: real, wait: real, interval: real, allowMissing: bool)
    returns (verdict: Verdict, polls: nat)
    requires ClockAdvances(clock, start, Pause(interval))
    ensures 1 <= polls <= PollBound(wait, interval)
    ensures RunEnds(seen, clock, Deadline(start, wait), polls)
    ensures verdict == VerdictAfter(seen, polls, allowMissing)
  {
    hide ContractErrors, Raises, PollBound, Pause;
    var deadline := Deadline(start, wait);
    var payload: Option<Fields> := None;
    var lastMissing := false;
    var lastErrors: seq<Error> := [];
    polls := 0;
    BoundPositive(wait, interval);
    while true
      invariant polls < PollBound(wait, interval)
      invariant forall i: nat :: i < polls ==> !Stops(seen, clock, deadline, i)
      invariant payload == LastContent(seen, polls)
      invariant payload.Some? ==> !Raises(payload.value)
      invariant payload.Some? ==> lastErrors == ContractErrors(payload.value) && lastErrors != []
      decreases PollBound(wait, interval) - polls
    {
      var read := seen(polls);
      polls := polls + 1;
      if read.Denied? { return Crashed, polls; }
      if read.Content? {
        payload := Some(read.fields);
        var checked := CheckContract(read.fields);
        if checked.Raised? { return Crashed, polls; }
        lastErrors := checked.value;
        if checked.value == [] { break; }
      } else {
        lastMissing := read.NotFound?;
      }
      if clock(polls - 1) >= deadline { break; }
      ClockReaches(clock, start, Pause(interval), polls - 1);
      BelowBound(polls - 1, wait, interval);
    }
    if payload.None? {
      if allowMissing && lastMissing { return Skipped, polls; }
      return CannotLoad(lastMissing), polls;
    }
    var errors := lastErrors;
    if lastErrors == [] {
      var checked := CheckContract(payload.value);
      errors := checked.value;
    }
    return Checked(errors), polls;
  }

  // ---------------------------------------------------------------- what the verdict means

  /** No poll before the last one ended the loop by success or by a crash. */
  ghost predicate RanTo(seen: nat -> Read, n: nat) {
    n > 0 && forall i: nat :: i < n - 1 ==> !Succeeds(seen(i)) && !Crashes(seen(i))
  }

  lemma {:induction false} RetainedIsContent(seen: nat -> Read, n: nat)
    ensures LastContent(seen, n).Some? <==> exists i: nat :: i < n && seen(i).Content?
    ensures LastContent(seen, n).Some? ==>
              exists i: nat :: i < n && seen(i) == Content(LastContent(seen, n).value)
  {
    if n > 0 { RetainedIsContent(seen, n - 1); }
  }

  /** Success is reported exactly when the last poll read a valid summary: stale objects never count. */
  lemma SuccessIff(seen: nat -> Read, n: nat, allowMissing: bool)
    requires RanTo(seen, n)
    ensures VerdictAfter(seen, n, allowMissing) == Checked([]) <==>
            seen(n - 1).Content? && ValidSummary(seen(n - 1).fields)
  {
    hide ContractErrors, Raises, ValidSummary;
    var last := seen(n - 1);
    if last.Content? {
      AcceptedIff(last.fields);
    } else if LastContent(seen, n).Some? {
      RetainedIsContent(seen, n - 1);
      var i: nat :| i < n - 1 && seen(i) == Content(LastContent(seen, n).value);
      assert !Succeeds(seen(i)) && !Crashes(seen(i));
    }
  }

  /** Poll i is reached: nothing before it was valid, raised, or found the deadline passed. */
  ghost predicate Reached(seen: nat -> Read, clock: nat -> real, deadline: real, i: nat) {
    forall k: nat :: k < i ==> !Stops(seen, clock, deadline, k)
  }

  lemma LastReached(seen: nat -> Read, clock: nat -> real, deadline: real, n: nat, i: nat)
    requires RunEnds(seen, clock, deadline, n) && Stops(seen, clock, deadline, i) && Reached(seen, clock, deadline, i)
    ensures i == n - 1
  {
  }

  /** Outcomes by what the polls find: a run from the start crashes exactly when it reaches a poll that raises, and
      succeeds exactly when it reaches one that reads a valid summary. */
  lemma OutcomeIff(seen: nat -> Read, clock: nat -> real, deadline: real, n: nat, allowMissing: bool)
    requires RunEnds(seen, clock, deadline, n)
    ensures VerdictAfter(seen, n, allowMissing) == Crashed <==>
            exists i: nat :: Reached(seen, clock, deadline, i) && Crashes(seen(i))
    ensures VerdictAfter(seen, n, allowMissing) == Checked([]) <==>
            exists i: nat :: Reached(seen, clock, deadline, i) && seen(i).Content? && ValidSummary(seen(i).fields)
  {
    hide ContractErrors, Raises, ValidSummary;
    forall i: nat | i < n - 1 ensures !Succeeds(seen(i)) && !Crashes(seen(i)) {
      assert !Stops(seen, clock, deadline, i);
    }
    SuccessIff(seen, n, allowMissing);
    assert Reached(seen, clock, deadline, n - 1);
    forall i: nat | Reached(seen, clock, deadline, i) && Crashes(seen(i)) ensures i == n - 1 {
      LastReached(seen, clock, deadline, n, i);
    }
    forall i: nat | Reached(seen, clock, deadline, i) && seen(i).Content? && ValidSummary(seen(i).fields)
      ensures i == n - 1
    {
      AcceptedIff(seen(i).fields);
      LastReached(seen, clock, deadline, n, i);
    }
  }

  /** Skipping needs permission, a last poll that found no file, and no object on any poll. */
  lemma SkippedIff(seen: nat -> Read, n: nat, allowMissing: bool)
    requires RanTo(seen, n)
    ensures VerdictAfter(seen, n, allowMissing) == Skipped <==>
            allowMissing && seen(n - 1).NotFound? && forall i: nat :: i < n ==> !seen(i).Content?
  {
    hide ContractErrors, Raises;
    RetainedIsContent(seen, n);
  }

  /** A failure over a retained object reports that object's own errors, and there are some. */
  lemma RetainedErrors(seen: nat -> Read, n: nat, allowMissing: bool)
    requires RanTo(seen, n) && !Crashes(seen(n - 1)) && LastContent(seen, n).Some?
    ensures VerdictAfter(seen, n, allowMissing) == Checked(ContractErrors(LastContent(seen, n).value))
    ensures !seen(n - 1).Content? ==> ContractErrors(LastContent(seen, n).value) != []
  {
    hide ContractErrors, Raises;
    if !seen(n - 1).Content? {
      RetainedIsContent(seen, n - 1);
      var i: nat :| i < n - 1 && seen(i) == Content(LastContent(seen, n).value);
      assert !Succeeds(seen(i)) && !Crashes(seen(i));
    }
  }
}
