/** Remediation incidents: the time from the first failed run of a block to the next successful run. */
module FollowupHistory {
  import opened Outcomes

  /** One history row; ts is in seconds. */
  datatype Entry = Entry(ts: real, ok: bool)

  function Hours(from: real, to: real): real { (to - from) / 3600.0 }

  /** The first row of the block of failures that ends at row k. */
  function BlockStart(rows: seq<Entry>, k: nat): (start: nat)
    requires k < |rows|
    ensures start <= k
  {
    if k == 0 || rows[k - 1].ok then k else BlockStart(rows, k - 1)
  }

  /** Row k closes an incident: it succeeds and the row before it failed. */
  predicate Closes(rows: seq<Entry>, k: nat)
    requires k < |rows|
  {
    k > 0 && rows[k].ok && !rows[k - 1].ok
  }

  function IncidentHours(rows: seq<Entry>, k: nat): real
    requires k < |rows| && Closes(rows, k)
  {
    Hours(rows[BlockStart(rows, k - 1)].ts, rows[k].ts)
  }

  /** The durations of the incidents closed by the first n rows, in order. */
  function Incidents(rows: seq<Entry>, n: nat): seq<real>
    requires n <= |rows|
  {
    if n == 0 then []
    else Incidents(rows, n - 1) + if Closes(rows, n - 1) then [IncidentHours(rows, n - 1)] else []
  }

  /** The timestamp of the failure block that is still open after n rows. */
  function OpenSince(rows: seq<Entry>, n: nat): Option<real>
    requires n <= |rows|
  {
    if n == 0 || rows[n - 1].ok then None else Some(rows[BlockStart(rows, n - 1)].ts)
  }

  method RemediationDurations(rows: seq<Entry>) returns (durations: seq<real>)
    ensures durations == Incidents(rows, |rows|)
  {
    durations := [];
    var openFailure: Option<real> := None;
    for n := 0 to |rows|
      invariant durations == Incidents(rows, n)
      invariant openFailure == OpenSince(rows, n)
    {
      var row := rows[n];
      if !row.ok && openFailure.None? {
        openFailure := Some(row.ts);
      } else if row.ok && openFailure.Some? {
        durations := durations + [Hours(openFailure.value, row.ts)];
        openFailure := None;
      }
    }
  }

  // ---------------------------------------------------------------- what the durations are

  /** BlockStart really is the start of a maximal block of failures. */
  lemma {:induction false} BlockShape(rows: seq<Entry>, k: nat)
    requires k < |rows| && !rows[k].ok
    ensures forall i :: BlockStart(rows, k) <= i <= k ==> !rows[i].ok
    ensures BlockStart(rows, k) > 0 ==> rows[BlockStart(rows, k) - 1].ok
  {
    if k > 0 && !rows[k - 1].ok { BlockShape(rows, k - 1); }
  }

  function Closings(rows: seq<Entry>): set<nat> { set k: nat | k < |rows| && Closes(rows, k) }

  lemma {:induction false} IncidentCount(rows: seq<Entry>, n: nat)
    requires n <= |rows|
    ensures |Incidents(rows, n)| == |set k: nat | k < n && Closes(rows, k)|
  {
    hide BlockStart, Closes;
    var closed := set k: nat | k < n && Closes(rows, k);
    if n == 0 {
      assert closed == {};
    } else {
      IncidentCount(rows, n - 1);
      var before := set k: nat | k < n - 1 && Closes(rows, k);
      assert closed == before + if Closes(rows, n - 1) then {n - 1} else {};
    }
  }

  /** One incident is closed per success that directly follows a failure. */
  lemma ClosedIncidents(rows: seq<Entry>)
    ensures |Incidents(rows, |rows|)| == |Closings(rows)|
  {
    IncidentCount(rows, |rows|);
    assert Closings(rows) == set k: nat | k < |rows| && Closes(rows, k);
  }

  lemma {:induction false} BlockStartIs(rows: seq<Entry>, start: nat, k: nat)
    requires start <= k < |rows| && (start == 0 || rows[start - 1].ok)
    requires forall i :: start <= i <= k ==> !rows[i].ok
    ensures BlockStart(rows, k) == start
  {
    if start < k { BlockStartIs(rows, start, k - 1); }
  }

  /** A success that ends a block of failures is recorded after the earlier ones, in hours since the block began. */
  lemma IncidentMeans(rows: seq<Entry>, start: nat, end: nat)
    requires start < end < |rows| && rows[end].ok && (start == 0 || rows[start - 1].ok)
    requires forall i :: start <= i < end ==> !rows[i].ok
    ensures var earlier := |set k: nat | k < end && Closes(rows, k)|;
            && earlier < |Incidents(rows, |rows|)|
            && Incidents(rows, |rows|)[earlier] * 3600.0 == rows[end].ts - rows[start].ts
  {
    BlockStartIs(rows, start, end - 1);
    IncidentCount(rows, end);
    assert Closes(rows, end);
    IncidentsGrow(rows, end + 1, |rows|);
  }

  lemma {:induction false} BlockStartAppend(rows: seq<Entry>, more: seq<Entry>, k: nat)
    requires k < |rows|
    ensures BlockStart(rows + more, k) == BlockStart(rows, k)
  {
    if k > 0 { BlockStartAppend(rows, more, k - 1); }
  }

  lemma {:induction false} IncidentsAppend(rows: seq<Entry>, more: seq<Entry>, n: nat)
    requires n <= |rows|
    ensures Incidents(rows + more, n) == Incidents(rows, n)
  {
    if n > 0 {
      IncidentsAppend(rows, more, n - 1);
      assert (rows + more)[n - 1] == rows[n - 1];
      if n > 1 { assert (rows + more)[n - 2] == rows[n - 2]; }
      if Closes(rows, n - 1) { BlockStartAppend(rows, more, n - 2); }
    }
  }

  lemma {:induction false} IncidentsGrow(rows: seq<Entry>, n: nat, m: nat)
    requires n <= m <= |rows|
    ensures Incidents(rows, n) <= Incidents(rows, m)
    decreases m
  {
    if n < m { IncidentsGrow(rows, n, m - 1); }
  }

  /** Appending to the history never changes a duration that was already recorded. */
  lemma HistoryIsStable(rows: seq<Entry>, more: seq<Entry>)
    ensures Incidents(rows, |rows|) <= Incidents(rows + more, |rows + more|)
  {
    IncidentsAppend(rows, more, |rows|);
    IncidentsGrow(rows + more, |rows|, |rows + more|);
  }

  // ---------------------------------------------------------------- time

  ghost predicate InOrder(rows: seq<Entry>) { forall i, j :: 0 <= i <= j < |rows| ==> rows[i].ts <= rows[j].ts }

  function Total(s: seq<real>): real { if s == [] then 0.0 else Total(s[..|s| - 1]) + s[|s| - 1] }

  /** The last row that no open block covers: everything recorded so far happened before it. */
  function SettledAt(rows: seq<Entry>, n: nat): nat
    requires 0 < n <= |rows|
  {
    if rows[n - 1].ok then n - 1 else BlockStart(rows, n - 1)
  }

  lemma {:induction false} SpanBound(rows: seq<Entry>, n: nat)
    requires InOrder(rows) && 0 < n <= |rows|
    ensures forall i :: 0 <= i < |Incidents(rows, n)| ==> Incidents(rows, n)[i] >= 0.0
    ensures Total(Incidents(rows, n)) <= Hours(rows[0].ts, rows[SettledAt(rows, n)].ts)
  {
    if !rows[n - 1].ok { BlockShape(rows, n - 1); }
    if n > 1 {
      SpanBound(rows, n - 1);
      if !rows[n - 2].ok { BlockShape(rows, n - 2); }
      var before, now := Incidents(rows, n - 1), Incidents(rows, n);
      assert now == before || now[..|now| - 1] == before;
      assert rows[SettledAt(rows, n - 1)].ts <= rows[SettledAt(rows, n)].ts;
    } else {
      assert Incidents(rows, 0) == [];
    }
  }

  /** With timestamps in order, durations are non-negative and add up to no more than the history's span. */
  lemma DurationsWithinSpan(rows: seq<Entry>)
    requires InOrder(rows) && rows != []
    ensures forall i :: 0 <= i < |Incidents(rows, |rows|)| ==> Incidents(rows, |rows|)[i] >= 0.0
    ensures Total(Incidents(rows, |rows|)) * 3600.0 <= rows[|rows| - 1].ts - rows[0].ts
  {
    SpanBound(rows, |rows|);
    if !rows[|rows| - 1].ok { BlockShape(rows, |rows| - 1); }
  }
}
