/** The seven-run ship rate and the breach decision taken from it. */
module FirstProofTrend {
  import opened Ordering
  import opened Outcomes

  /** One line of the run database; lines that are no JSON objects are dropped on loading. */
  datatype Line = NotAnObject | Run(decision: Option<string>)

  const WINDOW: nat := 7

  predicate IsRun(l: Line) { l.Run? }

  predicate IsShip(l: Line) { l == Run(Some("SHIP")) }

  predicate IsNoShip(l: Line) { l == Run(Some("NO-SHIP")) }

  lemma NoRuns()
    ensures Filter(IsRun, []) == []
  {
  }

  method LoadRuns(lines: seq<Line>) returns (rows: seq<Line>)
    ensures rows == Filter(IsRun, lines)
  {
    hide Filter;
    rows := [];
    NoRuns();
    for i := 0 to |lines|
      invariant rows == Filter(IsRun, lines[..i])
    {
      FilterStep(IsRun, lines, i);
      if lines[i].Run? { rows := rows + [lines[i]]; }
    }
    assert lines[..|lines|] == lines;
  }

  function Recent(rows: seq<Line>): seq<Line> { LastN(rows, WINDOW) }

  function ShipCount(rows: seq<Line>): nat { |Filter(IsShip, rows)| }

  function ShipRate(recent: seq<Line>): real {
    if recent == [] then 0.0 else ShipCount(recent) as real / |recent| as real
  }

  datatype Trend = Trend(totalRuns: nat, shipRate: real, recent: seq<Line>)

  function WeeklyTrend(rows: seq<Line>): Trend { Trend(|rows|, ShipRate(Recent(rows)), Recent(rows)) }

  /** The NO-SHIP runs at the end of a list; entries that are no objects are skipped. */
  function Trailing(recent: seq<Line>): nat {
    if recent == [] then 0
    else
      var last, front := recent[|recent| - 1], recent[..|recent| - 1];
      if last.NotAnObject? then Trailing(front) else if IsNoShip(last) then Trailing(front) + 1 else 0
  }

  datatype Thresholds = Thresholds(minShipRate: real, minTotalRuns: int, minConsecutive: int)

  datatype Action = RecoverShipRate | CollectMoreData | WatchConsecutive | Maintain

  datatype Check = Check(breach: bool, enoughData: bool, consecutive: nat, action: Action)

  predicate IsBreach(trend: Trend, limits: Thresholds) {
    && trend.totalRuns >= limits.minTotalRuns
    && trend.shipRate < limits.minShipRate
    && Trailing(trend.recent) >= limits.minConsecutive
  }

  method CheckThreshold(trend: Trend, limits: Thresholds) returns (check: Check)
    ensures check.breach == IsBreach(trend, limits)
    ensures check.enoughData == (trend.totalRuns >= limits.minTotalRuns)
    ensures check.consecutive == Trailing(trend.recent)
    ensures check.action ==
            if check.breach then RecoverShipRate
            else if !check.enoughData then CollectMoreData
            else if check.consecutive < limits.minConsecutive then WatchConsecutive
            else Maintain
  {
    var consecutive := 0;
    var n := |trend.recent|;
    assert trend.recent[..n] == trend.recent;
    while n > 0
      invariant 0 <= n <= |trend.recent|
      invariant Trailing(trend.recent) == consecutive + Trailing(trend.recent[..n])
    {
      assert trend.recent[..n][..n - 1] == trend.recent[..n - 1];
      var row := trend.recent[n - 1];
      if row.NotAnObject? {
        n := n - 1;
        continue;
      }
      if IsNoShip(row) { consecutive := consecutive + 1; } else { break; }
      n := n - 1;
    }
    var enoughData := trend.totalRuns >= limits.minTotalRuns;
    var rateOk := trend.shipRate >= limits.minShipRate;
    var consecutiveBreach := consecutive >= limits.minConsecutive;
    var breach := enoughData && !rateOk && consecutiveBreach;
    check := Check(breach, enoughData, consecutive,
                   if breach then RecoverShipRate
                   else if !enoughData then CollectMoreData
                   else if !consecutiveBreach then WatchConsecutive
                   else Maintain);
  }

  // ---------------------------------------------------------------- runs over time

  /** Whether the history of rows raises a breach. */
  predicate Breaches(rows: seq<Line>, limits: Thresholds) { IsBreach(WeeklyTrend(rows), limits) }

  predicate AllRuns(rows: seq<Line>) { forall i :: 0 <= i < |rows| ==> rows[i].Run? }

  /** Trailing is the length of the longest suffix of NO-SHIP runs. */
  lemma {:induction false} TrailingSuffix(rows: seq<Line>)
    requires AllRuns(rows)
    ensures Trailing(rows) <= |rows|
    ensures forall i :: |rows| - Trailing(rows) <= i < |rows| ==> IsNoShip(rows[i])
    ensures Trailing(rows) < |rows| ==> !IsNoShip(rows[|rows| - Trailing(rows) - 1])
  {
    if rows != [] {
      var front := rows[..|rows| - 1];
      TrailingSuffix(front);
      assert forall i :: 0 <= i < |front| ==> front[i] == rows[i];
    }
  }

  lemma {:induction false} ShipTrailingBound(rows: seq<Line>)
    requires AllRuns(rows)
    ensures ShipCount(rows) + Trailing(rows) <= |rows|
  {
    if rows != [] { ShipTrailingBound(rows[..|rows| - 1]); ShipAtMostAll(rows[..|rows| - 1]); }
  }

  lemma {:induction false} ShipAtMostAll(rows: seq<Line>)
    ensures ShipCount(rows) <= |rows|
  {
    if rows != [] { ShipAtMostAll(rows[..|rows| - 1]); }
  }

  /** Ships and trailing failures never overlap, and together fit the seven-run window. */
  lemma WindowBound(rows: seq<Line>)
    requires AllRuns(rows)
    ensures ShipCount(Recent(rows)) + Trailing(Recent(rows)) <= |Recent(rows)| <= 7
  {
    ShipTrailingBound(Recent(rows));
  }

  lemma {:induction false} TrailingOfSuffix(rows: seq<Line>, k: nat)
    requires AllRuns(rows) && k <= |rows|
    ensures Trailing(rows[|rows| - k..]) == if Trailing(rows) <= k then Trailing(rows) else k
    decreases k
  {
    TrailingSuffix(rows);
    if k > 0 {
      var front := rows[..|rows| - 1];
      assert rows[|rows| - k..][..k - 1] == front[|front| - (k - 1)..];
      TrailingOfSuffix(front, k - 1);
      TrailingSuffix(front);
    }
  }

  /** The window sees the whole failing streak up to its length. */
  lemma TrailingInWindow(rows: seq<Line>)
    requires AllRuns(rows)
    ensures Trailing(Recent(rows)) == if Trailing(rows) <= 7 then Trailing(rows) else 7
  {
    TrailingSuffix(rows);
    if |rows| > 7 { TrailingOfSuffix(rows, 7); }
  }

  lemma {:induction false} ShipDropFirst(rows: seq<Line>)
    requires rows != []
    ensures ShipCount(rows[1..]) <= ShipCount(rows) <= ShipCount(rows[1..]) + 1
  {
    if |rows| > 1 {
      assert rows[1..][..|rows[1..]| - 1] == rows[..|rows| - 1][1..];
      ShipDropFirst(rows[..|rows| - 1]);
    } else {
      assert rows[1..] == [] && rows[..0] == [];
    }
  }

  lemma RatioFalls(a: nat, n: nat, b: nat, m: nat)
    requires 0 < n <= m && b <= a
    ensures b as real / m as real <= a as real / n as real
  {
    var p, q := a as real / n as real, b as real / m as real;
    assert p * n as real == a as real && q * m as real == b as real;
    assert p >= 0.0;
    assert p * m as real >= p * n as real;
    assert q > p ==> q * m as real > p * m as real;
  }

  lemma ShipAppend(rows: seq<Line>, next: Line)
    requires IsNoShip(next)
    ensures ShipCount(rows + [next]) == ShipCount(rows)
    ensures ShipCount([]) == 0
  {
    assert (rows + [next])[..|rows|] == rows;
  }

  /** One more NO-SHIP run never raises the ship rate of the window. */
  lemma RateFallsOnNoShip(rows: seq<Line>, next: Line)
    requires IsNoShip(next)
    ensures ShipRate(Recent(rows + [next])) <= ShipRate(Recent(rows))
  {
    hide ShipCount;
    var before, after := Recent(rows), Recent(rows + [next]);
    if rows == [] {
      assert after == [] + [next];
      ShipAppend([], next);
    } else if |rows| < 7 {
      assert after == before + [next];
      ShipAppend(before, next);
      RatioFalls(ShipCount(before), |before|, ShipCount(after), |after|);
    } else {
      assert after == before[1..] + [next];
      ShipAppend(before[1..], next);
      ShipDropFirst(before);
      RatioFalls(ShipCount(before), |before|, ShipCount(after), |after|);
    }
  }

  lemma TrailingGrows(rows: seq<Line>, next: Line)
    requires AllRuns(rows) && IsNoShip(next)
    ensures Trailing(Recent(rows)) <= Trailing(Recent(rows + [next]))
  {
    TrailingInWindow(rows);
    TrailingInWindow(rows + [next]);
    assert (rows + [next])[..|rows|] == rows;
  }

  /** Hysteresis: once raised, a breach survives any number of further NO-SHIP runs. */
  lemma {:induction false} BreachPersists(rows: seq<Line>, more: seq<Line>, limits: Thresholds)
    requires AllRuns(rows) && Breaches(rows, limits)
    requires forall i :: 0 <= i < |more| ==> IsNoShip(more[i])
    ensures Breaches(rows + more, limits)
  {
    hide ShipRate, Recent, Trailing;
    if more == [] {
      assert rows + more == rows;
    } else {
      var front, last := more[..|more| - 1], more[|more| - 1];
      BreachPersists(rows, front, limits);
      RateFallsOnNoShip(rows + front, last);
      TrailingGrows(rows + front, last);
      assert rows + more == rows + front + [last];
    }
  }

  /** A limit of at least one consecutive failure: any other run clears a breach at once. */
  lemma OtherRunClears(rows: seq<Line>, next: Line, limits: Thresholds)
    requires next.Run? && !IsNoShip(next) && limits.minConsecutive >= 1
    ensures !Breaches(rows + [next], limits)
  {
    var recent := Recent(rows + [next]);
    assert recent[|recent| - 1] == next;
  }

  /** With a limit of zero or less the streak never matters: such a run leaves the decision to the rate. */
  lemma ZeroLimitIgnoresStreak(rows: seq<Line>, limits: Thresholds)
    requires limits.minConsecutive <= 0
    ensures Breaches(rows, limits) <==>
            |rows| >= limits.minTotalRuns && ShipRate(Recent(rows)) < limits.minShipRate
  {
  }

  /** Under these limits every breach ends with the next run that is not NO-SHIP. */
  ghost predicate AlwaysClears(limits: Thresholds) {
    forall rows: seq<Line>, next: Line ::
      AllRuns(rows) && next.Run? && !IsNoShip(next) && Breaches(rows, limits) ==> !Breaches(rows + [next], limits)
  }

  /** Runs that neither ship nor fail, with the ship rate and the streak at zero. */
  lemma {:induction false} UndecidedRuns(n: nat)
    ensures var rows := seq(n, _ => Run(None));
            AllRuns(rows) && ShipCount(rows) == 0 && Trailing(rows) == 0
  {
    var rows := seq(n, _ => Run(None));
    if n > 0 {
      UndecidedRuns(n - 1);
      assert rows[..n - 1] == seq(n - 1, _ => Run(None));
    }
  }

  lemma UndecidedBreach(n: nat, limits: Thresholds)
    requires n >= limits.minTotalRuns && limits.minConsecutive <= 0 && limits.minShipRate > 0.0
    ensures var rows := seq(n, _ => Run(None)); AllRuns(rows) && Breaches(rows, limits)
  {
    var rows := seq(n, _ => Run(None));
    UndecidedRuns(n);
    if n > WINDOW {
      UndecidedRuns(WINDOW);
      assert Recent(rows) == seq(WINDOW, _ => Run(None));
    }
  }

  /** Exactly two kinds of limits let every breach end with the next run that is not NO-SHIP: those that ask for a
      failure, and those that no ship rate can miss. */
  lemma AlwaysClearsIff(limits: Thresholds)
    ensures AlwaysClears(limits) <==> limits.minConsecutive >= 1 || limits.minShipRate <= 0.0
  {
    hide Breaches;
    if limits.minConsecutive >= 1 {
      forall rows: seq<Line>, next: Line | next.Run? && !IsNoShip(next) ensures !Breaches(rows + [next], limits) {
        OtherRunClears(rows, next, limits);
      }
    } else if limits.minShipRate <= 0.0 {
      forall rows: seq<Line> ensures !Breaches(rows, limits) { NoRateMisses(rows, limits); }
    } else {
      var n := if limits.minTotalRuns > 0 then limits.minTotalRuns else 0;
      var rows := seq(n, _ => Run(None));
      UndecidedBreach(n, limits);
      UndecidedBreach(n + 1, limits);
      assert rows + [Run(None)] == seq(n + 1, _ => Run(None));
    }
  }

  lemma NoRateMisses(rows: seq<Line>, limits: Thresholds)
    requires limits.minShipRate <= 0.0
    ensures !Breaches(rows, limits)
  {
    var recent := Recent(rows);
    if recent != [] {
      var rate := ShipRate(recent);
      assert rate * |recent| as real == ShipCount(recent) as real;
      assert rate < 0.0 ==> rate * |recent| as real < 0.0;
    }
  }

  /** At a limit of zero a breach outlives a shipped run, and a shipped run can even raise one. */
  lemma ShippedRunKeepsBreach()
    ensures var rows, next := [Run(Some("NO-SHIP")), Run(Some("NO-SHIP"))], Run(Some("SHIP"));
            && Breaches(rows, Thresholds(0.5, 2, 0)) && Breaches(rows + [next], Thresholds(0.5, 2, 0))
            && !Breaches(rows, Thresholds(0.5, 3, 0)) && Breaches(rows + [next], Thresholds(0.5, 3, 0))
  {
    var failed, next := Run(Some("NO-SHIP")), Run(Some("SHIP"));
    assert ShipCount([]) == 0;
    assert [failed][..0] == [] && [failed, failed][..1] == [failed] && [failed, failed, next][..2] == [failed, failed];
    assert ShipCount([failed]) == 0 && ShipCount([failed, failed]) == 0 && ShipCount([failed, failed, next]) == 1;
    assert [failed, failed] + [next] == [failed, failed, next];
  }

  /** The positions of the shipped runs in a list. */
  ghost function Shipped(rows: seq<Line>): set<nat> { set i: nat | i < |rows| && rows[i] == Run(Some("SHIP")) }

  lemma ShipsCounted(rows: seq<Line>)
    ensures ShipCount(rows) == |Shipped(rows)|
  {
    FilterIndices(IsShip, rows);
    assert Passing(IsShip, rows) == Shipped(rows);
  }

  lemma {:induction false} AllOrNoneShip(rows: seq<Line>)
    ensures ShipCount(rows) == |rows| <==> forall i :: 0 <= i < |rows| ==> rows[i] == Run(Some("SHIP"))
    ensures ShipCount(rows) == 0 <==> forall i :: 0 <= i < |rows| ==> rows[i] != Run(Some("SHIP"))
  {
    if rows != [] {
      var front := rows[..|rows| - 1];
      AllOrNoneShip(front);
      ShipAtMostAll(front);
      assert forall i :: 0 <= i < |front| ==> front[i] == rows[i];
    }
  }

  lemma RateOf(rate: real, count: nat, n: nat)
    requires n > 0 && rate == count as real / n as real
    ensures rate * n as real == count as real
    ensures (rate == 1.0 <==> count == n) && (rate == 0.0 <==> count == 0)
  {
    var whole := n as real;
    assert rate * whole == count as real;
    assert rate == 1.0 ==> rate * whole == whole;
  }

  /** The rate is the share of shipped runs: one exactly when all shipped, and zero exactly when none did. */
  lemma ShipRateIsShare(recent: seq<Line>)
    ensures ShipRate(recent) * |recent| as real == |Shipped(recent)| as real
    ensures recent != [] ==>
              (ShipRate(recent) == 1.0 <==> forall i :: 0 <= i < |recent| ==> recent[i] == Run(Some("SHIP")))
    ensures ShipRate(recent) == 0.0 <==> forall i :: 0 <= i < |recent| ==> recent[i] != Run(Some("SHIP"))
  {
    hide ShipCount;
    ShipsCounted(recent);
    AllOrNoneShip(recent);
    if recent != [] { RateOf(ShipRate(recent), ShipCount(recent), |recent|); }
  }

  lemma RateBelow(recent: seq<Line>, limit: real)
    requires recent != []
    ensures ShipRate(recent) < limit <==> |Shipped(recent)| as real < limit * |recent| as real
  {
    hide ShipRate, Shipped;
    ShipRateIsShare(recent);
    var rate, n := ShipRate(recent), |recent| as real;
    assert rate < limit <==> rate * n < limit * n;
  }

  /** A breach is raised exactly when there are enough runs, too few of the last seven shipped, the limit fits the
      window and the history, and the last runs, as many as the limit asks for, all failed. */
  lemma BreachIff(rows: seq<Line>, limits: Thresholds)
    requires AllRuns(rows)
    ensures var window := if |rows| < 7 then rows else rows[|rows| - 7..];
            Breaches(rows, limits) <==>
            && |rows| >= limits.minTotalRuns
            && (if rows == [] then 0.0 < limits.minShipRate
                else |Shipped(window)| as real < limits.minShipRate * |window| as real)
            && limits.minConsecutive <= 7 && limits.minConsecutive <= |rows|
            && forall i :: 0 <= i < |rows| && |rows| - limits.minConsecutive <= i ==>
                 rows[i] == Run(Some("NO-SHIP"))
  {
    hide Trailing, ShipRate, Shipped;
    StreakReaches(rows, limits.minConsecutive);
    if rows != [] { RateBelow(Recent(rows), limits.minShipRate); } else { ShipRateIsShare([]); }
  }

  lemma StreakReaches(rows: seq<Line>, limit: int)
    requires AllRuns(rows)
    ensures Trailing(Recent(rows)) >= limit <==>
            && limit <= 7 && limit <= |rows|
            && forall i :: 0 <= i < |rows| && |rows| - limit <= i ==> IsNoShip(rows[i])
  {
    hide Recent;
    TrailingInWindow(rows);
    TrailingSuffix(rows);
  }

  /** Entries of the window that are no objects have no part in the streak. */
  lemma {:induction false} TrailingSkips(recent: seq<Line>)
    ensures Trailing(recent) == Trailing(Filter(IsRun, recent)) && AllRuns(Filter(IsRun, recent))
  {
    if recent != [] {
      var kept, last := Filter(IsRun, recent[..|recent| - 1]), recent[|recent| - 1];
      TrailingSkips(recent[..|recent| - 1]);
      assert (kept + [last])[..|kept|] == kept && kept + [] == kept;
    }
  }

  // ---------------------------------------------------------------- how far the streak shows

  lemma {:induction false} TrailingAppend(rows: seq<Line>, more: seq<Line>)
    requires forall i :: 0 <= i < |more| ==> IsNoShip(more[i])
    ensures Trailing(rows + more) == Trailing(rows) + |more|
  {
    if more == [] {
      assert rows + more == rows;
    } else {
      assert (rows + more)[..|rows + more| - 1] == rows + more[..|more| - 1];
      TrailingAppend(rows, more[..|more| - 1]);
    }
  }

  /** While the window is not full of failures, further ones lengthen the streak it shows. */
  lemma StreakGrows(rows: seq<Line>, more: seq<Line>)
    requires AllRuns(rows) && Trailing(rows) < 7 && more != []
    requires forall i :: 0 <= i < |more| ==> IsNoShip(more[i])
    ensures Trailing(Recent(rows)) < Trailing(Recent(rows + more))
  {
    hide Recent;
    TrailingInWindow(rows);
    TrailingInWindow(rows + more);
    TrailingAppend(rows, more);
  }

  /** A window full of failures looks the same after any further ones. */
  lemma FullWindow(rows: seq<Line>, more: seq<Line>)
    requires AllRuns(rows) && Trailing(rows) >= 7
    requires forall i :: 0 <= i < |more| ==> IsNoShip(more[i])
    ensures Recent(rows + more) == Recent(rows)
  {
    TrailingAppend(rows, more);
    TrailingSuffix(rows);
    TrailingSuffix(rows + more);
    var a, b := Recent(rows), Recent(rows + more);
    assert |a| == |b| == 7;
    forall i | 0 <= i < 7 ensures a[i] == b[i] {
      assert a[i] == rows[|rows| - 7 + i] && IsNoShip(a[i]);
      assert b[i] == (rows + more)[|rows + more| - 7 + i] && IsNoShip(b[i]);
    }
  }

  lemma TwoFailures()
    ensures var rows := [Run(Some("NO-SHIP")), Run(Some("NO-SHIP"))];
            AllRuns(rows) && Trailing(rows) == 2 && Breaches(rows, Thresholds(0.5, 2, 2))
  {
    var failed := Run(Some("NO-SHIP"));
    assert [failed][..0] == [] && [failed, failed][..1] == [failed];
    assert Trailing([failed]) == 1 && ShipCount([]) == 0 && ShipCount([failed]) == 0;
    assert ShipCount([failed, failed]) == 0;
  }

  /** Enough NO-SHIP runs in a row always end in a breach, whatever came before, for reachable limits. */
  lemma StreakBreaches(rows: seq<Line>, streak: seq<Line>, limits: Thresholds)
    requires AllRuns(rows) && |streak| >= 7
    requires forall i :: 0 <= i < |streak| ==> IsNoShip(streak[i])
    requires limits.minTotalRuns <= |rows| + |streak| && limits.minConsecutive <= 7 && limits.minShipRate > 0.0
    ensures Breaches(rows + streak, limits)
  {
    var all := rows + streak;
    var recent := Recent(all);
    assert forall i :: 0 <= i < 7 ==> recent[i] == streak[|streak| - 7 + i];
    TrailingSuffix(recent);
    assert Trailing(recent) == 7;
    ShipTrailingBound(recent);
  }
}
