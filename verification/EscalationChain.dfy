/** From run history to owner escalation: the threshold check writes the file that the escalation script reads. */
module EscalationChain {
  import opened Ordering
  import opened Outcomes
  import opened Text
  import opened OwnerEscalation
  import Trend = FirstProofTrend

  /** The file in between: the check's result with the measured trend and the limits. */
  function ThresholdFile(trend: Trend.Trend, limits: Trend.Thresholds, branch: string): Threshold {
    Threshold(Trend.IsBreach(trend, limits), Some(branch), Some(trend.shipRate), Some(limits.minShipRate),
              Some(Trend.Trailing(trend.recent)), Some(limits.minConsecutive))
  }

  /** The text a breach of this history is escalated with. */
  function DetailsOf(rows: seq<Trend.Line>, limits: Trend.Thresholds, branch: string): string {
    BreachDetails(ThresholdFile(Trend.WeeklyTrend(rows), limits, branch))
  }

  /** The route of a breach on a branch with the given text. */
  function BreachRoute(branch: string, details: string, profiles: map<string, Profile>): Route {
    var profile := ResolveProfile(profiles, branch);
    Route("first_proof_ship_rate_threshold", profile.owner.GetOr("release-ops"),
          NormalizeSeverity(Some(profile.severity.GetOr("high"))), profile.sla.GetOr("3d"), details,
          "first-proof-threshold")
  }

  function RouteFor(
    rows: seq<Trend.Line>, limits: Trend.Thresholds, branch: string, profiles: map<string, Profile>): Route
  {
    BreachRoute(branch, DetailsOf(rows, limits, branch), profiles)
  }

  /** The payload that a run history leads to. */
  function PayloadFor(
    rows: seq<Trend.Line>, limits: Trend.Thresholds, p: Postcheck, branch: string, profiles: map<string, Profile>)
    : Payload
  {
    BuildPayload(if Trend.Breaches(rows, limits) then WithRow(p, RouteFor(rows, limits, branch, profiles)) else p)
  }

  /** The scripts one after the other: load the runs, check the trend, patch the escalation payload. */
  method Escalate(
    lines: seq<Trend.Line>, limits: Trend.Thresholds, p: Postcheck, branch: string, profiles: map<string, Profile>)
    returns (payload: Payload)
    ensures payload == PayloadFor(Filter(Trend.IsRun, lines), limits, p, branch, profiles)
  {
    hide Filter, BuildPayload, WithRow, BreachDetails, NormalizeSeverity, Trend.IsBreach, Trend.ShipRate, Trend.Recent;
    var rows := Trend.LoadRuns(lines);
    var trend := Trend.WeeklyTrend(rows);
    var check := Trend.CheckThreshold(trend, limits);
    var file := Threshold(check.breach, Some(branch), Some(trend.shipRate), Some(limits.minShipRate),
                          Some(check.consecutive), Some(limits.minConsecutive));
    payload := EscalationPayload(p, Some(file), profiles);
  }

  /** The payload has one route more than the postcheck exactly when the history breaches, namely the breach route. */
  lemma EscalatesIff(
    rows: seq<Trend.Line>, limits: Trend.Thresholds, p: Postcheck, branch: string, profiles: map<string, Profile>)
    ensures var route, routes := RouteFor(rows, limits, branch, profiles),
                                 PayloadFor(rows, limits, p, branch, profiles).routes;
            && multiset(routes) ==
               multiset(Routes(p)) + (if Trend.Breaches(rows, limits) then multiset{route} else multiset{})
            && (route !in Routes(p) ==> (route in routes <==> Trend.Breaches(rows, limits)))
  {
    hide Routes, WithRow, RouteFor, Sort, Trend.Breaches, BuildSummary, Recommendations;
    var route := RouteFor(rows, limits, branch, profiles);
    RoutesWith(p, route);
    assert route in Routes(WithRow(p, route)) by {
      assert route in multiset(Routes(WithRow(p, route)));
    }
  }

  lemma RoutesWith(p: Postcheck, route: Route)
    ensures multiset(Routes(WithRow(p, route))) == multiset(Routes(p)) + multiset{route}
  {
    hide Routes, WithRow, Sort, RouteKey;
    IncrementalRoutes(p, route);
    SortMultiset(Routes(p) + [route], RouteKey);
  }

  // ---------------------------------------------------------------- further failing runs

  /** Two breach texts lead to payloads that differ in the text of one route and nowhere else. */
  lemma DetailsOnly(p: Postcheck, branch: string, profiles: map<string, Profile>, text: string, text': string)
    ensures var a, b := BuildPayload(WithRow(p, BreachRoute(branch, text, profiles))),
                        BuildPayload(WithRow(p, BreachRoute(branch, text', profiles)));
            && a.summary == b.summary && a.recommendations == b.recommendations
            && multiset(Map(Bare, a.routes)) == multiset(Map(Bare, b.routes))
            && (a == b <==> text == text')
  {
    hide Routes, Sort, BuildSummary, Recommendations, NormalizeSeverity, ResolveProfile;
    var r, r' := BreachRoute(branch, text, profiles), BreachRoute(branch, text', profiles);
    BareRoutesWith(p, r);
    BareRoutesWith(p, r');
    assert Bare(r) == Bare(r');
    RecommendationsIgnoreDetails(Routes(WithRow(p, r)), Routes(WithRow(p, r')), p.suggestions, p.followUpPlan);
    if text != text' {
      RoutesWith(p, r);
      RoutesWith(p, r');
      assert multiset(Routes(WithRow(p, r)))[r] == multiset(Routes(WithRow(p, r')))[r] + 1;
    }
  }

  lemma BareRoutesWith(p: Postcheck, route: Route)
    ensures multiset(Map(Bare, Routes(WithRow(p, route)))) == multiset(Map(Bare, Routes(p))) + multiset{Bare(route)}
  {
    hide Routes, WithRow, Bare;
    RoutesWith(p, route);
    MapPermutation(Bare, Routes(WithRow(p, route)), Routes(p) + [route]);
    assert Map(Bare, Routes(p) + [route]) == Map(Bare, Routes(p)) + [Bare(route)];
  }

  /** However many runs keep failing, an escalation keeps its summary, its recommendations and its routes up to the
      text of the breach. */
  lemma EscalationPersists(
    rows: seq<Trend.Line>, more: seq<Trend.Line>, limits: Trend.Thresholds, p: Postcheck, branch: string,
    profiles: map<string, Profile>)
    requires Trend.AllRuns(rows) && Trend.Breaches(rows, limits)
    requires forall i :: 0 <= i < |more| ==> Trend.IsNoShip(more[i])
    ensures var before, after := PayloadFor(rows, limits, p, branch, profiles),
                                 PayloadFor(rows + more, limits, p, branch, profiles);
            && after.summary == before.summary && after.recommendations == before.recommendations
            && multiset(Map(Bare, after.routes)) == multiset(Map(Bare, before.routes))
            && Trend.Breaches(rows + more, limits)
  {
    hide BuildPayload, WithRow, BreachRoute, DetailsOf, Trend.Breaches;
    Trend.BreachPersists(rows, more, limits);
    DetailsOnly(p, branch, profiles, DetailsOf(rows, limits, branch), DetailsOf(rows + more, limits, branch));
  }

  /** The whole payload stays exactly when there is no further run or the window was full of failures already. */
  lemma EscalationUnchangedIff(
    rows: seq<Trend.Line>, more: seq<Trend.Line>, limits: Trend.Thresholds, p: Postcheck, branch: string,
    profiles: map<string, Profile>)
    requires Trend.AllRuns(rows) && Trend.Breaches(rows, limits)
    requires forall i :: 0 <= i < |more| ==> Trend.IsNoShip(more[i])
    ensures PayloadFor(rows + more, limits, p, branch, profiles) == PayloadFor(rows, limits, p, branch, profiles) <==>
            more == [] || Trend.Trailing(rows) >= 7
  {
    hide BuildPayload, WithRow, BreachRoute, DetailsOf, Trend.Breaches, Trend.Trailing;
    Trend.BreachPersists(rows, more, limits);
    DetailsOnly(p, branch, profiles, DetailsOf(rows, limits, branch), DetailsOf(rows + more, limits, branch));
    DetailsUnchangedIff(rows, more, limits, branch);
  }

  lemma DetailsUnchangedIff(
    rows: seq<Trend.Line>, more: seq<Trend.Line>, limits: Trend.Thresholds, branch: string)
    requires Trend.AllRuns(rows) && forall i :: 0 <= i < |more| ==> Trend.IsNoShip(more[i])
    ensures DetailsOf(rows + more, limits, branch) == DetailsOf(rows, limits, branch) <==>
            more == [] || Trend.Trailing(rows) >= 7
  {
    hide BreachDetails, Trend.Recent, Trend.ShipRate, Trend.Trailing, Trend.IsBreach;
    if more == [] {
      assert rows + more == rows;
    } else if Trend.Trailing(rows) >= 7 {
      Trend.FullWindow(rows, more);
      SameText(ThresholdFile(Trend.WeeklyTrend(rows), limits, branch),
               ThresholdFile(Trend.WeeklyTrend(rows + more), limits, branch));
    } else {
      Trend.StreakGrows(rows, more);
      StreakInText(ThresholdFile(Trend.WeeklyTrend(rows), limits, branch),
                   ThresholdFile(Trend.WeeklyTrend(rows + more), limits, branch));
    }
  }

  lemma SameText(t: Threshold, t': Threshold)
    requires t'.(breach := t.breach) == t
    ensures BreachDetails(t) == BreachDetails(t')
  {
  }

  /** Different streaks give different texts, whatever the rates. */
  lemma StreakInText(t: Threshold, t': Threshold)
    requires t.consecutive.Some? && t'.consecutive.Some? && 0 <= t.consecutive.value && 0 <= t'.consecutive.value
    requires t.consecutive.value != t'.consecutive.value && t.minConsecutive == t'.minConsecutive
    ensures BreachDetails(t) != BreachDetails(t')
  {
    hide RateText, BreachDetails, Decimal, Lacks;
    if BreachDetails(t) == BreachDetails(t') {
      TextParts(t);
      TextParts(t');
      var n, n' := Decimal(t.consecutive.value), Decimal(t'.consecutive.value);
      var front, front' := RateText(t) + ", consecutive_no_ship", RateText(t') + ", consecutive_no_ship";
      SameTail(front + ['='] + n, front' + ['='] + n', Limit(t));
      DecimalLacks(t.consecutive.value, '=');
      DecimalLacks(t'.consecutive.value, '=');
      CutAtLast('=', front, n, front', n');
      DecimalInjective(t.consecutive.value, t'.consecutive.value);
    }
  }

  lemma SameTail(a: string, b: string, tail: string)
    requires a + tail == b + tail
    ensures a == b
  {
    assert a == (a + tail)[..|a|] && b == (b + tail)[..|b|];
  }

  function Limit(t: Threshold): string { " (min=" + IntText(t.minConsecutive.GetOr(0)) + ")" }

  lemma TextParts(t: Threshold)
    requires t.consecutive.Some? && 0 <= t.consecutive.value
    ensures BreachDetails(t) ==
            RateText(t) + ", consecutive_no_ship" + ['='] + Decimal(t.consecutive.value) + Limit(t)
  {
    hide RateText, Decimal;
    assert ", consecutive_no_ship=" == ", consecutive_no_ship" + ['='];
    assert RateText(t) + (", consecutive_no_ship" + ['=']) + (Decimal(t.consecutive.value) + Limit(t)) ==
           RateText(t) + ", consecutive_no_ship" + ['='] + Decimal(t.consecutive.value) + Limit(t);
    assert StreakText(t) == Decimal(t.consecutive.value) + Limit(t);
  }

  /** The text of a breach shows the share of shipped runs in the window and its streak, each next to its limit. */
  lemma BreachText(rows: seq<Trend.Line>, limits: Trend.Thresholds, branch: string, rate: real)
    requires rows != [] && Trend.AllRuns(rows)
    requires var window := if |rows| < 7 then rows else rows[|rows| - 7..];
             rate * |window| as real == |Trend.Shipped(window)| as real
    ensures var streak := if Trend.Trailing(rows) <= 7 then Trend.Trailing(rows) else 7;
            DetailsOf(rows, limits, branch) ==
            "first-proof threshold breach: ship_rate_last_7=" + Fixed2(rate)
            + " < min_ship_rate=" + Fixed2(limits.minShipRate)
            + ", consecutive_no_ship=" + (IntText(streak) + " (min=" + IntText(limits.minConsecutive) + ")")
  {
    hide Fixed2, IntText, Trend.ShipRate, Trend.Shipped, Trend.Trailing, Trend.IsBreach;
    var recent := Trend.Recent(rows);
    Trend.ShipRateIsShare(recent);
    OneShare(Trend.ShipRate(recent), rate, |recent| as real);
    Trend.TrailingInWindow(rows);
  }

  lemma OneShare(x: real, y: real, n: real)
    requires n > 0.0 && x * n == y * n
    ensures x == y
  {
    assert (x - y) * n == 0.0;
  }

  /** One more failure after two: the escalation is the same but for its text, which now counts three. */
  lemma EscalationTextMoves(p: Postcheck, branch: string, profiles: map<string, Profile>)
    ensures var failed, limits := Trend.Run(Some("NO-SHIP")), Trend.Thresholds(0.5, 2, 2);
            && Trend.Breaches([failed, failed], limits)
            && PayloadFor([failed, failed] + [failed], limits, p, branch, profiles) !=
               PayloadFor([failed, failed], limits, p, branch, profiles)
  {
    var failed, limits := Trend.Run(Some("NO-SHIP")), Trend.Thresholds(0.5, 2, 2);
    Trend.TwoFailures();
    EscalationUnchangedIff([failed, failed], [failed], limits, p, branch, profiles);
  }

  /** With a limit of at least one, the next run that does not fail takes the escalation back. */
  lemma OtherRunLifts(
    rows: seq<Trend.Line>, next: Trend.Line, limits: Trend.Thresholds, p: Postcheck, branch: string,
    profiles: map<string, Profile>)
    requires next.Run? && !Trend.IsNoShip(next) && limits.minConsecutive >= 1
    ensures PayloadFor(rows + [next], limits, p, branch, profiles) == BuildPayload(p)
  {
    hide BuildPayload, WithRow, RouteFor, Trend.Breaches;
    Trend.OtherRunClears(rows, next, limits);
  }
}
