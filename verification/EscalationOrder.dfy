/** What routes, summaries and recommendations say about the rows of the postcheck, in the words of the payload. */
module EscalationOrder {
  import opened Outcomes
  import opened Ordering
  import opened Rounding
  import opened Text
  import opened OwnerEscalation

  // ---------------------------------------------------------------- the order of routes

  /** Among routes of one severity the owner decides, then the check, the SLA and the details. */
  ghost predicate InTextOrder(a: Route, b: Route) {
    && StrLeq(a.owner, b.owner)
    && (a.owner == b.owner ==> StrLeq(a.check, b.check))
    && (a.owner == b.owner && a.check == b.check ==> StrLeq(a.sla, b.sla))
    && (a.owner == b.owner && a.check == b.check && a.sla == b.sla ==> StrLeq(a.details, b.details))
  }

  lemma FourTexts(a: seq<string>, b: seq<string>)
    requires |a| == 4 && |b| == 4 && Lex(StrLeq, a, b)
    ensures StrLeq(a[0], b[0])
    ensures a[0] == b[0] ==> StrLeq(a[1], b[1])
    ensures a[0] == b[0] && a[1] == b[1] ==> StrLeq(a[2], b[2])
    ensures a[0] == b[0] && a[1] == b[1] && a[2] == b[2] ==> StrLeq(a[3], b[3])
  {
    hide StrLeq, Lex;
    FirstText(a, b);
    if a[0] == b[0] {
      FirstText(a[1..], b[1..]);
      if a[1] == b[1] {
        FirstText(a[1..][1..], b[1..][1..]);
        if a[2] == b[2] { FirstText(a[1..][1..][1..], b[1..][1..][1..]); }
      }
    }
  }

  lemma RouteKeyOrder(a: Route, b: Route)
    requires KeyLeq(RouteKey(a), RouteKey(b))
    ensures MoreUrgent(a.severity, b.severity) || (a.severity == b.severity && InTextOrder(a, b))
  {
    hide StrLeq;
    if a.severity == b.severity { FourTexts(RouteKey(a).texts, RouteKey(b).texts); }
  }

  /** The routes of a postcheck stand in order of urgency; texts decide only among equally urgent ones. */
  lemma RoutesOrdered(p: Postcheck, i: nat, j: nat)
    requires i < j < |Routes(p)|
    ensures var a, b := Routes(p)[i], Routes(p)[j];
            MoreUrgent(a.severity, b.severity) || (a.severity == b.severity && InTextOrder(a, b))
  {
    hide KeyLeq, RouteKey, Sort;
    SortSorted(CollectRoutes(p.ownerRouting.value, p.scenario.GetOr("unknown")), RouteKey);
    RouteKeyOrder(Routes(p)[i], Routes(p)[j]);
  }

  // ---------------------------------------------------------------- the content of routes

  /** What a JSON field says when it is there, and the default of the script when it is not. */
  ghost predicate Says(field: Option<string>, default: string, text: string) {
    (field.Some? ==> text == field.value) && (field.None? ==> text == default)
  }

  /** The word of a severity decides; any other word, and none, is medium. */
  ghost predicate SaysSeverity(field: Option<string>, s: Severity) {
    match field
    case None => s == Medium
    case Some(value) =>
      var word := Lower(Strip(value));
      && (s == Critical <==> word == "critical")
      && (s == High <==> word == "high")
      && (s == Low <==> word == "low")
      && (s == Warn <==> word == "warn")
  }

  ghost predicate Gives(e: Entry, scenario: string, r: Route) {
    && e.Object?
    && Says(e.check, "unknown", r.check) && Says(e.owner, "platform-ops", r.owner)
    && SaysSeverity(e.severity, r.severity) && Says(e.sla, "7d", r.sla) && Says(e.details, "", r.details)
    && Says(e.sourceScenario, scenario, r.sourceScenario)
  }

  ghost predicate IsScenario(p: Postcheck, scenario: string) { Says(p.scenario, "unknown", scenario) }

  lemma SeveritySaid(field: Option<string>, s: Severity)
    ensures SaysSeverity(field, s) <==> s == NormalizeSeverity(field)
  {
    hide Lower, Strip;
    var word := Lower(Strip(field.GetOr("")));
    assert "critical"[0] == 'c' && "high"[0] == 'h' && "low"[0] == 'l' && "warn"[0] == 'w';
    if field.None? { NothingSaid(); }
  }

  lemma NothingSaid()
    ensures Lower(Strip("")) == ""
  {
  }

  lemma GivesRoute(e: Entry, scenario: string, r: Route)
    ensures Gives(e, scenario, r) <==> e.Object? && r == RouteOf(e, scenario)
  {
    hide SaysSeverity, NormalizeSeverity;
    if e.Object? { SeveritySaid(e.severity, r.severity); }
  }

  /** The positions of the rows that say what a route says. */
  ghost function RowsSaying(entries: seq<Entry>, scenario: string, r: Route): set<nat> {
    set i: nat | i < |entries| && Gives(entries[i], scenario, r)
  }

  lemma {:induction false} CollectedFrom(entries: seq<Entry>, scenario: string, r: Route)
    ensures multiset(CollectRoutes(entries, scenario))[r] == |RowsSaying(entries, scenario, r)|
  {
    hide Gives, RouteOf;
    if entries == [] {
      assert RowsSaying(entries, scenario, r) == {};
    } else {
      var front, last := entries[..|entries| - 1], entries[|entries| - 1];
      CollectedFrom(front, scenario, r);
      GivesRoute(last, scenario, r);
      SayingStep(entries, scenario, r);
      var before, given := CollectRoutes(front, scenario), if last.Object? then [RouteOf(last, scenario)] else [];
      assert multiset(before + given) == multiset(before) + multiset(given);
    }
  }

  lemma SayingStep(entries: seq<Entry>, scenario: string, r: Route)
    requires entries != []
    ensures |RowsSaying(entries, scenario, r)| ==
            |RowsSaying(entries[..|entries| - 1], scenario, r)| +
            if Gives(entries[|entries| - 1], scenario, r) then 1 else 0
  {
    hide Gives;
    var front, n := entries[..|entries| - 1], |entries| - 1;
    assert RowsSaying(entries, scenario, r) ==
           RowsSaying(front, scenario, r) + if Gives(entries[n], scenario, r) then {n} else {};
  }

  /** Every route occurs as often as rows of the postcheck say what it says, with the defaults of the script. */
  lemma RoutesSayRows(p: Postcheck, scenario: string, r: Route)
    requires IsScenario(p, scenario)
    ensures multiset(Routes(p))[r] ==
            if p.ownerRouting.None? then 0 else |RowsSaying(p.ownerRouting.value, scenario, r)|
  {
    hide RouteKey, Gives, CollectRoutes, Sort;
    if p.ownerRouting.Some? {
      SortMultiset(CollectRoutes(p.ownerRouting.value, scenario), RouteKey);
      CollectedFrom(p.ownerRouting.value, scenario, r);
    }
  }

  // ---------------------------------------------------------------- summaries

  /** The positions of the routes of a severity. */
  ghost function Graded(routes: seq<Route>, s: Severity): set<nat> {
    set i: nat | i < |routes| && routes[i].severity == s
  }

  lemma SummaryCounts(routes: seq<Route>)
    ensures var summary := BuildSummary(routes);
            && summary.totalRoutes == |routes| && summary.critical == |Graded(routes, Critical)|
            && summary.high == |Graded(routes, High)| && summary.medium == |Graded(routes, Medium)|
  {
    FilterIndices(IsCritical, routes);
    FilterIndices(IsHigh, routes);
    FilterIndices(IsMedium, routes);
    assert Passing(IsCritical, routes) == Graded(routes, Critical);
    assert Passing(IsHigh, routes) == Graded(routes, High);
    assert Passing(IsMedium, routes) == Graded(routes, Medium);
  }

  // ---------------------------------------------------------------- actions

  /** The positions of the routes of an owner, and of those with a severity. */
  ghost function OwnedBy(routes: seq<Route>, owner: string): set<nat> {
    set i: nat | i < |routes| && routes[i].owner == owner
  }

  ghost function OwnedGraded(routes: seq<Route>, owner: string, s: Severity): set<nat> {
    set i: nat | i < |routes| && routes[i].owner == owner && routes[i].severity == s
  }

  function AreOwnedGraded(owner: string, s: Severity): Route -> bool {
    (r: Route) => r.owner == owner && r.severity == s
  }

  lemma {:induction false} BucketIsFilter(routes: seq<Route>, owner: string, s: Severity)
    ensures Bucket(routes, owner, s) == Filter(AreOwnedGraded(owner, s), routes)
  {
    hide Bucket;
    if routes == [] {
      NoRows(owner, s);
    } else {
      var n := |routes| - 1;
      BucketIsFilter(routes[..n], owner, s);
      BucketStep(routes, n, owner, s);
      assert routes[..n + 1] == routes;
    }
  }

  lemma NoRows(owner: string, s: Severity)
    ensures Bucket([], owner, s) == []
  {
  }

  lemma BucketCount(routes: seq<Route>, owner: string, s: Severity)
    ensures |Bucket(routes, owner, s)| == |OwnedGraded(routes, owner, s)|
  {
    hide Bucket;
    var p := AreOwnedGraded(owner, s);
    BucketIsFilter(routes, owner, s);
    FilterIndices(p, routes);
    assert Passing(p, routes) == OwnedGraded(routes, owner, s);
  }

  lemma OwnedCount(routes: seq<Route>, owner: string)
    ensures |OwnedRoutes(routes, owner)| == |OwnedBy(routes, owner)|
  {
    FilterIndices(Equals(OwnerOf, owner), routes);
    forall r { EqualsHolds(OwnerOf, owner, r); }
    assert Passing(Equals(OwnerOf, owner), routes) == OwnedBy(routes, owner);
  }

  /** The positions of the routes of an owner and a severity that are about a check. */
  ghost function Checking(routes: seq<Route>, owner: string, s: Severity, check: string): set<nat> {
    set i: nat | i < |routes| && routes[i].owner == owner && routes[i].severity == s && routes[i].check == check
  }

  /** What an action says of the routes of its owner. */
  ghost predicate ActionSays(routes: seq<Route>, owner: string, a: Action) {
    && a.routeCount == |OwnedGraded(routes, owner, a.severity)| > 0
    && (a.priority == "P0" <==> a.severity == Critical)
    && (a.priority == "P1" <==> a.severity == High)
    && (a.priority == "P2" <==> a.severity == Medium)
    && (a.priority == "P3" <==> a.severity == Low || a.severity == Warn)
    && (forall i, j :: 0 <= i < j < |a.checks| ==> StrLeq(a.checks[i], a.checks[j]))
    && (forall check :: multiset(a.checks)[check] == |Checking(routes, owner, a.severity, check)|)
    && Ascending(a.slaTargets)
    && (forall sla :: sla in a.slaTargets <==>
          exists r :: r in routes && r.owner == owner && r.severity == a.severity && r.sla == sla)
  }

  lemma Priorities(s: Severity)
    ensures PriorityText(s) == "P0" <==> s == Critical
    ensures PriorityText(s) == "P1" <==> s == High
    ensures PriorityText(s) == "P2" <==> s == Medium
    ensures PriorityText(s) == "P3" <==> s == Low || s == Warn
  {
    assert "P0"[1] == '0' && "P1"[1] == '1' && "P2"[1] == '2' && "P3"[1] == '3';
  }

  lemma ChecksAscend(rows: seq<Route>, s: Severity, i: nat, j: nat)
    requires i < j < |ActionFor(rows, s).checks|
    ensures StrLeq(ActionFor(rows, s).checks[i], ActionFor(rows, s).checks[j])
  {
    hide StrLeq, Sort;
    var sorted := Sort(rows, RowKey);
    SortSorted(rows, RowKey);
    assert KeyLeq(RowKey(sorted[i]), RowKey(sorted[j]));
    StrTotal(sorted[i].check, sorted[i].check);
  }

  function Named(check: string): Route -> bool { (r: Route) => r.check == check }

  lemma {:induction false} ChecksNamed(rows: seq<Route>, check: string)
    ensures multiset(Map(CheckOf, rows))[check] == |Filter(Named(check), rows)|
  {
    if rows != [] {
      var front, last := rows[..|rows| - 1], rows[|rows| - 1];
      ChecksNamed(front, check);
      assert Map(CheckOf, rows) == Map(CheckOf, front) + [last.check];
    }
  }

  function AreAbout(owner: string, s: Severity, check: string): Route -> bool {
    (r: Route) => r.owner == owner && r.severity == s && r.check == check
  }

  lemma ChecksCounted(routes: seq<Route>, owner: string, s: Severity, check: string)
    ensures multiset(ActionFor(Bucket(routes, owner, s), s).checks)[check] == |Checking(routes, owner, s, check)|
  {
    hide Bucket, ActionFor, Filter;
    var rows := Bucket(routes, owner, s);
    ActionConservation(rows, s);
    ChecksNamed(rows, check);
    BucketIsFilter(routes, owner, s);
    FilterTwice(AreOwnedGraded(owner, s), Named(check), AreAbout(owner, s, check), routes);
    FilterIndices(AreAbout(owner, s, check), routes);
    assert Passing(AreAbout(owner, s, check), routes) == Checking(routes, owner, s, check);
  }

  lemma SortedBucketMember(routes: seq<Route>, owner: string, s: Severity, r: Route)
    ensures r in Sort(Bucket(routes, owner, s), RowKey) <==> r in routes && r.owner == owner && r.severity == s
  {
    hide Bucket, Filter, Sort;
    var rows := Bucket(routes, owner, s);
    var sorted := Sort(rows, RowKey);
    SortMultiset(rows, RowKey);
    BucketIsFilter(routes, owner, s);
    FilterMember(AreOwnedGraded(owner, s), routes, r);
    assert r in sorted <==> r in multiset(sorted);
    assert r in rows <==> r in multiset(rows);
  }

  lemma SlaTargets(routes: seq<Route>, owner: string, s: Severity, sla: string)
    ensures sla in ActionFor(Bucket(routes, owner, s), s).slaTargets <==>
            exists r :: r in routes && r.owner == owner && r.severity == s && r.sla == sla
  {
    hide Bucket, Sort, Ascending, Map, PriorityText, ActionText;
    var sorted := Sort(Bucket(routes, owner, s), RowKey);
    var targets := ActionFor(Bucket(routes, owner, s), s).slaTargets;
    assert sla in targets <==> sla in Elements(targets);
    MapMember(SlaOf, sorted, sla);
    forall r { SortedBucketMember(routes, owner, s, r); }
  }

  lemma ActionMeans(routes: seq<Route>, owner: string, s: Severity)
    requires Bucket(routes, owner, s) != []
    ensures ActionSays(routes, owner, ActionFor(Bucket(routes, owner, s), s))
    ensures ActionFor(Bucket(routes, owner, s), s).severity == s
  {
    hide Bucket, Ascending, StrLeq, Sort, PriorityText, ActionText;
    var rows := Bucket(routes, owner, s);
    var a := ActionFor(rows, s);
    BucketCount(routes, owner, s);
    ActionConservation(rows, s);
    Priorities(s);
    forall i, j | 0 <= i < j < |a.checks| ensures StrLeq(a.checks[i], a.checks[j]) { ChecksAscend(rows, s, i, j); }
    forall check { ChecksCounted(routes, owner, s, check); }
    forall sla { SlaTargets(routes, owner, s, sla); }
  }

  // ---------------------------------------------------------------- recommendations

  /** What the recommendation of an owner says of the routes. */
  ghost predicate OwnerSays(routes: seq<Route>, r: Recommendation) {
    && r.totalRoutes == |OwnedBy(routes, r.owner)| > 0
    && (forall i, j :: 0 <= i < j < |r.actions| ==> MoreUrgent(r.actions[i].severity, r.actions[j].severity))
    && (forall a :: a in r.actions ==> ActionSays(routes, r.owner, a))
    && (forall s :: (exists a :: a in r.actions && a.severity == s) <==> OwnedGraded(routes, r.owner, s) != {})
  }

  lemma OwnerMeans(routes: seq<Route>, owner: string, suggestions: seq<Suggestion>, plan: seq<Suggestion>)
    requires owner in Owners(routes)
    ensures OwnerSays(routes, RecommendationFor(routes, owner, suggestions, plan))
  {
    hide Bucket, OwnedRoutes, ActionFor, ActionSays, Priority, MoreUrgent;
    var severities := SeveritiesOf(routes, owner);
    var r := RecommendationFor(routes, owner, suggestions, plan);
    SeveritiesCover(routes, owner);
    OwnedCount(routes, owner);
    forall i, j | 0 <= i < j < |severities| ensures MoreUrgent(severities[i], severities[j]) {
      PriorityMeans(severities[i], severities[j]);
    }
    forall i | 0 <= i < |severities|
      ensures ActionSays(routes, owner, r.actions[i]) && r.actions[i].severity == severities[i]
    {
      assert severities[i] in severities;
      ActionMeans(routes, owner, severities[i]);
    }
    forall s ensures (exists a :: a in r.actions && a.severity == s) <==> OwnedGraded(routes, owner, s) != {} {
      BucketCount(routes, owner, s);
      PresentSeverities(routes, owner, s);
      if s in severities {
        var i :| 0 <= i < |severities| && severities[i] == s;
        assert r.actions[i] in r.actions;
      }
    }
    var x :| x in routes && x.owner == owner;
    var n :| 0 <= n < |routes| && routes[n] == x;
    assert n in OwnedBy(routes, owner);
  }

  lemma PresentSeverities(routes: seq<Route>, owner: string, s: Severity)
    ensures s in SeveritiesOf(routes, owner) <==> Bucket(routes, owner, s) != []
  {
    hide Bucket;
    FilterMember((x: Severity) => Bucket(routes, owner, x) != [], SEVERITIES, s);
    assert SEVERITIES[Priority(s)] == s;
  }

  function NameOf(r: Recommendation): string { r.owner }

  /** One recommendation for each owner of a route, in the order of names. */
  ghost predicate OnePerOwner(routes: seq<Route>, all: seq<Recommendation>) {
    && Ascending(Map(NameOf, all))
    && (forall owner :: owner in Map(NameOf, all) <==> exists x :: x in routes && x.owner == owner)
  }

  lemma OwnersListed(routes: seq<Route>, suggestions: seq<Suggestion>, plan: seq<Suggestion>)
    requires routes != []
    ensures var all, owners := Recommendations(routes, suggestions, plan), SortedSet(Owners(routes));
            && |all| == |owners| && Map(NameOf, all) == owners
            && forall i :: 0 <= i < |all| ==> all[i] == RecommendationFor(routes, owners[i], suggestions, plan)
  {
    hide RecommendationFor, Ascending;
    assert routes[0] in routes;
    assert routes[0].owner in Elements(SortedSet(Owners(routes)));
    forall owner { NamedFor(routes, owner, suggestions, plan); }
  }

  lemma NamedFor(routes: seq<Route>, owner: string, suggestions: seq<Suggestion>, plan: seq<Suggestion>)
    ensures var r := RecommendationFor(routes, owner, suggestions, plan);
            r.owner == owner && r.suggestions == suggestions && r.followUpPlan == plan
  {
  }

  /** The recommendations are one for each owner of a route, and say of the routes what they count. */
  lemma RecommendationsMean(routes: seq<Route>, suggestions: seq<Suggestion>, plan: seq<Suggestion>)
    requires routes != []
    ensures var all := Recommendations(routes, suggestions, plan);
            && OnePerOwner(routes, all)
            && forall i :: 0 <= i < |all| ==>
                 OwnerSays(routes, all[i]) && all[i].suggestions == suggestions && all[i].followUpPlan == plan
  {
    hide RecommendationFor, Recommendations, Ascending, OwnerSays;
    var all, owners := Recommendations(routes, suggestions, plan), SortedSet(Owners(routes));
    OwnersListed(routes, suggestions, plan);
    forall i | 0 <= i < |all|
      ensures OwnerSays(routes, all[i]) && all[i].suggestions == suggestions && all[i].followUpPlan == plan
    {
      assert owners[i] in Elements(owners);
      OwnerMeans(routes, owners[i], suggestions, plan);
      NamedFor(routes, owners[i], suggestions, plan);
    }
    forall owner ensures owner in owners <==> exists x :: x in routes && x.owner == owner {
      assert owner in owners <==> owner in Elements(owners);
    }
  }

  /** Without routes there is a recommendation for nobody exactly when there is something to suggest. */
  lemma NothingRouted(suggestions: seq<Suggestion>, plan: seq<Suggestion>)
    ensures Recommendations([], suggestions, plan) ==
            if suggestions == [] && plan == [] then []
            else [Recommendation("unassigned", 0, [], suggestions, plan)]
  {
    assert |SortedSet(Owners([]))| == 0;
  }

  // ---------------------------------------------------------------- the threshold route

  /** The profile that decides: the branch's own, else the default one, else none. */
  ghost predicate Selected(profiles: map<string, Profile>, branch: string, profile: Profile) {
    && (branch in profiles ==> profile == profiles[branch])
    && (branch !in profiles && "default" in profiles ==> profile == profiles["default"])
    && (branch !in profiles && "default" !in profiles ==> profile == Profile(None, None, None))
  }

  /** A route is added exactly on a breach, with what the selected profile says and the defaults of the script. */
  lemma ThresholdRouteMeans(threshold: Option<Threshold>, profiles: map<string, Profile>, profile: Profile)
    requires threshold.Some? ==> Selected(profiles, threshold.value.branch.GetOr("default"), profile)
    ensures var added := ThresholdRoute(threshold, profiles);
            && (added.Some? <==> threshold.Some? && threshold.value.breach)
            && (added.Some? ==>
                  && added.value.check == "first_proof_ship_rate_threshold"
                  && added.value.sourceScenario == "first-proof-threshold"
                  && Says(profile.owner, "release-ops", added.value.owner)
                  && Says(profile.sla, "3d", added.value.sla)
                  && (profile.severity.None? ==> added.value.severity == High)
                  && (profile.severity.Some? ==> SaysSeverity(profile.severity, added.value.severity)))
  {
    hide NormalizeSeverity, SaysSeverity, BreachDetails;
    if threshold.Some? && threshold.value.breach {
      NameRoundTrip(High);
      SeveritySaid(profile.severity, NormalizeSeverity(profile.severity));
    }
  }

  /** A number of hundredths is shown with two digits after the point. */
  lemma HundredthsShown(x: real, cents: nat)
    requires x >= 0.0 && RoundHalfEven(x * 100.0) == cents
    ensures Fixed2(x) == Decimal(cents / 100) + "." + [Digit(cents / 10 % 10), Digit(cents % 10)]
    ensures x > 0.0 ==> Fixed2(-x) == "-" + Fixed2(x)
  {
    hide RoundHalfEven, Decimal, Digit;
    assert [] + Decimal(cents / 100) == Decimal(cents / 100);
    assert "-" + Decimal(cents / 100) + "." + [Digit(cents / 10 % 10), Digit(cents % 10)] ==
           "-" + (Decimal(cents / 100) + "." + [Digit(cents / 10 % 10), Digit(cents % 10)]);
  }

  lemma RatesShown()
    ensures Fixed2(2.0 / 3.0) == "0.67" && Fixed2(1.0) == "1.00"
  {
    hide Fixed2;
    assert RoundHalfEven(2.0 / 3.0 * 100.0) == 67 && RoundHalfEven(1.0 * 100.0) == 100;
    HundredthsShown(2.0 / 3.0, 67);
    HundredthsShown(1.0, 100);
  }

  /** Case and surrounding spaces of a severity do not matter, and an unknown word is medium. */
  lemma SeverityWords()
    ensures NormalizeSeverity(Some("HIGH")) == High && NormalizeSeverity(Some(" Warn ")) == Warn
    ensures NormalizeSeverity(Some("p0")) == Medium
  {
    StripFixed("HIGH");
    assert Lower("HIGH") == "high";
    assert " Warn " == " " + "Warn" + " " && AllSpace(" ");
    StripPadded(" ", "Warn", " ");
    assert Lower("Warn") == "warn";
    StripFixed("p0");
    assert Lower("p0")[0] == 'p';
  }
}
