/**
 Owner escalation: postcheck rows become sorted routes, grouped by owner and severity.  One code path
 adds a threshold route to a payload that was already built.
 */
module OwnerEscalation {
  import opened Outcomes
  import opened Ordering
  import opened Rounding
  import opened Text

  datatype Severity = Critical | High | Medium | Low | Warn

  const SEVERITIES := [Critical, High, Medium, Low, Warn]

  function Priority(s: Severity): nat {
    match s
    case Critical => 0
    case High => 1
    case Medium => 2
    case Low => 3
    case Warn => 4
  }

  function Lower(s: string): string {
    seq(|s|, i requires 0 <= i < |s| =>
      if 'A' <= s[i] <= 'Z' then ((s[i] as int) + 32) as char else s[i])
  }

  /** An absent or empty severity, and any unknown word, counts as medium. */
  function NormalizeSeverity(value: Option<string>): Severity {
    var word := Lower(Strip(value.GetOr("")));
    if word == "critical" then Critical
    else if word == "high" then High
    else if word == "low" then Low
    else if word == "warn" then Warn
    else Medium
  }

  datatype Route = Route(
    check: string, owner: string, severity: Severity, sla: string, details: string, sourceScenario: string)

  /** One entry of `owner_routing`; entries that are no JSON objects are skipped. */
  datatype Entry =
    | NotAnObject
    | Object(check: Option<string>, owner: Option<string>, severity: Option<string>, sla: Option<string>,
             details: Option<string>, sourceScenario: Option<string>)

  datatype Suggestion = Suggestion(id: string, priority: string, text: string, command: string)

  /** `ownerRouting` is None when the JSON value is not a list; the two lists are extracted beforehand. */
  datatype Postcheck = Postcheck(
    scenario: Option<string>, ownerRouting: Option<seq<Entry>>,
    suggestions: seq<Suggestion>, followUpPlan: seq<Suggestion>)

  datatype Action = Action(
    priority: string, severity: Severity, action: string, routeCount: nat, checks: seq<string>, slaTargets: seq<string>)

  datatype Recommendation = Recommendation(
    owner: string, totalRoutes: nat, actions: seq<Action>,
    suggestions: seq<Suggestion>, followUpPlan: seq<Suggestion>)

  datatype Summary = Summary(totalRoutes: nat, critical: nat, high: nat, medium: nat)

  datatype Payload = Payload(summary: Summary, routes: seq<Route>, recommendations: seq<Recommendation>)

  // ---------------------------------------------------------------- routes

  function RouteKey(r: Route): Key { Key([Priority(r.severity)], [r.owner, r.check, r.sla, r.details]) }

  function RouteOf(e: Entry, scenario: string): Route
    requires e.Object?
  {
    Route(e.check.GetOr("unknown"), e.owner.GetOr("platform-ops"), NormalizeSeverity(e.severity),
          e.sla.GetOr("7d"), e.details.GetOr(""), e.sourceScenario.GetOr(scenario))
  }

  function CollectRoutes(entries: seq<Entry>, scenario: string): seq<Route> {
    if entries == [] then []
    else
      CollectRoutes(entries[..|entries| - 1], scenario) +
      if entries[|entries| - 1].Object? then [RouteOf(entries[|entries| - 1], scenario)] else []
  }

  function Routes(p: Postcheck): seq<Route> {
    if p.ownerRouting.None? then []
    else Sort(CollectRoutes(p.ownerRouting.value, p.scenario.GetOr("unknown")), RouteKey)
  }

  method BuildRoutes(p: Postcheck) returns (routes: seq<Route>)
    ensures routes == Routes(p)
  {
    var scenario := p.scenario.GetOr("unknown");
    if p.ownerRouting.None? { return []; }
    var entries := p.ownerRouting.value;
    routes := [];
    for i := 0 to |entries|
      invariant routes == CollectRoutes(entries[..i], scenario)
    {
      Prefix(entries, i);
      if entries[i].NotAnObject? { continue; }
      routes := routes + [RouteOf(entries[i], scenario)];
    }
    assert entries[..|entries|] == entries;
    routes := Sort(routes, RouteKey);
  }

  // ---------------------------------------------------------------- recommendations

  predicate IsCritical(r: Route) { r.severity == Critical }
  predicate IsHigh(r: Route) { r.severity == High }
  predicate IsMedium(r: Route) { r.severity == Medium }

  function BuildSummary(routes: seq<Route>): Summary {
    Summary(|routes|, |Filter(IsCritical, routes)|, |Filter(IsHigh, routes)|, |Filter(IsMedium, routes)|)
  }

  function Bucket(routes: seq<Route>, owner: string, s: Severity): seq<Route> {
    Having(OwnedRoutes(routes, owner), SeverityOf, s)
  }

  function OwnerOf(r: Route): string { r.owner }
  function SeverityOf(r: Route): Severity { r.severity }

  function OwnedRoutes(routes: seq<Route>, owner: string): seq<Route> { Having(routes, OwnerOf, owner) }

  function Owners(routes: seq<Route>): set<string> { set r | r in routes :: r.owner }

  function SeveritiesOf(routes: seq<Route>, owner: string): seq<Severity> {
    Filter((s: Severity) => Bucket(routes, owner, s) != [], SEVERITIES)
  }

  function PriorityText(s: Severity): string {
    match s
    case Critical => "P0"
    case High => "P1"
    case Medium => "P2"
    case Low => "P3"
    case Warn => "P3"
  }

  function ActionText(s: Severity): string {
    match s
    case Critical => "Open an immediate escalation ticket and page the on-call owner."
    case High => "Create a high-priority ticket with remediation owner and ETA."
    case Medium => "Add to planned remediation backlog and track in weekly ops review."
    case Low => "Track as routine quality debt and monitor for regression."
    case Warn => "Track as advisory action and reassess in the next postcheck cycle."
  }

  function RowKey(r: Route): Key { Key([], [r.check, r.sla, r.details]) }
  function CheckOf(r: Route): string { r.check }
  function SlaOf(r: Route): string { r.sla }

  function ActionFor(rows: seq<Route>, s: Severity): Action {
    var sorted := Sort(rows, RowKey);
    Action(PriorityText(s), s, ActionText(s), |sorted|, Map(CheckOf, sorted), SortedSet(Elements(Map(SlaOf, sorted))))
  }

  function ActionsFor(routes: seq<Route>, owner: string, severities: seq<Severity>): (actions: seq<Action>)
    ensures |actions| == |severities|
    ensures forall i :: 0 <= i < |severities| ==>
              actions[i] == ActionFor(Bucket(routes, owner, severities[i]), severities[i])
  {
    seq(|severities|,
        i requires 0 <= i < |severities| => ActionFor(Bucket(routes, owner, severities[i]), severities[i]))
  }

  function RecommendationFor(
    routes: seq<Route>, owner: string, suggestions: seq<Suggestion>, plan: seq<Suggestion>): Recommendation
  {
    Recommendation(owner, |OwnedRoutes(routes, owner)|,
                   ActionsFor(routes, owner, SeveritiesOf(routes, owner)), suggestions, plan)
  }

  /** One recommendation per owner in name order, each with one action per severity it has routes of. */
  function Recommendations(routes: seq<Route>, suggestions: seq<Suggestion>, plan: seq<Suggestion>)
    : seq<Recommendation>
  {
    var owners := SortedSet(Owners(routes));
    var found := seq(|owners|, i requires 0 <= i < |owners| => RecommendationFor(routes, owners[i], suggestions, plan));
    if found == [] && (suggestions != [] || plan != []) then [Recommendation("unassigned", 0, [], suggestions, plan)]
    else found
  }

  type Buckets = map<Severity, seq<Route>>

  ghost predicate GroupedAs(grouped: map<string, Buckets>, routes: seq<Route>) {
    && grouped.Keys == Owners(routes)
    && forall owner :: owner in grouped ==> BucketsAs(grouped[owner], routes, owner)
  }

  ghost predicate BucketsAs(buckets: Buckets, routes: seq<Route>, owner: string) {
    forall s: Severity ::
      (s in buckets <==> Bucket(routes, owner, s) != []) && (s in buckets ==> buckets[s] == Bucket(routes, owner, s))
  }

  lemma BucketStep(routes: seq<Route>, i: nat, owner: string, s: Severity)
    requires i < |routes|
    ensures Bucket(routes[..i + 1], owner, s) ==
            Bucket(routes[..i], owner, s) +
            if routes[i].owner == owner && routes[i].severity == s then [routes[i]] else []
    ensures Owners(routes[..i + 1]) == Owners(routes[..i]) + {routes[i].owner}
  {
    Prefix(routes, i);
    var owned := OwnedRoutes(routes[..i], owner);
    HavingStep(routes[..i + 1], OwnerOf, owner);
    if routes[i].owner == owner {
      assert (owned + [routes[i]])[..|owned|] == owned;
      HavingStep(owned + [routes[i]], SeverityOf, s);
    } else {
      assert owned + [] == owned;
    }
  }

  function Put(bucket: Buckets, row: Route): Buckets {
    bucket[row.severity := (if row.severity in bucket then bucket[row.severity] else []) + [row]]
  }

  lemma BucketsStep(bucket: Buckets, routes: seq<Route>, i: nat, owner: string)
    requires i < |routes| && BucketsAs(bucket, routes[..i], owner)
    ensures BucketsAs(if owner == routes[i].owner then Put(bucket, routes[i]) else bucket, routes[..i + 1], owner)
  {
    hide Bucket;
    forall s: Severity
      ensures Bucket(routes[..i + 1], owner, s) ==
              Bucket(routes[..i], owner, s) +
              if routes[i].owner == owner && routes[i].severity == s then [routes[i]] else []
    {
      BucketStep(routes, i, owner, s);
    }
    forall s: Severity ensures Bucket(routes[..i], owner, s) + [] == Bucket(routes[..i], owner, s) { }
  }

  /** The nested `setdefault` loop: owner first, then severity, each bucket in route order. */
  method GroupRoutes(routes: seq<Route>) returns (grouped: map<string, Buckets>)
    ensures GroupedAs(grouped, routes)
  {
    hide BucketsAs, Bucket, OwnedRoutes, Having, Filter;
    grouped := map[];
    for i := 0 to |routes|
      invariant GroupedAs(grouped, routes[..i])
    {
      var row := routes[i];
      if row.owner !in grouped {
        NoBucket(routes[..i], row.owner);
        grouped := grouped[row.owner := map[]];
      }
      forall owner | owner in grouped { BucketsStep(grouped[owner], routes, i, owner); }
      var bucket := grouped[row.owner];
      if row.severity !in bucket { bucket := bucket[row.severity := []]; }
      bucket := bucket[row.severity := bucket[row.severity] + [row]];
      assert bucket == Put(grouped[row.owner], row);
      grouped := grouped[row.owner := bucket];
      BucketStep(routes, i, row.owner, row.severity);
    }
    assert routes[..|routes|] == routes;
  }

  lemma NoBucket(routes: seq<Route>, owner: string)
    requires owner !in Owners(routes)
    ensures BucketsAs(map[], routes, owner)
  {
    forall s: Severity ensures Bucket(routes, owner, s) == [] {
      var rows := Bucket(routes, owner, s);
      if rows != [] {
        HavingMember(OwnedRoutes(routes, owner), SeverityOf, s, rows[0]);
        HavingMember(routes, OwnerOf, owner, rows[0]);
      }
    }
  }

  lemma TotalOf(routes: seq<Route>, owner: string)
    ensures |OwnedRoutes(routes, owner)| ==
            |Bucket(routes, owner, Critical)| + |Bucket(routes, owner, High)| + |Bucket(routes, owner, Medium)|
            + |Bucket(routes, owner, Low)| + |Bucket(routes, owner, Warn)|
  {
    BySeverity(OwnedRoutes(routes, owner));
  }

  lemma {:induction false} BySeverity(rows: seq<Route>)
    ensures |rows| ==
            |Having(rows, SeverityOf, Critical)| + |Having(rows, SeverityOf, High)| + |Having(rows, SeverityOf, Medium)|
            + |Having(rows, SeverityOf, Low)| + |Having(rows, SeverityOf, Warn)|
  {
    if rows != [] {
      BySeverity(rows[..|rows| - 1]);
      HavingStep(rows, SeverityOf, Critical);
      HavingStep(rows, SeverityOf, High);
      HavingStep(rows, SeverityOf, Medium);
      HavingStep(rows, SeverityOf, Low);
      HavingStep(rows, SeverityOf, Warn);
      match rows[|rows| - 1].severity case Critical => case High => case Medium => case Low => case Warn =>
    }
  }

  /** The routes counted so far when the first n severities of an owner have been visited. */
  ghost function CountedRoutes(routes: seq<Route>, owner: string, n: nat): nat
    requires n <= |SEVERITIES|
  {
    if n == 0 then 0 else CountedRoutes(routes, owner, n - 1) + |Bucket(routes, owner, SEVERITIES[n - 1])|
  }

  method BuildActions(buckets: Buckets, ghost routes: seq<Route>, ghost owner: string)
    returns (actions: seq<Action>, total: nat)
    requires BucketsAs(buckets, routes, owner)
    ensures actions == ActionsFor(routes, owner, SeveritiesOf(routes, owner))
    ensures total == |OwnedRoutes(routes, owner)|
  {
    hide Bucket, OwnedRoutes, ActionFor;
    actions, total := [], 0;
    ghost var present := (s: Severity) => Bucket(routes, owner, s) != [];
    for n := 0 to |SEVERITIES|
      invariant actions == ActionsFor(routes, owner, Filter(present, SEVERITIES[..n]))
      invariant total == CountedRoutes(routes, owner, n)
    {
      Prefix(SEVERITIES, n);
      var s := SEVERITIES[n];
      if s in buckets {
        actions := actions + [ActionFor(buckets[s], s)];
        total := total + |buckets[s]|;
      }
    }
    assert SEVERITIES[..|SEVERITIES|] == SEVERITIES;
    TotalOf(routes, owner);
    assert CountedRoutes(routes, owner, 3) == CountedRoutes(routes, owner, 2) + |Bucket(routes, owner, Medium)|;
    assert CountedRoutes(routes, owner, 2) == CountedRoutes(routes, owner, 1) + |Bucket(routes, owner, High)|;
  }

  method BuildRecommendations(routes: seq<Route>, suggestions: seq<Suggestion>, plan: seq<Suggestion>)
    returns (recommendations: seq<Recommendation>)
    ensures recommendations == Recommendations(routes, suggestions, plan)
  {
    hide BucketsAs, ActionsFor, OwnedRoutes, SeveritiesOf, SortedSet, Ascending, Recommendations;
    var grouped := GroupRoutes(routes);
    var owners := SortedSet(grouped.Keys);
    recommendations := [];
    for i := 0 to |owners|
      invariant |recommendations| == i
      invariant forall k :: 0 <= k < i ==> recommendations[k] == RecommendationFor(routes, owners[k], suggestions, plan)
    {
      assert owners[i] in Elements(owners);
      var actions, total := BuildActions(grouped[owners[i]], routes, owners[i]);
      recommendations := recommendations + [Recommendation(owners[i], total, actions, suggestions, plan)];
    }
    if recommendations == [] && (suggestions != [] || plan != []) {
      recommendations := recommendations + [Recommendation("unassigned", 0, [], suggestions, plan)];
    }
    RecommendationsAre(routes, suggestions, plan);
  }

  lemma RecommendationsAre(routes: seq<Route>, suggestions: seq<Suggestion>, plan: seq<Suggestion>)
    ensures var owners, all := SortedSet(Owners(routes)), Recommendations(routes, suggestions, plan);
            && (owners == [] ==> all == if suggestions != [] || plan != []
                                        then [Recommendation("unassigned", 0, [], suggestions, plan)] else [])
            && (owners != [] ==>
                  && |all| == |owners|
                  && forall k :: 0 <= k < |owners| ==>
                       all[k] == RecommendationFor(routes, owners[k], suggestions, plan))
  {
    hide RecommendationFor, SortedSet;
  }

  // ---------------------------------------------------------------- payloads

  function BuildPayload(p: Postcheck): Payload {
    Payload(BuildSummary(Routes(p)), Routes(p), Recommendations(Routes(p), p.suggestions, p.followUpPlan))
  }

  datatype Profile = Profile(owner: Option<string>, severity: Option<string>, sla: Option<string>)

  /** The threshold check's result as the escalation script reads it. */
  datatype Threshold = Threshold(
    breach: bool, branch: Option<string>, shipRate: Option<real>, minShipRate: Option<real>,
    consecutive: Option<int>, minConsecutive: Option<int>)

  /** `f"{x:.2f}"` */
  function Fixed2(x: real): string {
    var cents := RoundHalfEven((if x < 0.0 then -x else x) * 100.0);
    (if x < 0.0 then "-" else "") + Decimal(cents / 100) + "." + [Digit(cents / 10 % 10), Digit(cents % 10)]
  }

  /** The text of a breach: measured rate and streak next to their limits. */
  function BreachDetails(t: Threshold): string { RateText(t) + ", consecutive_no_ship=" + StreakText(t) }

  function RateText(t: Threshold): string {
    "first-proof threshold breach: ship_rate_last_7=" + Fixed2(t.shipRate.GetOr(0.0))
    + " < min_ship_rate=" + Fixed2(t.minShipRate.GetOr(0.0))
  }

  function StreakText(t: Threshold): string {
    IntText(t.consecutive.GetOr(0)) + " (min=" + IntText(t.minConsecutive.GetOr(0)) + ")"
  }

  function ResolveProfile(profiles: map<string, Profile>, branch: string): Profile {
    if branch in profiles then profiles[branch]
    else if "default" in profiles then profiles["default"]
    else Profile(None, None, None)
  }

  function ThresholdRoute(threshold: Option<Threshold>, profiles: map<string, Profile>): Option<Route> {
    if threshold.None? || !threshold.value.breach then None
    else
      var profile := ResolveProfile(profiles, threshold.value.branch.GetOr("default"));
      Some(Route("first_proof_ship_rate_threshold", profile.owner.GetOr("release-ops"),
                 NormalizeSeverity(Some(profile.severity.GetOr("high"))), profile.sla.GetOr("3d"),
                 BreachDetails(threshold.value), "first-proof-threshold"))
  }

  /** The tail of `main`: the payload that was built is patched in place when the threshold is breached. */
  method EscalationPayload(p: Postcheck, threshold: Option<Threshold>, profiles: map<string, Profile>)
    returns (payload: Payload)
    ensures ThresholdRoute(threshold, profiles).None? ==> payload == BuildPayload(p)
    ensures ThresholdRoute(threshold, profiles).Some? ==>
              payload == BuildPayload(WithRow(p, ThresholdRoute(threshold, profiles).value))
  {
    hide BuildSummary, Recommendations, Routes, ThresholdRoute;
    var routes := BuildRoutes(p);
    var recommendations := BuildRecommendations(routes, p.suggestions, p.followUpPlan);
    payload := Payload(BuildSummary(routes), routes, recommendations);
    var added := ThresholdRoute(threshold, profiles);
    if added.Some? {
      IncrementalRoutes(p, added.value);
      payload := payload.(routes := Sort(payload.routes + [added.value], RouteKey));
      payload := payload.(summary := BuildSummary(payload.routes));
      recommendations := BuildRecommendations(payload.routes, p.suggestions, p.followUpPlan);
      payload := payload.(recommendations := recommendations);
    }
  }

  function SeverityName(s: Severity): string {
    match s
    case Critical => "critical"
    case High => "high"
    case Medium => "medium"
    case Low => "low"
    case Warn => "warn"
  }

  /** The postcheck whose `owner_routing` list ends with a row saying exactly what r says. */
  function WithRow(p: Postcheck, r: Route): Postcheck {
    var row := Object(Some(r.check), Some(r.owner), Some(SeverityName(r.severity)), Some(r.sla), Some(r.details),
                      Some(r.sourceScenario));
    p.(ownerRouting := Some(p.ownerRouting.GetOr([]) + [row]))
  }

  lemma NameRoundTrip(s: Severity)
    ensures NormalizeSeverity(Some(SeverityName(s))) == s
  {
    var name := SeverityName(s);
    StripFixed(name);
    assert Lower(name) == name;
  }

  /** Adding one route to sorted routes gives the routes of the postcheck that had its row from the start. */
  lemma IncrementalRoutes(p: Postcheck, r: Route)
    ensures Sort(Routes(p) + [r], RouteKey) == Routes(WithRow(p, r))
  {
    var entries, scenario := p.ownerRouting.GetOr([]), p.scenario.GetOr("unknown");
    var extended := WithRow(p, r).ownerRouting.value;
    NameRoundTrip(r.severity);
    assert extended[..|extended| - 1] == entries;
    assert CollectRoutes(extended, scenario) == CollectRoutes(entries, scenario) + [r];
    SortAppend(CollectRoutes(entries, scenario), r, RouteKey);
    assert CollectRoutes([], scenario) == [] && Sort([], RouteKey) == [];
  }

  // ---------------------------------------------------------------- recommendations depend on the multiset

  lemma ActionPermutation(rows: seq<Route>, rows': seq<Route>, s: Severity)
    requires multiset(rows) == multiset(rows')
    ensures ActionFor(rows, s) == ActionFor(rows', s)
  {
    var a, b := Sort(rows, RowKey), Sort(rows', RowKey);
    SortedKeysOfPermutation(rows, rows', RowKey);
    SortMultiset(rows, RowKey);
    SortMultiset(rows', RowKey);
    assert |a| == |Map(RowKey, a)| == |Map(RowKey, b)| == |b|;
    forall i | 0 <= i < |a| ensures a[i].check == b[i].check && a[i].sla == b[i].sla {
      assert Map(RowKey, a)[i] == Map(RowKey, b)[i];
      assert RowKey(a[i]).texts[0] == RowKey(b[i]).texts[0] && RowKey(a[i]).texts[1] == RowKey(b[i]).texts[1];
    }
    assert Map(CheckOf, a) == Map(CheckOf, b) && Map(SlaOf, a) == Map(SlaOf, b);
  }

  lemma BucketPermutation(routes: seq<Route>, routes': seq<Route>, owner: string, s: Severity)
    requires multiset(routes) == multiset(routes')
    ensures multiset(Bucket(routes, owner, s)) == multiset(Bucket(routes', owner, s))
    ensures Bucket(routes, owner, s) == [] <==> Bucket(routes', owner, s) == []
  {
    FilterPermutation(Equals(OwnerOf, owner), routes, routes');
    FilterPermutation(Equals(SeverityOf, s), OwnedRoutes(routes, owner), OwnedRoutes(routes', owner));
    assert |Bucket(routes, owner, s)| == |multiset(Bucket(routes, owner, s))|
        == |multiset(Bucket(routes', owner, s))| == |Bucket(routes', owner, s)|;
  }

  // ---------------------------------------------------------------- recommendations do not depend on the details

  /** A route without its details text. */
  function Bare(r: Route): Route { r.(details := "") }

  function ShortKey(r: Route): Key { Key([], [r.check, r.sla]) }

  lemma RowKeyShort(a: Route, b: Route)
    requires KeyLeq(RowKey(a), RowKey(b))
    ensures KeyLeq(ShortKey(a), ShortKey(b))
  {
    hide Lex;
    var s, t := RowKey(a).texts, RowKey(b).texts;
    LexPrefix(StrLeq, s, t, 2);
    assert s[..2] == ShortKey(a).texts && t[..2] == ShortKey(b).texts;
  }

  lemma ShortSorted(rows: seq<Route>)
    ensures SortedKeys(Map(ShortKey, Sort(rows, RowKey)))
    ensures multiset(Map(ShortKey, Sort(rows, RowKey))) == multiset(Map(ShortKey, rows))
  {
    hide KeyLeq, RowKey, ShortKey, Sort;
    var sorted := Sort(rows, RowKey);
    SortSorted(rows, RowKey);
    SortMultiset(rows, RowKey);
    MapPermutation(ShortKey, sorted, rows);
    forall i, j | 0 <= i < j < |sorted| ensures KeyLeq(Map(ShortKey, sorted)[i], Map(ShortKey, sorted)[j]) {
      RowKeyShort(sorted[i], sorted[j]);
    }
  }

  lemma ActionBare(rows: seq<Route>, s: Severity)
    ensures ActionFor(Map(Bare, rows), s) == ActionFor(rows, s)
  {
    hide Sort, RowKey, KeyLeq, SortedKeys;
    var a, b := Sort(rows, RowKey), Sort(Map(Bare, rows), RowKey);
    ShortSorted(rows);
    ShortSorted(Map(Bare, rows));
    assert Map(ShortKey, Map(Bare, rows)) == Map(ShortKey, rows);
    SortedKeysEqual(Map(ShortKey, a), Map(ShortKey, b));
    assert |a| == |Map(ShortKey, a)| == |b|;
    forall i | 0 <= i < |a| ensures a[i].check == b[i].check && a[i].sla == b[i].sla {
      assert Map(ShortKey, a)[i] == Map(ShortKey, b)[i];
      assert ShortKey(a[i]).texts[0] == ShortKey(b[i]).texts[0] && ShortKey(a[i]).texts[1] == ShortKey(b[i]).texts[1];
    }
    assert Map(CheckOf, a) == Map(CheckOf, b) && Map(SlaOf, a) == Map(SlaOf, b);
  }

  lemma BucketBare(routes: seq<Route>, owner: string, s: Severity)
    ensures OwnedRoutes(Map(Bare, routes), owner) == Map(Bare, OwnedRoutes(routes, owner))
    ensures Bucket(Map(Bare, routes), owner, s) == Map(Bare, Bucket(routes, owner, s))
  {
    forall r: Route ensures Equals(OwnerOf, owner)(Bare(r)) == Equals(OwnerOf, owner)(r) {
      assert OwnerOf(Bare(r)) == OwnerOf(r);
    }
    FilterOfMap(Bare, Equals(OwnerOf, owner), Equals(OwnerOf, owner), routes);
    forall r: Route ensures Equals(SeverityOf, s)(Bare(r)) == Equals(SeverityOf, s)(r) {
      assert SeverityOf(Bare(r)) == SeverityOf(r);
    }
    FilterOfMap(Bare, Equals(SeverityOf, s), Equals(SeverityOf, s), OwnedRoutes(routes, owner));
  }

  lemma RecommendationBare(
    routes: seq<Route>, owner: string, suggestions: seq<Suggestion>, plan: seq<Suggestion>)
    ensures RecommendationFor(Map(Bare, routes), owner, suggestions, plan) ==
            RecommendationFor(routes, owner, suggestions, plan)
  {
    hide ActionFor, Bucket, OwnedRoutes, Bare;
    var bare := Map(Bare, routes);
    forall s: Severity
      ensures |OwnedRoutes(bare, owner)| == |OwnedRoutes(routes, owner)|
      ensures Bucket(bare, owner, s) == [] <==> Bucket(routes, owner, s) == []
      ensures ActionFor(Bucket(bare, owner, s), s) == ActionFor(Bucket(routes, owner, s), s)
    {
      BucketBare(routes, owner, s);
      ActionBare(Bucket(routes, owner, s), s);
    }
    assert |OwnedRoutes(bare, owner)| == |OwnedRoutes(routes, owner)| by { BucketBare(routes, owner, Critical); }
    FilterEqual((s: Severity) => Bucket(bare, owner, s) != [], (s: Severity) => Bucket(routes, owner, s) != [],
                SEVERITIES);
    assert SeveritiesOf(bare, owner) == SeveritiesOf(routes, owner);
    assert ActionsFor(bare, owner, SeveritiesOf(bare, owner)) ==
           ActionsFor(routes, owner, SeveritiesOf(routes, owner));
  }

  lemma RecommendationsBare(routes: seq<Route>, suggestions: seq<Suggestion>, plan: seq<Suggestion>)
    ensures Recommendations(Map(Bare, routes), suggestions, plan) == Recommendations(routes, suggestions, plan)
  {
    hide RecommendationFor;
    var bare := Map(Bare, routes);
    forall i | 0 <= i < |routes| ensures routes[i].owner in Owners(bare) { assert bare[i] in bare; }
    assert Owners(bare) == Owners(routes);
    forall owner { RecommendationBare(routes, owner, suggestions, plan); }
  }

  lemma SummaryBare(routes: seq<Route>)
    ensures BuildSummary(Map(Bare, routes)) == BuildSummary(routes)
  {
    hide Filter;
    FilterOfMap(Bare, IsCritical, IsCritical, routes);
    FilterOfMap(Bare, IsHigh, IsHigh, routes);
    FilterOfMap(Bare, IsMedium, IsMedium, routes);
  }

  /** Recommendations and summary depend neither on the order nor on the details of the routes. */
  lemma RecommendationsIgnoreDetails(
    routes: seq<Route>, routes': seq<Route>, suggestions: seq<Suggestion>, plan: seq<Suggestion>)
    requires multiset(Map(Bare, routes)) == multiset(Map(Bare, routes'))
    ensures Recommendations(routes, suggestions, plan) == Recommendations(routes', suggestions, plan)
    ensures BuildSummary(routes) == BuildSummary(routes')
  {
    hide Recommendations, BuildSummary;
    RecommendationsBare(routes, suggestions, plan);
    RecommendationsBare(routes', suggestions, plan);
    SummaryBare(routes);
    SummaryBare(routes');
    RecommendationsPermutation(Map(Bare, routes), Map(Bare, routes'), suggestions, plan);
  }

  lemma {:induction false} FilterEqual<T>(p: T -> bool, q: T -> bool, s: seq<T>)
    requires forall i :: 0 <= i < |s| ==> p(s[i]) == q(s[i])
    ensures Filter(p, s) == Filter(q, s)
  {
    if s != [] { FilterEqual(p, q, s[..|s| - 1]); }
  }

  lemma RecommendationPermutation(
    routes: seq<Route>, routes': seq<Route>, owner: string, suggestions: seq<Suggestion>, plan: seq<Suggestion>)
    requires multiset(routes) == multiset(routes')
    ensures RecommendationFor(routes, owner, suggestions, plan) == RecommendationFor(routes', owner, suggestions, plan)
  {
    hide ActionFor, Bucket;
    FilterPermutation(Equals(OwnerOf, owner), routes, routes');
    assert |OwnedRoutes(routes, owner)| == |multiset(OwnedRoutes(routes, owner))|
        == |multiset(OwnedRoutes(routes', owner))| == |OwnedRoutes(routes', owner)|;
    forall s: Severity
      ensures Bucket(routes, owner, s) == [] <==> Bucket(routes', owner, s) == []
      ensures ActionFor(Bucket(routes, owner, s), s) == ActionFor(Bucket(routes', owner, s), s)
    {
      BucketPermutation(routes, routes', owner, s);
      ActionPermutation(Bucket(routes, owner, s), Bucket(routes', owner, s), s);
    }
    FilterEqual((s: Severity) => Bucket(routes, owner, s) != [], (s: Severity) => Bucket(routes', owner, s) != [],
                SEVERITIES);
    assert SeveritiesOf(routes, owner) == SeveritiesOf(routes', owner);
    assert ActionsFor(routes, owner, SeveritiesOf(routes, owner)) ==
           ActionsFor(routes', owner, SeveritiesOf(routes', owner));
  }

  /** The order in which routes arrive changes neither the recommendations nor the summary. */
  lemma RecommendationsPermutation(
    routes: seq<Route>, routes': seq<Route>, suggestions: seq<Suggestion>, plan: seq<Suggestion>)
    requires multiset(routes) == multiset(routes')
    ensures Recommendations(routes, suggestions, plan) == Recommendations(routes', suggestions, plan)
    ensures BuildSummary(routes) == BuildSummary(routes')
  {
    hide RecommendationFor;
    forall r ensures r in routes <==> r in routes' {
      assert r in routes <==> r in multiset(routes);
      assert r in routes' <==> r in multiset(routes');
    }
    assert Owners(routes) == Owners(routes');
    forall owner { RecommendationPermutation(routes, routes', owner, suggestions, plan); }
    assert |routes| == |multiset(routes)| == |routes'|;
    FilterLength(IsCritical, routes, routes');
    FilterLength(IsHigh, routes, routes');
    FilterLength(IsMedium, routes, routes');
  }

  lemma FilterLength<T>(p: T -> bool, s: seq<T>, t: seq<T>)
    requires multiset(s) == multiset(t)
    ensures |Filter(p, s)| == |Filter(p, t)|
  {
    FilterPermutation(p, s, t);
    assert |Filter(p, s)| == |multiset(Filter(p, s))| == |multiset(Filter(p, t))| == |Filter(p, t)|;
  }

  // ---------------------------------------------------------------- conservation and order

  function ActionChecks(a: Action): seq<string> { a.checks }
  function RouteCountOf(a: Action): int { a.routeCount }
  function TotalRoutesOf(r: Recommendation): int { r.totalRoutes }
  function RecommendationChecks(r: Recommendation): seq<string> { Concat(Map(ActionChecks, r.actions)) }

  lemma SeveritiesCover(routes: seq<Route>, owner: string)
    ensures Distinct(SeveritiesOf(routes, owner))
    ensures forall r :: r in OwnedRoutes(routes, owner) ==> r.severity in SeveritiesOf(routes, owner)
    ensures forall s :: s in SeveritiesOf(routes, owner) ==> Bucket(routes, owner, s) != []
    ensures forall i, j :: 0 <= i < j < |SeveritiesOf(routes, owner)| ==>
              Priority(SeveritiesOf(routes, owner)[i]) < Priority(SeveritiesOf(routes, owner)[j])
  {
    hide Bucket;
    var present := (s: Severity) => Bucket(routes, owner, s) != [];
    FilterAscends(present, SEVERITIES);
    forall s ensures s in SeveritiesOf(routes, owner) <==> Bucket(routes, owner, s) != [] {
      FilterMember(present, SEVERITIES, s);
      assert SEVERITIES[Priority(s)] == s;
    }
    forall r | r in OwnedRoutes(routes, owner) ensures r.severity in SeveritiesOf(routes, owner) {
      BucketMember(routes, owner, r);
    }
  }

  lemma BucketMember(routes: seq<Route>, owner: string, r: Route)
    requires r in OwnedRoutes(routes, owner)
    ensures r in Bucket(routes, owner, r.severity)
  {
    HavingMember(OwnedRoutes(routes, owner), SeverityOf, r.severity, r);
  }

  lemma {:induction false} FilterAscends(p: Severity -> bool, s: seq<Severity>)
    requires forall i, j :: 0 <= i < j < |s| ==> Priority(s[i]) < Priority(s[j])
    ensures forall i, j :: 0 <= i < j < |Filter(p, s)| ==> Priority(Filter(p, s)[i]) < Priority(Filter(p, s)[j])
    ensures forall i :: 0 <= i < |Filter(p, s)| ==> Priority(Filter(p, s)[i]) <= Priority(s[|s| - 1])
  {
    if s != [] { FilterAscends(p, s[..|s| - 1]); }
  }

  lemma ActionConservation(rows: seq<Route>, s: Severity)
    ensures multiset(ActionFor(rows, s).checks) == multiset(Map(CheckOf, rows))
    ensures |ActionFor(rows, s).checks| == ActionFor(rows, s).routeCount == |rows|
  {
    SortMultiset(rows, RowKey);
    MapPermutation(CheckOf, Sort(rows, RowKey), rows);
  }

  lemma OwnerConservation(routes: seq<Route>, owner: string, suggestions: seq<Suggestion>, plan: seq<Suggestion>)
    ensures var r := RecommendationFor(routes, owner, suggestions, plan);
            && multiset(RecommendationChecks(r)) == multiset(Map(CheckOf, OwnedRoutes(routes, owner)))
            && Sum(Map(RouteCountOf, r.actions)) == r.totalRoutes == |OwnedRoutes(routes, owner)|
  {
    hide ActionFor, SeveritiesOf, OwnedRoutes, Concat, Sum, Having;
    var owned, severities := OwnedRoutes(routes, owner), SeveritiesOf(routes, owner);
    var r := RecommendationFor(routes, owner, suggestions, plan);
    var parts, texts := Split(owned, SeverityOf, severities), Map(ActionChecks, r.actions);
    SeveritiesCover(routes, owner);
    SplitCovers(owned, SeverityOf, severities);
    forall i | 0 <= i < |parts|
      ensures multiset(texts[i]) == multiset(Map(CheckOf, parts[i])) && |texts[i]| == r.actions[i].routeCount
    {
      ActionConservation(parts[i], severities[i]);
    }
    ConcatMap(parts, texts, CheckOf);
    MapPermutation(CheckOf, Concat(parts), owned);
    ConcatLength(texts, Map(RouteCountOf, r.actions));
    SameLength(Concat(texts), Map(CheckOf, owned));
  }

  /** The recommendations for listed owners that cover the routes. */
  lemma OwnersConservation(
    routes: seq<Route>, owners: seq<string>, all: seq<Recommendation>, suggestions: seq<Suggestion>,
    plan: seq<Suggestion>)
    requires Distinct(owners) && forall r :: r in routes ==> r.owner in owners
    requires |all| == |owners|
    requires forall i :: 0 <= i < |owners| ==> all[i] == RecommendationFor(routes, owners[i], suggestions, plan)
    ensures multiset(Concat(Map(RecommendationChecks, all))) == multiset(Map(CheckOf, routes))
    ensures Sum(Map(TotalRoutesOf, all)) == |routes|
    ensures forall i :: 0 <= i < |all| ==> Sum(Map(RouteCountOf, all[i].actions)) == all[i].totalRoutes
  {
    hide RecommendationFor, RecommendationChecks, Concat, Sum, Having;
    var parts, texts := Split(routes, OwnerOf, owners), Map(RecommendationChecks, all);
    SplitCovers(routes, OwnerOf, owners);
    forall i | 0 <= i < |owners|
      ensures multiset(texts[i]) == multiset(Map(CheckOf, parts[i])) && |texts[i]| == all[i].totalRoutes
      ensures Sum(Map(RouteCountOf, all[i].actions)) == all[i].totalRoutes
    {
      OwnerConservation(routes, owners[i], suggestions, plan);
      SameLength(texts[i], Map(CheckOf, parts[i]));
    }
    ConcatMap(parts, texts, CheckOf);
    MapPermutation(CheckOf, Concat(parts), routes);
    ConcatLength(texts, Map(TotalRoutesOf, all));
    SameLength(Concat(texts), Map(CheckOf, routes));
  }

  /** No route is lost or invented: the checks of all actions are the checks of all routes, and both counts agree. */
  lemma Conservation(routes: seq<Route>, suggestions: seq<Suggestion>, plan: seq<Suggestion>)
    ensures var all := Recommendations(routes, suggestions, plan);
            && multiset(Concat(Map(RecommendationChecks, all))) == multiset(Map(CheckOf, routes))
            && Sum(Map(TotalRoutesOf, all)) == |routes|
            && forall i :: 0 <= i < |all| ==> Sum(Map(RouteCountOf, all[i].actions)) == all[i].totalRoutes
  {
    hide RecommendationFor, RecommendationChecks, Concat, Sum;
    var owners := SortedSet(Owners(routes));
    forall r | r in routes ensures r.owner in owners { assert r.owner in Elements(owners); }
    if routes == [] {
      NoRoutes(suggestions, plan);
    } else {
      assert owners != [] by { assert routes[0] in routes; }
      AscendingDistinct(owners);
      OwnersConservation(routes, owners, Recommendations(routes, suggestions, plan), suggestions, plan);
    }
  }

  lemma NoRoutes(suggestions: seq<Suggestion>, plan: seq<Suggestion>)
    ensures var all := Recommendations([], suggestions, plan);
            && |all| <= 1 && Concat(Map(RecommendationChecks, all)) == [] && Sum(Map(TotalRoutesOf, all)) == 0
            && forall i :: 0 <= i < |all| ==> Sum(Map(RouteCountOf, all[i].actions)) == all[i].totalRoutes
  {
    var all := Recommendations([], suggestions, plan);
    assert |SortedSet(Owners([]))| == 0;
    if all != [] {
      assert all == [Recommendation("unassigned", 0, [], suggestions, plan)];
      assert Map(RecommendationChecks, all) == [[]];
      assert Map(TotalRoutesOf, all) == [0];
    }
  }

  /** Critical before everything else, then high, medium, low, and warnings last. */
  predicate MoreUrgent(a: Severity, b: Severity) {
    match a
    case Critical => b == High || b == Medium || b == Low || b == Warn
    case High => b == Medium || b == Low || b == Warn
    case Medium => b == Low || b == Warn
    case Low => b == Warn
    case Warn => false
  }

  lemma PriorityMeans(a: Severity, b: Severity)
    ensures Priority(a) < Priority(b) <==> MoreUrgent(a, b)
  {
  }

  /** Owners come out in strict name order and each owner's actions in order of urgency, none of them empty. */
  lemma RecommendationsOrdered(routes: seq<Route>, suggestions: seq<Suggestion>, plan: seq<Suggestion>)
    ensures var all := Recommendations(routes, suggestions, plan);
            && (forall i, j :: 0 <= i < j < |all| ==>
                  StrLeq(all[i].owner, all[j].owner) && all[i].owner != all[j].owner)
            && (forall n :: 0 <= n < |all| ==>
                  forall i, j :: 0 <= i < j < |all[n].actions| ==>
                    MoreUrgent(all[n].actions[i].severity, all[n].actions[j].severity))
            && (forall n :: 0 <= n < |all| ==>
                  forall i :: 0 <= i < |all[n].actions| ==> all[n].actions[i].routeCount > 0)
  {
    hide Bucket, Priority, MoreUrgent;
    var owners, all := SortedSet(Owners(routes)), Recommendations(routes, suggestions, plan);
    if owners != [] {
      forall n | 0 <= n < |all|
        ensures forall i, j :: 0 <= i < j < |all[n].actions| ==>
                  MoreUrgent(all[n].actions[i].severity, all[n].actions[j].severity)
        ensures forall i :: 0 <= i < |all[n].actions| ==> all[n].actions[i].routeCount > 0
      {
        var severities := SeveritiesOf(routes, owners[n]);
        SeveritiesCover(routes, owners[n]);
        forall i, j | 0 <= i < j < |severities| ensures MoreUrgent(severities[i], severities[j]) {
          PriorityMeans(severities[i], severities[j]);
        }
        forall i | 0 <= i < |severities| ensures all[n].actions[i].routeCount > 0 {
          SortMultiset(Bucket(routes, owners[n], severities[i]), RowKey);
          assert severities[i] in severities;
        }
      }
    }
  }
}
