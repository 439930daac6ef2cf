/** The overlap report: every inventory workflow is classified, and shared proof commands are grouped. */
module OverlapReport {
  import opened Ordering
  import opened Text
  import opened Outcomes
  import opened ConsolidationPlan
  import WorkflowContracts
  import WorkflowRatchet

  /** One job; actions are its distinct `uses` texts, artifacts the names of its artifact steps. */
  datatype Job = Job(statusName: string, actions: set<string>, artifacts: seq<string>)

  /** A parsed workflow; proofs are the detected proof commands, jobs are sorted by their id. */
  datatype Workflow = Workflow(displayName: string, triggers: seq<string>, proofs: set<string>, jobs: seq<Job>)

  /** What the report finds at an inventory path. */
  datatype FileState = Missing | Unparsable | Parsed(workflow: Workflow)

  datatype Finding =
    | WorkflowMissing(path: string)
    | ParseFailed(path: string)
    | Unclassified(workflow: string)
    | ContextUnmapped(context: string)

  /** The part after the last slash. */
  function LastPart(path: string): (part: string)
    ensures |part| <= |path| && part == path[|path| - |part|..]
  {
    if path == [] || path[|path| - 1] == '/' then [] else LastPart(path[..|path| - 1]) + [path[|path| - 1]]
  }

  /** `Path(relative).name`: trailing slashes and single dots are no parts. */
  function BaseName(path: string): string
    decreases |path|
  {
    var part := LastPart(path);
    if path == [] then []
    else if part == [] || part == "." then BaseName(path[..|path| - 1])
    else part
  }

  // ---------------------------------------------------------------- the second classifier

  predicate InBundle(bundles: seq<Bundle>, w: string) {
    exists i :: 0 <= i < |bundles| && w in BundleStrings(bundles[i])
  }

  /** What the map holds once the first n dispositions have been processed. */
  ghost predicate Holds(out: map<string, Disposition>, plan: Plan, n: nat)
    requires n <= |DISPOSITIONS|
  {
    forall w :: (w in out <==> LastGroup(plan, n, w).Some?) && (w in out ==> out[w] == LastGroup(plan, n, w).value)
  }

  lemma HoldsStep(before: map<string, Disposition>, out: map<string, Disposition>, plan: Plan, n: nat)
    requires n < |DISPOSITIONS| && Holds(before, plan, n)
    requires forall w :: w in out <==> w in before || w in Group(plan, DISPOSITIONS[n])
    requires forall w :: w in out ==> out[w] == if w in Group(plan, DISPOSITIONS[n]) then DISPOSITIONS[n] else before[w]
    ensures Holds(out, plan, n + 1)
  {
    hide Group;
  }

  method Overwrite(before: map<string, Disposition>, names: seq<string>, d: Disposition)
    returns (out: map<string, Disposition>)
    ensures forall w :: w in out <==> w in before || w in names
    ensures forall w :: w in out ==> out[w] == if w in names then d else before[w]
  {
    out := before;
    for i := 0 to |names|
      invariant forall w :: w in out <==> w in before || w in names[..i]
      invariant forall w :: w in out ==> out[w] == if w in names[..i] then d else before[w]
    {
      out := out[names[i] := d];
      assert forall w :: w in names[..i + 1] <==> w in names[..i] || w == names[i];
    }
    assert names[..|names|] == names;
  }

  /** `_classification_map`: bundles are visited in the order of the JSON object, not sorted by name. */
  method ClassificationMap(plan: Plan) returns (out: map<string, Disposition>)
    ensures forall w :: w in out <==> DispositionOf(plan, w).Some?
    ensures forall w :: w in out ==> out[w] == DispositionOf(plan, w).value
  {
    hide Strings, Holds, InBundle, LastGroup, DispositionOf;
    var none: map<string, Disposition> := map[];
    NothingHeld(plan);
    out := Overwrite(none, Strings(plan.keepPrimary), Primary);
    HoldsStep(none, out, plan, 0);
    ghost var before := out;
    for b := 0 to |plan.mergeBundles|
      invariant forall w :: w in out <==> w in before || InBundle(plan.mergeBundles[..b], w)
      invariant forall w :: w in out ==>
                  out[w] == if InBundle(plan.mergeBundles[..b], w) then MergeBundle else before[w]
    {
      out := Overwrite(out, Strings(plan.mergeBundles[b].workflows), MergeBundle);
      BundleStep(plan.mergeBundles, b);
    }
    BundleOrder(plan);
    HoldsStep(before, out, plan, 1);
    before := out;
    out := Overwrite(out, Strings(plan.retireOrAbsorb), RetirementCandidate);
    HoldsStep(before, out, plan, 2);
    before := out;
    out := Overwrite(out, Strings(plan.standalone), StandaloneSupporting);
    HoldsStep(before, out, plan, 3);
    AllHeld(out, plan);
  }

  lemma NothingHeld(plan: Plan)
    ensures Holds(map[], plan, 0)
    ensures forall w :: !InBundle(plan.mergeBundles[..0], w)
  {
  }

  lemma AllHeld(out: map<string, Disposition>, plan: Plan)
    requires Holds(out, plan, |DISPOSITIONS|)
    ensures forall w :: w in out <==> DispositionOf(plan, w).Some?
    ensures forall w :: w in out ==> out[w] == DispositionOf(plan, w).value
  {
    hide LastGroup;
  }

  lemma BundleStep(bundles: seq<Bundle>, b: nat)
    requires b < |bundles|
    ensures forall w :: InBundle(bundles[..b + 1], w) <==>
                        InBundle(bundles[..b], w) || w in Strings(bundles[b].workflows)
  {
    forall w
      ensures InBundle(bundles[..b + 1], w) <==> InBundle(bundles[..b], w) || w in Strings(bundles[b].workflows)
    {
      assert bundles[..b + 1][b] == bundles[b];
      if InBundle(bundles[..b], w) {
        var i :| 0 <= i < b && w in BundleStrings(bundles[..b][i]);
        assert bundles[..b + 1][i] == bundles[..b][i];
      }
      if InBundle(bundles[..b + 1], w) {
        var i :| 0 <= i < b + 1 && w in BundleStrings(bundles[..b + 1][i]);
        if i < b { assert bundles[..b][i] == bundles[..b + 1][i]; }
      }
    }
  }

  /** Sorting the bundles by name, as the plan report does, does not change which workflows they name. */
  lemma BundleOrder(plan: Plan)
    ensures forall w :: w in Group(plan, MergeBundle) <==> InBundle(plan.mergeBundles, w)
    ensures plan.mergeBundles[..|plan.mergeBundles|] == plan.mergeBundles
  {
    hide Strings;
    var sorted := Sort(plan.mergeBundles, BundleKey);
    SortMultiset(plan.mergeBundles, BundleKey);
    forall w ensures w in Group(plan, MergeBundle) <==> InBundle(plan.mergeBundles, w) {
      ConcatMember(Map(BundleStrings, sorted), w);
      if w in Group(plan, MergeBundle) {
        var i :| 0 <= i < |sorted| && w in Map(BundleStrings, sorted)[i];
        assert sorted[i] in multiset(plan.mergeBundles);
      }
      if InBundle(plan.mergeBundles, w) {
        var i :| 0 <= i < |plan.mergeBundles| && w in BundleStrings(plan.mergeBundles[i]);
        assert plan.mergeBundles[i] in multiset(sorted);
        var j :| 0 <= j < |sorted| && sorted[j] == plan.mergeBundles[i];
        assert w in Map(BundleStrings, sorted)[j];
      }
    }
  }

  // ---------------------------------------------------------------- the report loop

  function FindingsAt(plan: Plan, files: map<string, FileState>, path: string): seq<Finding> {
    if path !in files || files[path].Missing? then [WorkflowMissing(path)]
    else if files[path].Unparsable? then [ParseFailed(path)]
    else if DispositionOf(plan, BaseName(path)).None? then [Unclassified(BaseName(path))]
    else []
  }

  function Findings(plan: Plan, files: map<string, FileState>, inventory: seq<string>): seq<Finding> {
    if inventory == [] then []
    else Findings(plan, files, inventory[..|inventory| - 1]) + FindingsAt(plan, files, inventory[|inventory| - 1])
  }

  function IsParsedIn(files: map<string, FileState>): string -> bool { path => path in files && files[path].Parsed? }

  // ---------------------------------------------------------------- the indexes

  /** `action.split("@", 1)[0]` */
  function ActionRoot(action: string): string {
    if action == [] || action[0] == '@' then [] else [action[0]] + ActionRoot(action[1..])
  }

  function JobActions(job: Job): seq<string> { Map(ActionRoot, SortedSet(job.actions)) }

  function JobArtifacts(job: Job): seq<string> { job.artifacts }

  /** The keys under which a workflow is listed, one function for each index. */
  function TriggerKeys(w: Workflow): seq<seq<string>> { [w.triggers] }

  function ProofKeys(w: Workflow): seq<string> { SortedSet(w.proofs) }

  function ActionKeys(w: Workflow): seq<string> { Concat(Map(JobActions, w.jobs)) }

  function ArtifactKeys(w: Workflow): seq<string> { Concat(Map(JobArtifacts, w.jobs)) }

  function NameKeys(fold: string -> string): Workflow -> seq<string> {
    (w: Workflow) => [fold(w.displayName)]
  }

  function StatusKeys(fold: string -> string): Workflow -> seq<string> {
    (w: Workflow) => SortedSet(set job: Job | job in w.jobs :: fold(job.statusName))
  }

  /** name once for every occurrence of k. */
  function Repeats<K(==)>(keys: seq<K>, k: K, name: string): seq<string> {
    if keys == [] then []
    else Repeats(keys[..|keys| - 1], k, name) + if keys[|keys| - 1] == k then [name] else []
  }

  /** The workflows listed under k after a scan, in inventory order and with repetition. */
  function Sightings<K(==)>(
    files: map<string, FileState>, inventory: seq<string>, keys: Workflow -> seq<K>, k: K): seq<string>
  {
    if inventory == [] then []
    else
      var path := inventory[|inventory| - 1];
      Sightings(files, inventory[..|inventory| - 1], keys, k) +
      if path in files && files[path].Parsed? then Repeats(keys(files[path].workflow), k, BaseName(path)) else []
  }

  /** `index.get(k, [])` */
  function Lookup<K>(index: map<K, seq<string>>, k: K): seq<string> { if k in index then index[k] else [] }

  ghost predicate Indexed<K(!new)>(
    index: map<K, seq<string>>, files: map<string, FileState>, inventory: seq<string>, keys: Workflow -> seq<K>)
  {
    && (forall k :: k in index ==> index[k] != [])
    && (forall k :: Lookup(index, k) == Sightings(files, inventory, keys, k))
  }

  /** `index[key].append(name)` on a dictionary that starts missing entries as empty lists. */
  function Append<K>(index: map<K, seq<string>>, key: K, name: string): map<K, seq<string>> {
    index[key := Lookup(index, key) + [name]]
  }

  lemma AppendStep<K>(
    index: map<K, seq<string>>, out: map<K, seq<string>>, keys: seq<K>, i: nat, name: string, k: K)
    requires i < |keys| && Lookup(out, k) == Lookup(index, k) + Repeats(keys[..i], k, name)
    ensures Lookup(Append(out, keys[i], name), k) == Lookup(index, k) + Repeats(keys[..i + 1], k, name)
  {
    Prefix(keys, i);
  }

  method AppendName<K(==, !new)>(index: map<K, seq<string>>, keys: seq<K>, name: string)
    returns (out: map<K, seq<string>>)
    requires forall k :: k in index ==> index[k] != []
    ensures forall k :: k in out ==> out[k] != []
    ensures forall k :: Lookup(out, k) == Lookup(index, k) + Repeats(keys, k, name)
  {
    out := index;
    assert forall k :: Lookup(index, k) + Repeats([], k, name) == Lookup(index, k);
    for i := 0 to |keys|
      invariant forall k :: k in out ==> out[k] != []
      invariant forall k :: Lookup(out, k) == Lookup(index, k) + Repeats(keys[..i], k, name)
    {
      hide Lookup, Repeats;
      forall k { AppendStep(index, out, keys, i, name, k); }
      out := Append(out, keys[i], name);
    }
    assert keys[..|keys|] == keys;
  }

  lemma SightingsStep<K(!new)>(
    index: map<K, seq<string>>, next: map<K, seq<string>>, files: map<string, FileState>, inventory: seq<string>,
    i: nat, keys: Workflow -> seq<K>)
    requires i < |inventory| && Indexed(index, files, inventory[..i], keys)
    requires forall k :: k in next ==> next[k] != []
    requires var path := inventory[i];
             if path in files && files[path].Parsed?
             then forall k ::
               Lookup(next, k) == Lookup(index, k) + Repeats(keys(files[path].workflow), k, BaseName(path))
             else next == index
    ensures Indexed(next, files, inventory[..i + 1], keys)
  {
    hide BaseName, Lookup, Repeats;
    Prefix(inventory, i);
    forall k ensures Lookup(next, k) == Sightings(files, inventory[..i + 1], keys, k) {
      assert Sightings(files, inventory[..i], keys, k) + [] == Sightings(files, inventory[..i], keys, k);
    }
  }

  lemma NothingIndexed<K(!new)>(files: map<string, FileState>, keys: Workflow -> seq<K>)
    ensures Indexed(map[], files, [], keys)
  {
  }

  datatype Indexes = Indexes(
    triggers: map<seq<string>, seq<string>>, names: map<string, seq<string>>, proofs: map<string, seq<string>>,
    actions: map<string, seq<string>>, artifacts: map<string, seq<string>>)

  ghost predicate AllIndexed(
    x: Indexes, files: map<string, FileState>, inventory: seq<string>, fold: string -> string)
  {
    && Indexed(x.triggers, files, inventory, TriggerKeys) && Indexed(x.names, files, inventory, NameKeys(fold))
    && Indexed(x.proofs, files, inventory, ProofKeys) && Indexed(x.actions, files, inventory, ActionKeys)
    && Indexed(x.artifacts, files, inventory, ArtifactKeys)
  }

  lemma SkipAll(x: Indexes, files: map<string, FileState>, inventory: seq<string>, i: nat, fold: string -> string)
    requires i < |inventory| && !IsParsedIn(files)(inventory[i]) && AllIndexed(x, files, inventory[..i], fold)
    ensures AllIndexed(x, files, inventory[..i + 1], fold)
  {
    hide Sightings, Lookup, TriggerKeys, ProofKeys, ActionKeys, ArtifactKeys, NameKeys;
    SightingsStep(x.triggers, x.triggers, files, inventory, i, TriggerKeys);
    SightingsStep(x.names, x.names, files, inventory, i, NameKeys(fold));
    SightingsStep(x.proofs, x.proofs, files, inventory, i, ProofKeys);
    SightingsStep(x.actions, x.actions, files, inventory, i, ActionKeys);
    SightingsStep(x.artifacts, x.artifacts, files, inventory, i, ArtifactKeys);
  }

  /** The appends of one turn of the loop. */
  method IndexWorkflow(
    x: Indexes, ghost files: map<string, FileState>, ghost inventory: seq<string>, ghost i: nat,
    w: Workflow, name: string, fold: string -> string)
    returns (next: Indexes)
    requires i < |inventory| && inventory[i] in files && files[inventory[i]] == Parsed(w)
    requires name == BaseName(inventory[i])
    requires AllIndexed(x, files, inventory[..i], fold)
    ensures AllIndexed(next, files, inventory[..i + 1], fold)
  {
    hide BaseName, Sightings, Lookup, Repeats, TriggerKeys, ProofKeys, ActionKeys, ArtifactKeys, NameKeys;
    var triggers := AppendName(x.triggers, TriggerKeys(w), name);
    SightingsStep(x.triggers, triggers, files, inventory, i, TriggerKeys);
    var names := AppendName(x.names, NameKeys(fold)(w), name);
    SightingsStep(x.names, names, files, inventory, i, NameKeys(fold));
    var proofs := AppendName(x.proofs, ProofKeys(w), name);
    SightingsStep(x.proofs, proofs, files, inventory, i, ProofKeys);
    var actions := AppendName(x.actions, ActionKeys(w), name);
    SightingsStep(x.actions, actions, files, inventory, i, ActionKeys);
    var artifacts := AppendName(x.artifacts, ArtifactKeys(w), name);
    SightingsStep(x.artifacts, artifacts, files, inventory, i, ArtifactKeys);
    next := Indexes(triggers, names, proofs, actions, artifacts);
  }

  method ScanInventory(plan: Plan, files: map<string, FileState>, inventory: seq<string>, fold: string -> string)
    returns (findings: seq<Finding>, indexes: Indexes, count: nat)
    ensures findings == Findings(plan, files, inventory)
    ensures AllIndexed(indexes, files, inventory, fold)
    ensures count == |Filter(IsParsedIn(files), inventory)|
  {
    hide BaseName, DispositionOf, AllIndexed, Findings, Filter;
    var classifications := ClassificationMap(plan);
    findings, count := [], 0;
    indexes := Indexes(map[], map[], map[], map[], map[]);
    NothingScanned(plan, files, fold);
    for i := 0 to |inventory|
      invariant findings == Findings(plan, files, inventory[..i])
      invariant AllIndexed(indexes, files, inventory[..i], fold)
      invariant count == |Filter(IsParsedIn(files), inventory[..i])|
    {
      FindingsStep(plan, files, inventory, i);
      FilterStep(IsParsedIn(files), inventory, i);
      var path := inventory[i];
      var name := BaseName(path);
      if path !in files || files[path].Missing? {
        findings := findings + [WorkflowMissing(path)];
        SkipAll(indexes, files, inventory, i, fold);
        continue;
      }
      if files[path].Unparsable? {
        findings := findings + [ParseFailed(path)];
        SkipAll(indexes, files, inventory, i, fold);
        continue;
      }
      if name !in classifications { findings := findings + [Unclassified(name)]; }
      count := count + 1;
      indexes := IndexWorkflow(indexes, files, inventory, i, files[path].workflow, name, fold);
    }
    assert inventory[..|inventory|] == inventory;
  }

  lemma NothingScanned(plan: Plan, files: map<string, FileState>, fold: string -> string)
    ensures Findings(plan, files, []) == [] && Filter(IsParsedIn(files), []) == []
    ensures AllIndexed(Indexes(map[], map[], map[], map[], map[]), files, [], fold)
  {
    NothingIndexed(files, TriggerKeys);
    NothingIndexed(files, NameKeys(fold));
    NothingIndexed(files, ProofKeys);
    NothingIndexed(files, ActionKeys);
    NothingIndexed(files, ArtifactKeys);
  }

  lemma FindingsStep(plan: Plan, files: map<string, FileState>, inventory: seq<string>, i: nat)
    requires i < |inventory|
    ensures Findings(plan, files, inventory[..i + 1]) ==
            Findings(plan, files, inventory[..i]) + FindingsAt(plan, files, inventory[i])
  {
    Prefix(inventory, i);
  }

  // ---------------------------------------------------------------- who carries a key

  predicate Carries<K(==)>(files: map<string, FileState>, path: string, keys: Workflow -> seq<K>, k: K) {
    path in files && files[path].Parsed? && k in keys(files[path].workflow)
  }

  lemma {:induction false} RepeatsMember<K>(keys: seq<K>, k: K, name: string, n: string)
    ensures n in Repeats(keys, k, name) <==> n == name && k in keys
  {
    if keys != [] { RepeatsMember(keys[..|keys| - 1], k, name, n); }
  }

  /** A name is listed under k exactly when a parsed inventory workflow of that name has the key. */
  lemma {:induction false} SightingsMember<K>(
    files: map<string, FileState>, inventory: seq<string>, keys: Workflow -> seq<K>, k: K, n: string)
    ensures n in Sightings(files, inventory, keys, k) <==>
              exists i :: 0 <= i < |inventory| && Carries(files, inventory[i], keys, k) && BaseName(inventory[i]) == n
  {
    hide BaseName, Repeats;
    if inventory != [] {
      var front, path := inventory[..|inventory| - 1], inventory[|inventory| - 1];
      SightingsMember(files, front, keys, k, n);
      if path in files && files[path].Parsed? { RepeatsMember(keys(files[path].workflow), k, BaseName(path), n); }
      assert forall i :: 0 <= i < |front| ==> front[i] == inventory[i];
    }
  }

  // ---------------------------------------------------------------- overlap groups

  datatype Overlap<K> = Overlap(key: K, workflows: seq<string>)

  function OverlapKey<K>(show: K -> string): Overlap<K> -> Key {
    (g: Overlap<K>) => Key([-|g.workflows|], [show(g.key)])
  }

  ghost predicate GroupFor<K>(g: Overlap<K>, index: map<K, seq<string>>) {
    |Elements(Lookup(index, g.key))| >= 2 && g.workflows == SortedSet(Elements(Lookup(index, g.key)))
  }

  /** One group for every key that at least two distinct workflows share, largest groups first. */
  method OverlapGroups<K(==, !new)>(index: map<K, seq<string>>, show: K -> string) returns (groups: seq<Overlap<K>>)
    ensures forall g :: g in groups <==> GroupFor(g, index)
    ensures IsSorted(groups, OverlapKey(show))
    ensures Distinct(groups)
  {
    hide Ascending, IsSorted, Sort, OverlapKey, SortedSet;
    var found: seq<Overlap<K>> := [];
    var remaining := index.Keys;
    while remaining != {}
      invariant remaining <= index.Keys
      invariant forall g :: g in found <==> g.key in index && g.key !in remaining && GroupFor(g, index)
      invariant Distinct(found)
      decreases |remaining|
    {
      var k :| k in remaining;
      remaining := remaining - {k};
      var workflows := SortedSet(Elements(index[k]));
      if |workflows| >= 2 { found := found + [Overlap(k, workflows)]; }
    }
    groups := Sort(found, OverlapKey(show));
    SortSorted(found, OverlapKey(show));
    SortMultiset(found, OverlapKey(show));
    SameMembers(found, groups);
  }

  // ---------------------------------------------------------------- required contexts

  /** The workflows whose display name is the context, or else those with a job of that name. */
  function MatchesFor(
    files: map<string, FileState>, inventory: seq<string>, fold: string -> string, context: string): seq<string>
  {
    var named := SortTexts(Sightings(files, inventory, NameKeys(fold), fold(context)));
    if named != [] then named else SortTexts(Sightings(files, inventory, StatusKeys(fold), fold(context)))
  }

  function NoMatch(files: map<string, FileState>, inventory: seq<string>, fold: string -> string): string -> bool {
    context => MatchesFor(files, inventory, fold, context) == []
  }

  function Unmapped(context: string): Finding { ContextUnmapped(context) }

  method MapContexts(
    names: map<string, seq<string>>, files: map<string, FileState>, inventory: seq<string>, fold: string -> string,
    contexts: seq<string>)
    returns (mapping: map<string, seq<string>>, findings: seq<Finding>)
    requires Indexed(names, files, inventory, NameKeys(fold))
    ensures mapping.Keys == Elements(contexts)
    ensures forall c :: c in mapping ==> mapping[c] == MatchesFor(files, inventory, fold, c)
    ensures findings == Map(Unmapped, Filter(NoMatch(files, inventory, fold), contexts))
  {
    hide Sightings, SortTexts, Filter;
    mapping, findings := map[], [];
    NoContexts(files, inventory, fold);
    for i := 0 to |contexts|
      invariant mapping.Keys == Elements(contexts[..i])
      invariant forall c :: c in mapping ==> mapping[c] == MatchesFor(files, inventory, fold, c)
      invariant findings == Map(Unmapped, Filter(NoMatch(files, inventory, fold), contexts[..i]))
    {
      FilterStep(NoMatch(files, inventory, fold), contexts, i);
      var context := contexts[i];
      var matches := SortTexts(Lookup(names, fold(context)));
      if matches == [] { matches := SortTexts(Sightings(files, inventory, StatusKeys(fold), fold(context))); }
      mapping := mapping[context := matches];
      if matches == [] { findings := findings + [ContextUnmapped(context)]; }
      assert Elements(contexts[..i + 1]) == Elements(contexts[..i]) + {context};
    }
    assert contexts[..|contexts|] == contexts;
  }

  lemma NoContexts(files: map<string, FileState>, inventory: seq<string>, fold: string -> string)
    ensures Map(Unmapped, Filter(NoMatch(files, inventory, fold), [])) == []
  {
  }

  lemma SortTextsEmpty(s: seq<string>)
    ensures SortTexts(s) == [] <==> s == []
  {
    SortMultiset(s, TextKey);
    SameLength(SortTexts(s), s);
  }

  /** A context has a match exactly when some parsed workflow is called so or has a job that is called so. */
  lemma MatchesIff(files: map<string, FileState>, inventory: seq<string>, fold: string -> string, context: string)
    ensures MatchesFor(files, inventory, fold, context) != [] <==>
              exists i :: 0 <= i < |inventory| && inventory[i] in files && files[inventory[i]].Parsed? &&
                          CalledSo(files[inventory[i]].workflow, fold, context)
  {
    hide Sightings, SortTexts, BaseName;
    var named := Sightings(files, inventory, NameKeys(fold), fold(context));
    var statuses := Sightings(files, inventory, StatusKeys(fold), fold(context));
    SortTextsEmpty(named);
    SortTextsEmpty(statuses);
    if named != [] {
      SightingsMember(files, inventory, NameKeys(fold), fold(context), named[0]);
      var i :| 0 <= i < |inventory| && Carries(files, inventory[i], NameKeys(fold), fold(context));
      CalledKeys(files[inventory[i]].workflow, fold, context);
    } else if statuses != [] {
      SightingsMember(files, inventory, StatusKeys(fold), fold(context), statuses[0]);
      var i :| 0 <= i < |inventory| && Carries(files, inventory[i], StatusKeys(fold), fold(context));
      CalledKeys(files[inventory[i]].workflow, fold, context);
    }
    if i :| 0 <= i < |inventory| && inventory[i] in files && files[inventory[i]].Parsed?
            && CalledSo(files[inventory[i]].workflow, fold, context) {
      CalledKeys(files[inventory[i]].workflow, fold, context);
      SightingsMember(files, inventory, NameKeys(fold), fold(context), BaseName(inventory[i]));
      SightingsMember(files, inventory, StatusKeys(fold), fold(context), BaseName(inventory[i]));
    }
  }

  predicate CalledSo(w: Workflow, fold: string -> string, context: string) {
    fold(w.displayName) == fold(context) || exists job :: job in w.jobs && fold(job.statusName) == fold(context)
  }

  lemma CalledKeys(w: Workflow, fold: string -> string, context: string)
    ensures CalledSo(w, fold, context) <==> fold(context) in NameKeys(fold)(w) || fold(context) in StatusKeys(fold)(w)
  {
    var names := set job | job in w.jobs :: fold(job.statusName);
    assert fold(context) in SortedSet(names) <==> fold(context) in Elements(SortedSet(names));
  }

  // ---------------------------------------------------------------- the report

  datatype Overview = Overview(
    workflowCount: nat, findings: seq<Finding>, mapping: map<string, seq<string>>, triggers: seq<Overlap<seq<string>>>,
    proofs: seq<Overlap<string>>, actions: seq<Overlap<string>>, artifacts: seq<Overlap<string>>,
    duplicated: set<string>)

  function Same(text: string): string { text }

  function Members(groups: seq<Overlap<string>>): set<string> { set g, w | g in groups && w in g.workflows :: w }

  /** The distinct workflows that share a key of an index. */
  function Sharers<K(==)>(
    files: map<string, FileState>, inventory: seq<string>, keys: Workflow -> seq<K>, k: K): set<string>
  {
    Elements(Sightings(files, inventory, keys, k))
  }

  /** The groups are those of an index over the scanned workflows. */
  ghost predicate GroupsOf<K(!new)>(
    groups: seq<Overlap<K>>, files: map<string, FileState>, inventory: seq<string>, keys: Workflow -> seq<K>,
    show: K -> string)
  {
    && (forall g :: g in groups <==>
          && |Sharers(files, inventory, keys, g.key)| >= 2
          && g.workflows == SortedSet(Sharers(files, inventory, keys, g.key)))
    && IsSorted(groups, OverlapKey(show)) && Distinct(groups)
  }

  method GroupIndex<K(==, !new)>(
    index: map<K, seq<string>>, ghost files: map<string, FileState>, ghost inventory: seq<string>,
    ghost keys: Workflow -> seq<K>, show: K -> string)
    returns (groups: seq<Overlap<K>>)
    requires Indexed(index, files, inventory, keys)
    ensures GroupsOf(groups, files, inventory, keys, show)
  {
    hide Sightings, IsSorted, OverlapKey, Distinct, SortedSet, Lookup;
    groups := OverlapGroups(index, show);
  }

  /** `build_report`; fold is `str.casefold` and showTriggers renders a tuple of triggers. */
  method BuildReport(
    plan: Plan, files: map<string, FileState>, inventory: seq<string>, contexts: seq<string>, fold: string -> string,
    showTriggers: seq<string> -> string)
    returns (report: Overview)
    ensures report.workflowCount == |Filter(IsParsedIn(files), inventory)|
    ensures report.findings ==
            Findings(plan, files, inventory) + Map(Unmapped, Filter(NoMatch(files, inventory, fold), contexts))
    ensures report.mapping.Keys == Elements(contexts)
    ensures forall c :: c in report.mapping ==> report.mapping[c] == MatchesFor(files, inventory, fold, c)
    ensures GroupsOf(report.triggers, files, inventory, TriggerKeys, showTriggers)
    ensures GroupsOf(report.proofs, files, inventory, ProofKeys, Same)
    ensures GroupsOf(report.actions, files, inventory, ActionKeys, Same)
    ensures GroupsOf(report.artifacts, files, inventory, ArtifactKeys, Same)
    ensures report.duplicated == Members(report.proofs)
  {
    hide Findings, Filter, Indexed, GroupsOf, MatchesFor, NoMatch, Members, Map, Elements;
    var findings, indexes, count := ScanInventory(plan, files, inventory, fold);
    var mapping, unmapped := MapContexts(indexes.names, files, inventory, fold, contexts);
    var proofs := GroupIndex(indexes.proofs, files, inventory, ProofKeys, Same);
    var triggers := GroupIndex(indexes.triggers, files, inventory, TriggerKeys, showTriggers);
    var actions := GroupIndex(indexes.actions, files, inventory, ActionKeys, Same);
    var artifacts := GroupIndex(indexes.artifacts, files, inventory, ArtifactKeys, Same);
    report := Overview(count, findings + unmapped, mapping, triggers, proofs, actions, artifacts, Members(proofs));
  }

  lemma TwoSharers(names: set<string>, v: string, w: string)
    requires v in names && w in names && v != w
    ensures |names| >= 2
  {
    SubsetSize({v, w}, names);
  }

  lemma OtherSharer(names: set<string>, w: string) returns (v: string)
    requires w in names && |names| >= 2
    ensures v in names && v != w
  {
    assert |names - {w}| >= 1;
    v :| v in names - {w};
  }

  /** Duplicate membership: a workflow is in some group exactly when it shares a key with another workflow. */
  lemma MembersIff(groups: seq<Overlap<string>>, files: map<string, FileState>, inventory: seq<string>, w: string)
    requires GroupsOf(groups, files, inventory, ProofKeys, Same)
    ensures w in Members(groups) <==>
              exists p, v :: v != w && v in Sharers(files, inventory, ProofKeys, p) &&
                             w in Sharers(files, inventory, ProofKeys, p)
  {
    hide Sightings, ProofKeys, IsSorted, Distinct, SortedSet;
    if w in Members(groups) {
      var g :| g in groups && w in g.workflows;
      var names := Sharers(files, inventory, ProofKeys, g.key);
      assert w in Elements(SortedSet(names));
      var v := OtherSharer(names, w);
    }
    if p, v :| v != w && v in Sharers(files, inventory, ProofKeys, p) && w in Sharers(files, inventory, ProofKeys, p) {
      var names := Sharers(files, inventory, ProofKeys, p);
      TwoSharers(names, v, w);
      var g := Overlap(p, SortedSet(names));
      assert g in groups;
      assert w in Elements(g.workflows);
    }
  }

  /** A report is free of findings exactly when every inventory workflow is there, parses and is classified, and every
      required context has a match. */
  lemma ReportPassesIff(
    plan: Plan, files: map<string, FileState>, inventory: seq<string>, contexts: seq<string>, fold: string -> string)
    ensures Findings(plan, files, inventory) +
            Map(Unmapped, Filter(NoMatch(files, inventory, fold), contexts)) == [] <==>
            && (forall i :: 0 <= i < |inventory| ==>
                  IsParsedIn(files)(inventory[i]) && DispositionOf(plan, BaseName(inventory[i])).Some?)
            && (forall i :: 0 <= i < |contexts| ==> MatchesFor(files, inventory, fold, contexts[i]) != [])
  {
    hide DispositionOf, BaseName, MatchesFor;
    FindingsEmpty(plan, files, inventory);
    var unmatched := Filter(NoMatch(files, inventory, fold), contexts);
    if unmatched != [] { FilterMember(NoMatch(files, inventory, fold), contexts, unmatched[0]); }
    forall i | 0 <= i < |contexts| && MatchesFor(files, inventory, fold, contexts[i]) == [] ensures unmatched != [] {
      FilterMember(NoMatch(files, inventory, fold), contexts, contexts[i]);
    }
  }

  lemma {:induction false} FindingsEmpty(plan: Plan, files: map<string, FileState>, inventory: seq<string>)
    ensures Findings(plan, files, inventory) == [] <==>
            forall i :: 0 <= i < |inventory| ==>
              IsParsedIn(files)(inventory[i]) && DispositionOf(plan, BaseName(inventory[i])).Some?
  {
    hide DispositionOf, BaseName;
    if inventory != [] {
      FindingsEmpty(plan, files, inventory[..|inventory| - 1]);
      assert forall i :: 0 <= i < |inventory| - 1 ==> inventory[..|inventory| - 1][i] == inventory[i];
    }
  }

  // ---------------------------------------------------------------- the two scripts agree

  lemma {:induction false} LastPartOfFile(prefix: string, name: string)
    requires '/' !in name && prefix != [] && prefix[|prefix| - 1] == '/'
    ensures LastPart(prefix + name) == name
  {
    if name == [] {
      assert prefix + name == prefix;
    } else {
      assert name == name[..|name| - 1] + [name[|name| - 1]];
      assert (prefix + name)[..|prefix + name| - 1] == prefix + name[..|name| - 1];
      LastPartOfFile(prefix, name[..|name| - 1]);
    }
  }

  lemma {:induction false} NoneUnclassified(plan: Plan, files: map<string, FileState>, inventory: seq<string>)
    requires forall i :: 0 <= i < |inventory| ==> DispositionOf(plan, BaseName(inventory[i])).Some?
    ensures forall f :: f in Findings(plan, files, inventory) ==> !f.Unclassified?
  {
    hide DispositionOf, BaseName;
    if inventory != [] {
      NoneUnclassified(plan, files, inventory[..|inventory| - 1]);
    }
  }

  /** After a passed plan the overlap report leaves no workflow of the inventory unclassified. */
  lemma PassedPlanClassifiesAll(
    root: WorkflowContracts.Repository, anchors: seq<string>, plan: Plan, files: map<string, FileState>)
    requires forall name :: name in root.Keys ==> '/' !in name
    requires Passes(WorkflowContracts.BuildTopologyContract(root, anchors), plan)
    ensures forall f :: f in Findings(plan, files, Strings(WorkflowContracts.Inventory(root))) ==> !f.Unclassified?
  {
    hide Strings, DispositionOf, OnlyIn, Group, Passes, Assigned, WorkflowContracts.IsWorkflowName, Findings, BaseName;
    hide WorkflowName, WorkflowContracts.Metrics, WorkflowContracts.Inventory, WorkflowContracts.PathOf;
    hide WorkflowContracts.Workflows, WorkflowContracts.WorkflowFiles, WorkflowContracts.BuildTopologyContract, Trimmed;
    var names, inventory := WorkflowContracts.WorkflowFiles(root), WorkflowContracts.Inventory(root);
    PassedPlanPartitions(root, anchors, plan);
    WorkflowRatchet.ScannedFiles(root);
    forall i | 0 <= i < |inventory| ensures DispositionOf(plan, BaseName(inventory[i])).Some? {
      assert |names[i]| > 1 by { NamesAreLong(names[i]); }
      BaseNameOfPath(names[i]);
    }
    ScannedClean(root);
    NoneUnclassified(plan, files, inventory);
  }

  lemma {:induction false} NamedInGroup(plan: Plan, n: nat, w: string)
    requires n <= |DISPOSITIONS|
    ensures LastGroup(plan, n, w).Some? <==> exists i :: 0 <= i < n && w in Group(plan, DISPOSITIONS[i])
  {
    hide Group;
    if n > 0 { NamedInGroup(plan, n - 1, w); }
  }

  lemma ClassifiedIff(plan: Plan, w: string)
    ensures DispositionOf(plan, w).Some? <==> w in Assigned(plan)
  {
    hide Group;
    NamedInGroup(plan, |DISPOSITIONS|, w);
    assert DISPOSITIONS[0] == Primary && DISPOSITIONS[1] == MergeBundle;
    assert DISPOSITIONS[2] == RetirementCandidate && DISPOSITIONS[3] == StandaloneSupporting;
  }

  /** After a passed plan over any topology, a path is classified exactly when its last part is a workflow name of the
      plan's inventory, which keeps the directories below the workflow root. */
  lemma PassedPlanClassifiesIff(topology: Topology, plan: Plan, path: string)
    requires Passes(topology, plan)
    ensures DispositionOf(plan, BaseName(path)).Some? <==> BaseName(path) in Elements(PlanInventory(topology))
  {
    hide Assigned, BaseName, PlanInventory, Strings, Group, DispositionOf, Strip;
    PlanPassesIff(topology, plan);
    ClassifiedIff(plan, BaseName(path));
    assert BaseName(path) in Assigned(plan) <==> BaseName(path) in Elements(Assigned(plan));
  }

  /** A topology written by hand that lists one workflow, by its name below the workflow root, and a plan that keeps
      it. */
  function OneWorkflow(name: string): Topology {
    WorkflowContracts.Topology(None, [WorkflowContracts.PathOf(name)], [name], map[], Some(12))
  }

  function OneWorkflowPlan(name: string): Plan {
    Plan(Some(PLAN_ID), Some(1), Some(12), [name], [], [], [], [], [], [], Some(false), name)
  }

  lemma OneWorkflowPasses(name: string)
    requires name != [] && Trimmed(name)
    ensures Passes(OneWorkflow(name), OneWorkflowPlan(name)) && Assigned(OneWorkflowPlan(name)) == [name]
  {
    var path, topology, plan := WorkflowContracts.PathOf(name), OneWorkflow(name), OneWorkflowPlan(name);
    OneWorkflowTexts(name);
    hide Strings, Strip, WorkflowName, SortTexts, WorkflowContracts.PathOf, Sort, Trimmed;
    assert Map(WorkflowName, [path]) == [name];
    AlreadySorted(name);
    NoBundles(plan);
    assert Group(plan, Primary) == [name] && Group(plan, RetirementCandidate) == [];
    assert Assigned(plan) == [name];
    PlanPassesIff(topology, plan);
  }

  lemma NoBundles(plan: Plan)
    requires plan.mergeBundles == []
    ensures Group(plan, MergeBundle) == []
  {
  }

  lemma OneWorkflowTexts(name: string)
    requires name != [] && Trimmed(name)
    ensures var path := WorkflowContracts.PathOf(name);
            Strings([path]) == [path] && Strings([name]) == [name] && WorkflowName(path) == name
    ensures Strings([]) == [] && Strip(name) == name
  {
    var path := WorkflowContracts.PathOf(name);
    assert path[0] == '.' && path[|path| - 1] == name[|name| - 1];
    StringsFixed([path]);
    StringsFixed([name]);
    StripFixed(name);
  }

  /** A workflow below a subdirectory, such as `x.yml` in `sub`: the plan passes, and the overlap report still finds the
      workflow unclassified. */
  lemma NestedWorkflowUnclassified(dir: string, file: string)
    requires dir != [] && Trimmed(dir) && file !in {"", "."} && Trimmed(file) && '/' !in file
    ensures var name := dir + "/" + file;
            && Passes(OneWorkflow(name), OneWorkflowPlan(name))
            && DispositionOf(OneWorkflowPlan(name), BaseName(WorkflowContracts.PathOf(name))).None?
  {
    hide BaseName, WorkflowContracts.PathOf, Assigned, Passes, DispositionOf, OneWorkflow, OneWorkflowPlan;
    var name := dir + "/" + file;
    OneWorkflowPasses(name);
    NestedBaseName(dir, file);
    ClassifiedIff(OneWorkflowPlan(name), file);
    assert |file| != |name|;
  }

  lemma NestedBaseName(dir: string, file: string)
    requires file !in {"", "."} && '/' !in file
    ensures BaseName(WorkflowContracts.PathOf(dir + "/" + file)) == file
  {
    hide LastPart;
    var prefix := WorkflowContracts.WORKFLOW_ROOT + dir + "/";
    LastPartOfFile(prefix, file);
    assert WorkflowContracts.PathOf(dir + "/" + file) == prefix + file;
  }

  lemma AlreadySorted(name: string)
    ensures SortTexts([name]) == [name]
  {
    SortOfSorted([name], TextKey);
  }

  lemma NamesAreLong(name: string)
    requires WorkflowContracts.IsWorkflowName(name)
    ensures |name| > 1
  {
  }

  lemma BaseNameOfPath(name: string)
    requires '/' !in name && name !in {"", "."}
    ensures BaseName(WorkflowContracts.PathOf(name)) == name
  {
    LastPartOfFile(WorkflowContracts.WORKFLOW_ROOT, name);
  }
}
