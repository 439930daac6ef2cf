/** What the overlap report says of the parsed workflows, their names and their keys. */
module OverlapKeys {
  import opened Outcomes
  import opened Ordering
  import opened Text
  import opened ConsolidationPlan
  import opened OverlapReport
  import opened PlanContent

  // ---------------------------------------------------------------- names of paths

  lemma {:induction false} LastPartAlone(name: string)
    requires '/' !in name
    ensures LastPart(name) == name
  {
    if name != [] {
      assert name == name[..|name| - 1] + [name[|name| - 1]];
      LastPartAlone(name[..|name| - 1]);
    }
  }

  /** The name of a path is what follows its last slash; slashes and single dots at the end do not count. */
  lemma BaseNameMeans(path: string, name: string)
    requires '/' !in name && name != "" && name != "."
    ensures BaseName(name) == name && BaseName(path + "/" + name) == name
    ensures BaseName(path + "/") == BaseName(path) && BaseName(path + "/.") == BaseName(path)
  {
    hide LastPart;
    LastPartAlone(name);
    LastPartOfFile(path + "/", name);
    TrailingSlash(path);
    TrailingDot(path);
  }

  lemma TrailingDot(path: string)
    ensures BaseName(path + "/.") == BaseName(path + "/")
  {
    hide LastPart;
    assert path + "/" + "." == path + "/.";
    LastPartOfFile(path + "/", ".");
    assert (path + "/.")[..|path| + 1] == path + "/";
  }

  lemma TrailingSlash(path: string)
    ensures BaseName(path + "/") == BaseName(path)
  {
    var p := path + "/";
    assert p[|p| - 1] == '/' && p[..|p| - 1] == path;
    assert LastPart(p) == [];
  }

  // ---------------------------------------------------------------- keys

  /** The key of an action is what stands before its first `@`. */
  lemma {:induction false} ActionRootMeans(action: string)
    ensures var root := ActionRoot(action);
            '@' !in root && (action == root || exists version :: action == root + "@" + version)
  {
    if action != [] && action[0] != '@' {
      var rest := ActionRoot(action[1..]);
      ActionRootMeans(action[1..]);
      assert action == [action[0]] + action[1..];
      if version :| action[1..] == rest + "@" + version {
        assert action == ActionRoot(action) + "@" + version;
      }
    } else if action != [] {
      assert action == [] + "@" + action[1..];
    }
  }

  /** Two versions of one action share their key. */
  lemma {:induction false} VersionsShareKey(root: string, version: string)
    requires '@' !in root
    ensures ActionRoot(root) == root && ActionRoot(root + "@" + version) == root
  {
    if root != [] {
      VersionsShareKey(root[1..], version);
      assert (root + "@" + version)[1..] == root[1..] + "@" + version;
    } else {
      assert (root + "@" + version)[0] == '@';
    }
  }

  /** Some job of the workflow uses the action, in whatever version. */
  ghost predicate UsesAction(w: Workflow, root: string) {
    '@' !in root && exists job, action :: job in w.jobs && action in job.actions && IsVersionOf(action, root)
  }

  ghost predicate IsVersionOf(action: string, root: string) {
    action == root || exists version :: action == root + "@" + version
  }

  lemma VersionIff(action: string, root: string)
    ensures ActionRoot(action) == root <==> '@' !in root && IsVersionOf(action, root)
  {
    ActionRootMeans(action);
    if '@' !in root && IsVersionOf(action, root) {
      if action == root {
        VersionsShareKey(root, "");
      } else {
        var version :| action == root + "@" + version;
        VersionsShareKey(root, version);
      }
    }
  }

  lemma JobActionsMember(job: Job, root: string)
    ensures root in JobActions(job) <==> exists action :: action in job.actions && ActionRoot(action) == root
  {
    hide ActionRoot;
    MapMember(ActionRoot, SortedSet(job.actions), root);
    forall action ensures action in SortedSet(job.actions) <==> action in job.actions {
      assert action in SortedSet(job.actions) <==> action in Elements(SortedSet(job.actions));
    }
  }

  /** The keys of a workflow are its trigger list, its proofs, the roots of its actions, its artifacts and its name. */
  lemma KeysMean(w: Workflow, fold: string -> string, k: string, triggers: seq<string>)
    ensures triggers in TriggerKeys(w) <==> triggers == w.triggers
    ensures k in ProofKeys(w) <==> k in w.proofs
    ensures k in ActionKeys(w) <==> UsesAction(w, k)
    ensures k in ArtifactKeys(w) <==> exists job :: job in w.jobs && k in job.artifacts
    ensures k in NameKeys(fold)(w) <==> k == fold(w.displayName)
    ensures k in StatusKeys(fold)(w) <==> exists job :: job in w.jobs && k == fold(job.statusName)
  {
    hide ActionRoot, IsVersionOf, Concat;
    assert k in SortedSet(w.proofs) <==> k in Elements(SortedSet(w.proofs));
    ActionKeysMember(w, k);
    ArtifactKeysMember(w, k);
    var names := set job: Job | job in w.jobs :: fold(job.statusName);
    assert k in SortedSet(names) <==> k in Elements(SortedSet(names));
  }

  lemma ActionKeysMember(w: Workflow, k: string)
    ensures k in ActionKeys(w) <==> UsesAction(w, k)
  {
    hide ActionRoot, IsVersionOf, Concat, JobActions;
    ConcatMember(Map(JobActions, w.jobs), k);
    forall i | 0 <= i < |w.jobs| { JobActionsMember(w.jobs[i], k); }
    forall action { VersionIff(action, k); }
    if UsesAction(w, k) {
      var job, action :| job in w.jobs && action in job.actions && IsVersionOf(action, k);
      var i :| 0 <= i < |w.jobs| && w.jobs[i] == job;
      assert k in Map(JobActions, w.jobs)[i];
    }
  }

  lemma ArtifactKeysMember(w: Workflow, k: string)
    ensures k in ArtifactKeys(w) <==> exists job :: job in w.jobs && k in job.artifacts
  {
    hide Concat;
    ConcatMember(Map(JobArtifacts, w.jobs), k);
    if job :| job in w.jobs && k in job.artifacts {
      var i :| 0 <= i < |w.jobs| && w.jobs[i] == job;
      assert k in Map(JobArtifacts, w.jobs)[i];
    }
  }

  // ---------------------------------------------------------------- who shares a key

  /** w is the workflow that the report parses at position i of the inventory, under the given name. */
  ghost predicate ParsedAt(
    files: map<string, FileState>, inventory: seq<string>, i: int, w: Workflow, name: string)
  {
    0 <= i < |inventory| && inventory[i] in files && files[inventory[i]] == Parsed(w) && name == BaseName(inventory[i])
  }

  lemma SharersMean<K>(
    files: map<string, FileState>, inventory: seq<string>, keys: Workflow -> seq<K>, k: K, name: string)
    ensures name in Sharers(files, inventory, keys, k) <==>
            exists i, w :: ParsedAt(files, inventory, i, w, name) && k in keys(w)
  {
    hide BaseName, Sightings;
    SightingsMember(files, inventory, keys, k, name);
    if name in Sharers(files, inventory, keys, k) {
      var i :| 0 <= i < |inventory| && Carries(files, inventory[i], keys, k) && BaseName(inventory[i]) == name;
      assert ParsedAt(files, inventory, i, files[inventory[i]].workflow, name);
    }
  }

  /** A key has a group exactly when parsed workflows of two different names have it, and the group lists all such names
      in order; larger groups stand first, and equally large ones in the order of their shown keys. */
  lemma GroupsMean<K(!new)>(
    groups: seq<Overlap<K>>, files: map<string, FileState>, inventory: seq<string>, keys: Workflow -> seq<K>,
    show: K -> string, k: K)
    requires GroupsOf(groups, files, inventory, keys, show)
    ensures (exists g :: g in groups && g.key == k) <==>
            exists v, w :: v != w && v in Sharers(files, inventory, keys, k) && w in Sharers(files, inventory, keys, k)
    ensures forall g :: g in groups && g.key == k ==>
              Ascending(g.workflows) && forall w :: w in g.workflows <==> w in Sharers(files, inventory, keys, k)
  {
    hide Sightings, IsSorted, Distinct, Ascending, Sharers;
    var names := Sharers(files, inventory, keys, k);
    if |names| >= 2 {
      assert Overlap(k, SortedSet(names)) in groups;
      var w :| w in names;
      var v := OtherSharer(names, w);
    }
    if v, w :| v != w && v in names && w in names { TwoSharers(names, v, w); }
    forall g | g in groups && g.key == k ensures forall w :: w in g.workflows <==> w in names {
      forall w ensures w in g.workflows <==> w in names { assert w in g.workflows <==> w in Elements(g.workflows); }
    }
  }

  lemma GroupsOrdered<K(!new)>(
    groups: seq<Overlap<K>>, files: map<string, FileState>, inventory: seq<string>, keys: Workflow -> seq<K>,
    show: K -> string, i: nat, j: nat)
    requires GroupsOf(groups, files, inventory, keys, show) && i < j < |groups|
    ensures |groups[i].workflows| >= |groups[j].workflows|
    ensures |groups[i].workflows| == |groups[j].workflows| ==> StrLeq(show(groups[i].key), show(groups[j].key))
    ensures groups[i].key != groups[j].key
  {
    hide Sightings, StrLeq, SortedSet, Sharers;
    assert KeyLeq(OverlapKey(show)(groups[i]), OverlapKey(show)(groups[j]));
    GroupOrder(groups[i], groups[j], show);
    assert groups[i] in groups && groups[j] in groups;
  }

  lemma GroupOrder<K>(a: Overlap<K>, b: Overlap<K>, show: K -> string)
    requires KeyLeq(OverlapKey(show)(a), OverlapKey(show)(b))
    ensures |a.workflows| >= |b.workflows|
    ensures |a.workflows| == |b.workflows| ==> StrLeq(show(a.key), show(b.key))
  {
    hide StrLeq;
    StrTotal(show(a.key), show(a.key));
  }

  // ---------------------------------------------------------------- findings

  /** The finding is true of the inventory, the files, the plan and the contexts. */
  ghost predicate Tells(
    plan: Plan, files: map<string, FileState>, inventory: seq<string>, contexts: seq<string>, fold: string -> string,
    f: Finding)
  {
    match f
    case WorkflowMissing(path) => path in inventory && (path !in files || files[path] == Missing)
    case ParseFailed(path) => path in inventory && path in files && files[path] == Unparsable
    case Unclassified(name) => (exists i, w :: ParsedAt(files, inventory, i, w, name)) && !Named(plan, name)
    case ContextUnmapped(context) =>
      context in contexts &&
      forall i, w, name :: ParsedAt(files, inventory, i, w, name) ==> !CalledSo(w, fold, context)
  }

  lemma {:induction false} FindingsMember(
    plan: Plan, files: map<string, FileState>, inventory: seq<string>, f: Finding)
    ensures f in Findings(plan, files, inventory) <==>
            exists i :: 0 <= i < |inventory| && f in FindingsAt(plan, files, inventory[i])
  {
    hide FindingsAt;
    if inventory != [] {
      var front := inventory[..|inventory| - 1];
      FindingsMember(plan, files, front, f);
      assert forall i :: 0 <= i < |front| ==> front[i] == inventory[i];
    }
  }

  lemma FindingAtMeans(plan: Plan, files: map<string, FileState>, inventory: seq<string>, i: int, f: Finding)
    requires 0 <= i < |inventory|
    ensures f in FindingsAt(plan, files, inventory[i]) <==>
            match f
            case WorkflowMissing(path) => path == inventory[i] && (path !in files || files[path] == Missing)
            case ParseFailed(path) => path == inventory[i] && path in files && files[path] == Unparsable
            case Unclassified(name) => (exists w :: ParsedAt(files, inventory, i, w, name)) && !Named(plan, name)
            case ContextUnmapped(_) => false
  {
    hide BaseName, DispositionOf, Named;
    ClassificationMeans(plan, BaseName(inventory[i]), Primary);
    if inventory[i] in files && files[inventory[i]].Parsed? {
      assert ParsedAt(files, inventory, i, files[inventory[i]].workflow, BaseName(inventory[i]));
    }
  }

  /** The findings of the report are exactly those that are true. */
  lemma FindingMeans(
    plan: Plan, files: map<string, FileState>, inventory: seq<string>, contexts: seq<string>, fold: string -> string,
    f: Finding)
    ensures f in Findings(plan, files, inventory) +
                 Map(Unmapped, Filter(NoMatch(files, inventory, fold), contexts)) <==>
            Tells(plan, files, inventory, contexts, fold, f)
  {
    hide BaseName, Named, Findings, FindingsAt, MatchesFor, CalledSo, Filter;
    FindingsMember(plan, files, inventory, f);
    forall i | 0 <= i < |inventory| { FindingAtMeans(plan, files, inventory, i, f); }
    var unmatched := Filter(NoMatch(files, inventory, fold), contexts);
    MapMember(Unmapped, unmatched, f);
    if f.ContextUnmapped? {
      FilterMember(NoMatch(files, inventory, fold), contexts, f.context);
      MatchesIff(files, inventory, fold, f.context);
      CalledParsed(files, inventory, fold, f.context);
    }
  }

  lemma CalledParsed(files: map<string, FileState>, inventory: seq<string>, fold: string -> string, context: string)
    ensures (exists i :: 0 <= i < |inventory| && inventory[i] in files && files[inventory[i]].Parsed? &&
               CalledSo(files[inventory[i]].workflow, fold, context)) <==>
            exists i, w, name :: ParsedAt(files, inventory, i, w, name) && CalledSo(w, fold, context)
  {
    hide BaseName, CalledSo;
    if i :|
      0 <= i < |inventory| && IsParsedIn(files)(inventory[i]) && CalledSo(files[inventory[i]].workflow, fold, context)
    {
      assert ParsedAt(files, inventory, i, files[inventory[i]].workflow, BaseName(inventory[i]));
    }
  }

  /** The workflow count is the number of inventory positions that parse. */
  lemma CountMeans(files: map<string, FileState>, inventory: seq<string>)
    ensures |Filter(IsParsedIn(files), inventory)| ==
            |set i: nat | i < |inventory| && inventory[i] in files && files[inventory[i]].Parsed?|
  {
    FilterIndices(IsParsedIn(files), inventory);
    assert Passing(IsParsedIn(files), inventory) ==
           set i: nat | i < |inventory| && inventory[i] in files && files[inventory[i]].Parsed?;
  }

  // ---------------------------------------------------------------- required contexts

  /** Some parsed workflow has the context as its display name. */
  ghost predicate HasDisplayName(
    files: map<string, FileState>, inventory: seq<string>, fold: string -> string, context: string, name: string)
  {
    exists i, w :: ParsedAt(files, inventory, i, w, name) && fold(w.displayName) == fold(context)
  }

  ghost predicate HasJobName(
    files: map<string, FileState>, inventory: seq<string>, fold: string -> string, context: string, name: string)
  {
    exists i, w, job :: ParsedAt(files, inventory, i, w, name) && job in w.jobs && fold(job.statusName) == fold(context)
  }

  /** A context is mapped to the workflows of that display name; job names are looked at only when there is none. */
  lemma MatchesMean(
    files: map<string, FileState>, inventory: seq<string>, fold: string -> string, context: string, name: string)
    ensures name in MatchesFor(files, inventory, fold, context) <==>
            if exists n :: HasDisplayName(files, inventory, fold, context, n)
            then HasDisplayName(files, inventory, fold, context, name)
            else HasJobName(files, inventory, fold, context, name)
  {
    hide BaseName, Sightings, SortTexts, NameKeys, StatusKeys;
    var named := Sightings(files, inventory, NameKeys(fold), fold(context));
    var statuses := Sightings(files, inventory, StatusKeys(fold), fold(context));
    SortTextsEmpty(named);
    SortedMember(named, name);
    SortedMember(statuses, name);
    forall n ensures n in named <==> HasDisplayName(files, inventory, fold, context, n) {
      NamedMeans(files, inventory, fold, context, n);
    }
    NamedMeans(files, inventory, fold, context, name);
    if named != [] { assert named[0] in named; }
  }

  lemma NamedMeans(
    files: map<string, FileState>, inventory: seq<string>, fold: string -> string, context: string, name: string)
    ensures name in Sightings(files, inventory, NameKeys(fold), fold(context)) <==>
            HasDisplayName(files, inventory, fold, context, name)
    ensures name in Sightings(files, inventory, StatusKeys(fold), fold(context)) <==>
            HasJobName(files, inventory, fold, context, name)
  {
    hide BaseName, Sightings, NameKeys, StatusKeys, ParsedAt;
    SharersMean(files, inventory, NameKeys(fold), fold(context), name);
    SharersMean(files, inventory, StatusKeys(fold), fold(context), name);
    forall w { KeysMean(w, fold, fold(context), []); }
  }

  lemma SortedMember(s: seq<string>, x: string)
    ensures x in SortTexts(s) <==> x in s
  {
    hide Sort;
    SortMultiset(s, TextKey);
    assert x in s <==> x in multiset(s);
    assert x in SortTexts(s) <==> x in multiset(SortTexts(s));
  }
}
