/** The release chain: a distribution manifest, one qualification record per Python, and the verdict. */
module ReleaseQualification {
  import opened Ordering
  import opened Outcomes
  import opened Text

  predicate IsHex(s: string, n: nat) {
    |s| == n && forall i :: 0 <= i < |s| ==> '0' <= s[i] <= '9' || 'a' <= s[i] <= 'f'
  }

  predicate AllDigits(s: string) { s != [] && forall i :: 0 <= i < |s| ==> '0' <= s[i] <= '9' }

  /** The dots of the tag are at i and j. */
  predicate IsTagWithDots(tag: string, i: nat, j: nat) {
    && 0 < i < j < |tag| && tag[0] == 'v' && tag[i] == '.' && tag[j] == '.'
    && AllDigits(tag[1..i]) && AllDigits(tag[i + 1..j]) && AllDigits(tag[j + 1..])
  }

  /** `vX.Y.Z` */
  predicate IsReleaseTag(tag: string) {
    exists i: nat, j: nat :: i < |tag| && j < |tag| && IsTagWithDots(tag, i, j)
  }

  /** A SHA-256 digest: some text of 64 hexadecimal digits for every file. */
  type Digest = s: string | IsHex(s, 64) witness seq(64, _ => '0')

  datatype DistFile = DistFile(name: string, size: nat, sha256: Digest)

  /** A row of the `files` list; size is None when the JSON value is no integer. */
  datatype FileRow = NotAnObject | FileRow(name: string, sha256: string, size: Option<int>)

  /** `files` is None when the JSON value is no list. */
  datatype Manifest = Manifest(
    schema: string, sourceSha: string, tag: string, version: string, files: Option<seq<FileRow>>)

  datatype Wheel = Wheel(name: string, sha256: string, size: int)

  const MANIFEST_SCHEMA := "sdetkit.release_distribution_manifest.v1"
  const RECORD_SCHEMA := "sdetkit.release_candidate.python_qualification.v1"
  const PASSED := "exact_wheel_qualification_passed"
  const SUPPORTED := ["3.10", "3.11", "3.12"]
  const EVIDENCE := {"gate_fast", "gate_release", "doctor"}

  // ---------------------------------------------------------------- the manifest

  function FileKey(f: DistFile): Key { Key([], [f.name]) }

  function RowOf(f: DistFile): FileRow { FileRow(f.name, f.sha256, Some(f.size)) }

  predicate IsWheelFile(f: DistFile) { EndsWith(f.name, ".whl") }
  predicate IsSourceFile(f: DistFile) { EndsWith(f.name, ".tar.gz") }

  function BuildManifest(dist: seq<DistFile>, tag: string, version: string, sourceSha: string): Outcome<Manifest> {
    if !IsReleaseTag(tag) || (if StartsWith(tag, "v") then tag[1..] else tag) != version || !IsHex(sourceSha, 40)
    then Raised
    else
      var files := Sort(dist, FileKey);
      if !(exists i :: 0 <= i < |files| && IsWheelFile(files[i]))
         || !(exists i :: 0 <= i < |files| && IsSourceFile(files[i]))
      then Raised
      else Returned(Manifest(MANIFEST_SCHEMA, sourceSha, tag, version, Some(Map(RowOf, files))))
  }

  predicate IsWheelRow(r: FileRow) { r.FileRow? && EndsWith(r.name, ".whl") }

  function WheelRows(m: Manifest): seq<FileRow> { if m.files.None? then [] else Filter(IsWheelRow, m.files.value) }

  function WheelFromManifest(m: Manifest): Outcome<Wheel> {
    if m.schema != MANIFEST_SCHEMA || !IsHex(m.sourceSha, 40) || m.files.None? then Raised
    else
      var wheels := WheelRows(m);
      if |wheels| != 1 then Raised
      else if !wheels[0].FileRow? || !IsHex(wheels[0].sha256, 64) || wheels[0].size.None? || wheels[0].size.value <= 0
      then Raised
      else Returned(Wheel(wheels[0].name, wheels[0].sha256, wheels[0].size.value))
  }

  // ---------------------------------------------------------------- the records

  /** A record as JSON: flags and texts may be anything, the wheel and the artifact list may be missing. */
  datatype Record = Record(
    schema: string, status: string, candidateTag: string, version: string, sourceSha: string, python: string,
    wheel: Option<FileRow>, artifacts: Option<set<string>>, cleanRoom: Option<bool>, installed: string,
    external: Option<bool>, authorized: Option<bool>, attempted: Option<bool>, tagCreated: Option<bool>)

  /** `evidence` tells for every named file whether it holds a non-empty JSON object. */
  function BuildPythonRecord(m: Manifest, python: string, runtime: string, evidence: map<string, bool>)
    : Outcome<Record>
  {
    if python !in SUPPORTED || runtime != python || m.tag != "v" + m.version || evidence.Keys != EVIDENCE then Raised
    else
      match WheelFromManifest(m)
      case Raised => Raised
      case Returned(w) =>
        if exists name :: name in evidence.Keys && !evidence[name] then Raised
        else
          Returned(Record(RECORD_SCHEMA, PASSED, m.tag, m.version, m.sourceSha, python,
                          Some(FileRow(w.name, w.sha256, Some(w.size))), Some(evidence.Keys), Some(true), "passed",
                          Some(false), Some(false), Some(false), Some(false)))
  }

  // ---------------------------------------------------------------- the verdict

  datatype Verdict = Verdict(candidateTag: string, version: string, sourceSha: string, count: nat, wheel: Wheel)

  /** Everything the verdict demands of a record on its own. */
  predicate RecordAccepted(r: Record, tag: string, version: string, sha: string): (ok: bool)
    ensures ok ==> HasWheel(r)
  {
    && r.schema == RECORD_SCHEMA && r.status == PASSED
    && r.candidateTag == tag && r.version == version && r.sourceSha == sha
    && r.external == Some(false) && r.authorized == Some(false) && r.attempted == Some(false)
    && r.tagCreated == Some(false) && r.cleanRoom == Some(true) && r.installed == "passed"
    && r.wheel.Some? && r.wheel.value.FileRow? && IsHex(r.wheel.value.sha256, 64)
    && r.wheel.value.size.Some? && r.wheel.value.size.value > 0
    && r.artifacts == Some(EVIDENCE)
  }

  predicate HasWheel(r: Record) { r.wheel.Some? && r.wheel.value.FileRow? && r.wheel.value.size.Some? }

  function WheelOf(r: Record): Wheel
    requires HasWheel(r)
  {
    Wheel(r.wheel.value.name, r.wheel.value.sha256, r.wheel.value.size.value)
  }

  function PythonOf(r: Record): string { r.python }

  /** The records together: each supported Python once, one wheel for all of them. */
  ghost predicate Qualifies(records: seq<Record>, tag: string, version: string, sha: string) {
    && tag == "v" + version && IsHex(sha, 40)
    && (forall i :: 0 <= i < |records| ==> RecordAccepted(records[i], tag, version, sha))
    && multiset(Map(PythonOf, records)) == multiset(SUPPORTED)
    && (forall i, j :: 0 <= i < |records| && 0 <= j < |records| ==> WheelOf(records[i]) == WheelOf(records[j]))
  }

  method BuildVerdict(records: seq<Record>, tag: string, version: string, sha: string)
    returns (outcome: Outcome<Verdict>)
    ensures outcome.Returned? <==> Qualifies(records, tag, version, sha)
    ensures outcome.Returned? ==> |records| == 3 && outcome.value == Verdict(tag, version, sha, 3, WheelOf(records[0]))
  {
    hide IsHex, EndsWith, RecordAccepted, HasWheel, WheelOf, SortTexts;
    if tag != "v" + version { return Raised; }
    if !IsHex(sha, 40) { return Raised; }
    if |records| != |SUPPORTED| {
      WrongCount(records);
      return Raised;
    }
    var observed: seq<string> := [];
    var identities: set<Wheel> := {};
    for n := 0 to |records|
      invariant observed == Map(PythonOf, records[..n])
      invariant forall i :: 0 <= i < n ==> RecordAccepted(records[i], tag, version, sha)
      invariant forall i :: 0 <= i < n ==> WheelOf(records[i]) in identities
      invariant forall w :: w in identities ==> exists i :: 0 <= i < n && WheelOf(records[i]) == w
    {
      var r := records[n];
      if !RecordAccepted(r, tag, version, sha) { return Raised; }
      observed := observed + [r.python];
      identities := identities + {WheelOf(r)};
    }
    assert records[..|records|] == records;
    VerdictDecision(records, tag, version, sha, observed, identities);
    if SortTexts(observed) != SUPPORTED { return Raised; }
    if |identities| != 1 { return Raised; }
    return Returned(Verdict(tag, version, sha, |records|, WheelOf(records[0])));
  }

  /** The two closing checks of the verdict decide the qualification of accepted records. */
  lemma VerdictDecision(
    records: seq<Record>, tag: string, version: string, sha: string, observed: seq<string>, identities: set<Wheel>)
    requires tag == "v" + version && IsHex(sha, 40) && |records| == |SUPPORTED| && observed == Map(PythonOf, records)
    requires forall i :: 0 <= i < |records| ==> RecordAccepted(records[i], tag, version, sha)
    requires forall i :: 0 <= i < |records| ==> HasWheel(records[i]) && WheelOf(records[i]) in identities
    requires forall w :: w in identities ==>
               exists i :: 0 <= i < |records| && HasWheel(records[i]) && WheelOf(records[i]) == w
    ensures SortTexts(observed) == SUPPORTED && |identities| == 1 <==> Qualifies(records, tag, version, sha)
  {
    hide IsHex, RecordAccepted, HasWheel, WheelOf, SortTexts;
    SupportedSorted();
    SortTextsEqual(observed, SUPPORTED);
    OneIdentity(identities, WheelOf(records[0]));
  }

  lemma WrongCount(records: seq<Record>)
    requires |records| != |SUPPORTED|
    ensures multiset(Map(PythonOf, records)) != multiset(SUPPORTED)
  {
    assert |multiset(Map(PythonOf, records))| == |records|;
    assert |multiset(SUPPORTED)| == |SUPPORTED|;
  }

  lemma SupportedSorted()
    ensures SortTexts(SUPPORTED) == SUPPORTED
  {
    forall i, j | 0 <= i < j < |SUPPORTED| ensures KeyLeq(TextKey(SUPPORTED[i]), TextKey(SUPPORTED[j])) {
      TextKeyOrder(SUPPORTED[i], SUPPORTED[j]);
      SupportedOrder(SUPPORTED[i][3], SUPPORTED[j][3]);
    }
    SortOfSorted(SUPPORTED, TextKey);
  }

  lemma SupportedOrder(a: char, b: char)
    ensures a <= b ==> StrLeq("3.1" + [a], "3.1" + [b])
  {
    var s, t := "3.1" + [a], "3.1" + [b];
    assert s[1..] == ".1" + [a] && t[1..] == ".1" + [b];
    assert s[1..][1..] == "1" + [a] && t[1..][1..] == "1" + [b];
    assert s[1..][1..][1..] == [a] && t[1..][1..][1..] == [b];
    assert [a][1..] == [] && [b][1..] == [];
    assert Lex(CharLeq, [a][1..], [b][1..]);
    assert a <= b ==> Lex(CharLeq, [a], [b]);
    assert a <= b ==> Lex(CharLeq, s[1..][1..], t[1..][1..]);
    assert a <= b ==> Lex(CharLeq, s[1..], t[1..]);
  }

  lemma OneIdentity(identities: set<Wheel>, w: Wheel)
    requires w in identities
    ensures |identities| == 1 <==> forall x :: x in identities ==> x == w
  {
    if forall x :: x in identities ==> x == w { assert identities == {w}; }
    if |identities| == 1 {
      assert |identities - {w}| == 0;
      forall x | x in identities ensures x == w { assert x in {w} || x in identities - {w}; }
    }
  }

  // ---------------------------------------------------------------- properties of accepted verdicts

  /** An accepted verdict has each supported Python on exactly one record. */
  lemma EachPythonOnce(records: seq<Record>, tag: string, version: string, sha: string, p: string)
    requires Qualifies(records, tag, version, sha) && p in SUPPORTED
    ensures exists i :: 0 <= i < |records| && records[i].python == p
    ensures forall i, j :: 0 <= i < j < |records| ==> records[i].python != records[j].python
    ensures |records| == 3
  {
    hide RecordAccepted;
    var pythons := Map(PythonOf, records);
    assert |records| == |multiset(pythons)| == |multiset(SUPPORTED)| == 3;
    SameMembers(SUPPORTED, pythons) by { SupportedDistinct(); }
    assert p in pythons;
    forall i, j | 0 <= i < j < |records| ensures records[i].python != records[j].python {
      assert pythons[i] != pythons[j];
    }
  }

  lemma SupportedDistinct()
    ensures Distinct(SUPPORTED)
  {
    assert SUPPORTED[0][3] != SUPPORTED[1][3] && SUPPORTED[1][3] != SUPPORTED[2][3];
    assert SUPPORTED[0][3] != SUPPORTED[2][3];
  }

  /** The order in which the records are given does not matter. */
  lemma VerdictOrder(records: seq<Record>, records': seq<Record>, tag: string, version: string, sha: string)
    requires multiset(records) == multiset(records') && Qualifies(records, tag, version, sha)
    ensures Qualifies(records', tag, version, sha)
    ensures |records| == |records'| == 3 && WheelOf(records'[0]) == WheelOf(records[0])
  {
    hide RecordAccepted, IsHex;
    MapPermutation(PythonOf, records, records');
    assert |Map(PythonOf, records)| == |multiset(SUPPORTED)| == 3 by {
      assert |Map(PythonOf, records)| == |multiset(Map(PythonOf, records))|;
    }
    SameLength(records, records');
    forall i | 0 <= i < |records'| ensures exists k :: 0 <= k < |records| && records[k] == records'[i] {
      assert records'[i] in multiset(records);
    }
    AcceptedHaveWheels(records, tag, version, sha);
    forall i | 0 <= i < |records'|
      ensures RecordAccepted(records'[i], tag, version, sha)
      ensures HasWheel(records'[i])
      ensures WheelOf(records'[i]) == WheelOf(records[0])
    {
      var k :| 0 <= k < |records| && records[k] == records'[i];
    }
  }

  lemma AcceptedHaveWheels(records: seq<Record>, tag: string, version: string, sha: string)
    requires forall i :: 0 <= i < |records| ==> RecordAccepted(records[i], tag, version, sha)
    ensures forall i :: 0 <= i < |records| ==>
              HasWheel(records[i])
  {
  }

  // ---------------------------------------------------------------- the round trip

  lemma {:induction false} FilterMapped(files: seq<DistFile>)
    ensures Filter(IsWheelRow, Map(RowOf, files)) == Map(RowOf, Filter(IsWheelFile, files))
  {
    hide EndsWith;
    if files != [] {
      var front, last := files[..|files| - 1], files[|files| - 1];
      FilterMapped(front);
      assert Map(RowOf, files)[..|files| - 1] == Map(RowOf, front);
      assert IsWheelRow(RowOf(last)) == IsWheelFile(last);
    }
  }

  /** What an accepted distribution looks like as a manifest. */
  lemma ManifestShape(dist: seq<DistFile>, tag: string, version: string, sha: string)
    requires BuildManifest(dist, tag, version, sha).Returned?
    ensures var m := BuildManifest(dist, tag, version, sha).value; m.files == Some(Map(RowOf, Sort(dist, FileKey)))
    ensures tag == "v" + version && IsHex(sha, 40)
  {
    hide IsHex, EndsWith, Sort, FileKey;
    assert tag[0] == 'v';
    assert tag == "v" + tag[1..];
  }

  /** The wheel rows of a built manifest are the wheel files of the distribution. */
  lemma ManifestWheels(dist: seq<DistFile>, tag: string, version: string, sha: string)
    requires BuildManifest(dist, tag, version, sha).Returned?
    ensures multiset(WheelRows(BuildManifest(dist, tag, version, sha).value)) ==
            multiset(Map(RowOf, Filter(IsWheelFile, dist)))
    ensures tag == "v" + version && IsHex(sha, 40)
  {
    hide IsHex, EndsWith, BuildManifest, Sort, Filter, IsWheelFile, FileKey, IsWheelRow, RowOf;
    var files := Sort(dist, FileKey);
    ManifestShape(dist, tag, version, sha);
    SortMultiset(dist, FileKey);
    FilterMapped(files);
    FilterPermutation(IsWheelFile, files, dist);
    MapPermutation(RowOf, Filter(IsWheelFile, files), Filter(IsWheelFile, dist));
  }

  /** A built manifest names a wheel exactly when the distribution holds one wheel, and that is not empty. */
  lemma ManifestWheelIff(dist: seq<DistFile>, tag: string, version: string, sha: string)
    requires BuildManifest(dist, tag, version, sha).Returned?
    ensures var wheels := Filter(IsWheelFile, dist);
            var named := WheelFromManifest(BuildManifest(dist, tag, version, sha).value);
            && (named.Returned? <==> |wheels| == 1 && wheels[0].size > 0)
            && (named.Returned? ==> named.value == Wheel(wheels[0].name, wheels[0].sha256, wheels[0].size))
  {
    hide IsReleaseTag, EndsWith, Sort;
    var m, wheels := BuildManifest(dist, tag, version, sha).value, Filter(IsWheelFile, dist);
    ManifestWheels(dist, tag, version, sha);
    SameLength(WheelRows(m), Map(RowOf, wheels));
    if |wheels| == 1 {
      assert WheelRows(m)[0] in multiset(Map(RowOf, wheels));
      assert WheelRows(m)[0] == RowOf(wheels[0]);
      var digest: Digest := wheels[0].sha256;
      assert IsHex(digest, 64);
    }
  }

  /** A record can be built exactly when runtime, evidence and the single non-empty wheel are all there. */
  lemma RecordIff(
    dist: seq<DistFile>, tag: string, version: string, sha: string,
    python: string, runtime: string, evidence: map<string, bool>)
    requires BuildManifest(dist, tag, version, sha).Returned?
    ensures var wheels := Filter(IsWheelFile, dist);
            BuildPythonRecord(BuildManifest(dist, tag, version, sha).value, python, runtime, evidence).Returned? <==>
            && python in SUPPORTED && runtime == python && evidence.Keys == EVIDENCE
            && (forall name :: name in evidence.Keys ==> evidence[name])
            && |wheels| == 1 && wheels[0].size > 0
  {
    hide Sort, EndsWith, IsHex, WheelFromManifest;
    ManifestWheels(dist, tag, version, sha);
    ManifestWheelIff(dist, tag, version, sha);
  }

  /** Two wheels, or an empty one, stop every record, whatever else is given. */
  lemma NoRecordForManyWheels(
    dist: seq<DistFile>, tag: string, version: string, sha: string,
    python: string, runtime: string, evidence: map<string, bool>)
    requires BuildManifest(dist, tag, version, sha).Returned?
    requires |Filter(IsWheelFile, dist)| >= 2 || forall f :: f in dist && IsWheelFile(f) ==> f.size == 0
    ensures BuildPythonRecord(BuildManifest(dist, tag, version, sha).value, python, runtime, evidence).Raised?
  {
    hide BuildManifest, BuildPythonRecord, IsWheelFile;
    RecordIff(dist, tag, version, sha, python, runtime, evidence);
    if Filter(IsWheelFile, dist) != [] { FilterMember(IsWheelFile, dist, Filter(IsWheelFile, dist)[0]); }
  }

  /**
   Round trip: from any accepted distribution, three records built on the supported Pythons qualify in every
   order, and the verdict names the one wheel of the distribution.
   */
  lemma ChainRoundTrip(
    dist: seq<DistFile>, tag: string, version: string, sha: string,
    pythons: seq<string>, evidence: seq<map<string, bool>>, records: seq<Record>)
    requires BuildManifest(dist, tag, version, sha).Returned?
    requires multiset(pythons) == multiset(SUPPORTED) && |pythons| == |evidence| == |records|
    requires forall i :: 0 <= i < |pythons| ==>
               BuildPythonRecord(BuildManifest(dist, tag, version, sha).value, pythons[i], pythons[i], evidence[i])
               == Returned(records[i])
    ensures Qualifies(records, tag, version, sha) && |records| == 3
    ensures var wheels := Filter(IsWheelFile, dist);
            && |wheels| == 1
            && WheelOf(records[0]) == Wheel(wheels[0].name, wheels[0].sha256, wheels[0].size)
  {
    hide BuildManifest, BuildPythonRecord, WheelOf, IsHex, IsWheelFile;
    assert |pythons| == |multiset(pythons)| == |multiset(SUPPORTED)| == 3;
    ManifestWheels(dist, tag, version, sha);
    RecordIff(dist, tag, version, sha, pythons[0], pythons[0], evidence[0]);
    var wheel := Filter(IsWheelFile, dist)[0];
    forall i | 0 <= i < |records|
      ensures RecordAccepted(records[i], tag, version, sha) && records[i].python == pythons[i]
      ensures WheelOf(records[i]) == Wheel(wheel.name, wheel.sha256, wheel.size)
    {
      BuiltRecord(dist, tag, version, sha, pythons[i], evidence[i]);
    }
    assert Map(PythonOf, records) == pythons;
  }

  lemma BuiltRecord(
    dist: seq<DistFile>, tag: string, version: string, sha: string, python: string, evidence: map<string, bool>)
    requires BuildManifest(dist, tag, version, sha).Returned?
    requires BuildPythonRecord(BuildManifest(dist, tag, version, sha).value, python, python, evidence).Returned?
    requires |Filter(IsWheelFile, dist)| == 1
    ensures var wheel := Filter(IsWheelFile, dist)[0];
            var r := BuildPythonRecord(BuildManifest(dist, tag, version, sha).value, python, python, evidence).value;
            && RecordAccepted(r, tag, version, sha) && r.python == python
            && WheelOf(r) == Wheel(wheel.name, wheel.sha256, wheel.size)
  {
    hide Sort, EndsWith, IsReleaseTag, WheelFromManifest, IsWheelFile;
    ManifestWheelIff(dist, tag, version, sha);
    var digest: Digest := Filter(IsWheelFile, dist)[0].sha256;
    assert IsHex(digest, 64);
  }
}
