/** The records, manifests and tags that a release chain accepts, written out. */
module ReleaseRecords {
  import opened Ordering
  import opened Outcomes
  import opened Text
  import opened ReleaseQualification

  // ---------------------------------------------------------------- records

  /** The record that qualifies a wheel on one Python. */
  function Qualified(python: string, tag: string, version: string, sha: string, w: Wheel): Record {
    Record("sdetkit.release_candidate.python_qualification.v1", "exact_wheel_qualification_passed", tag, version, sha,
           python, Some(FileRow(w.name, w.sha256, Some(w.size))), Some({"gate_fast", "gate_release", "doctor"}),
           Some(true), "passed", Some(false), Some(false), Some(false), Some(false))
  }

  function QualifiedOn(tag: string, version: string, sha: string, w: Wheel): string -> Record {
    (python: string) => Qualified(python, tag, version, sha, w)
  }

  ghost predicate IsRealWheel(w: Wheel) { IsHex(w.sha256, 64) && w.size > 0 }

  lemma AcceptedRecord(r: Record, tag: string, version: string, sha: string)
    ensures RecordAccepted(r, tag, version, sha) <==>
            HasWheel(r) && IsRealWheel(WheelOf(r)) && r == Qualified(r.python, tag, version, sha, WheelOf(r))
  {
    hide IsHex;
  }

  /** The three records of one wheel, in any order. */
  ghost predicate AreRecordsOf(records: seq<Record>, tag: string, version: string, sha: string, w: Wheel) {
    && IsRealWheel(w)
    && multiset(records) == multiset{Qualified("3.10", tag, version, sha, w), Qualified("3.11", tag, version, sha, w),
                                     Qualified("3.12", tag, version, sha, w)}
  }

  lemma ThreeRecords(tag: string, version: string, sha: string, w: Wheel)
    ensures multiset(Map(QualifiedOn(tag, version, sha, w), SUPPORTED)) ==
            multiset{Qualified("3.10", tag, version, sha, w), Qualified("3.11", tag, version, sha, w),
                     Qualified("3.12", tag, version, sha, w)}
  {
    hide Qualified;
    assert Map(QualifiedOn(tag, version, sha, w), SUPPORTED) ==
           [Qualified("3.10", tag, version, sha, w), Qualified("3.11", tag, version, sha, w),
            Qualified("3.12", tag, version, sha, w)];
  }

  lemma QualifyingRecords(records: seq<Record>, tag: string, version: string, sha: string)
    requires Qualifies(records, tag, version, sha)
    ensures records != [] && AreRecordsOf(records, tag, version, sha, WheelOf(records[0]))
  {
    hide RecordAccepted, Qualified, IsHex, WheelOf, HasWheel;
    var pythons := Map(PythonOf, records);
    assert |pythons| == |multiset(pythons)| == |multiset(SUPPORTED)| == 3;
    forall i | 0 <= i < |records| { AcceptedRecord(records[i], tag, version, sha); }
    var w := WheelOf(records[0]);
    var f := QualifiedOn(tag, version, sha, w);
    assert Map(f, pythons) == records;
    MapPermutation(f, pythons, SUPPORTED);
    ThreeRecords(tag, version, sha, w);
  }

  lemma RecordsQualify(records: seq<Record>, tag: string, version: string, sha: string, w: Wheel)
    requires AreRecordsOf(records, tag, version, sha, w) && tag == "v" + version && IsHex(sha, 40)
    ensures Qualifies(records, tag, version, sha)
  {
    hide RecordAccepted, Qualified, IsHex, WheelOf, HasWheel;
    var f := QualifiedOn(tag, version, sha, w);
    ThreeRecords(tag, version, sha, w);
    var three := Map(f, SUPPORTED);
    MapPermutation(PythonOf, records, three);
    forall python { QualifiedFields(python, tag, version, sha, w); }
    assert Map(PythonOf, three) == SUPPORTED;
    forall i | 0 <= i < |records|
      ensures RecordAccepted(records[i], tag, version, sha) && HasWheel(records[i]) && WheelOf(records[i]) == w
    {
      assert records[i] in multiset(three);
      var k :| 0 <= k < |three| && three[k] == records[i];
      AcceptedRecord(records[i], tag, version, sha);
    }
  }

  lemma QualifiedFields(python: string, tag: string, version: string, sha: string, w: Wheel)
    ensures var r := Qualified(python, tag, version, sha, w);
            r.python == python && HasWheel(r) && WheelOf(r) == w
  {
  }

  /** A verdict is given exactly for the three records of one wheel, and they are these records to the last field. */
  lemma QualifiesIff(records: seq<Record>, tag: string, version: string, sha: string)
    ensures Qualifies(records, tag, version, sha) <==>
            && tag == "v" + version && IsHex(sha, 40)
            && exists w :: AreRecordsOf(records, tag, version, sha, w)
  {
    hide AreRecordsOf, IsHex;
    if Qualifies(records, tag, version, sha) { QualifyingRecords(records, tag, version, sha); }
    if tag == "v" + version && IsHex(sha, 40) && exists w :: AreRecordsOf(records, tag, version, sha, w) {
      var w :| AreRecordsOf(records, tag, version, sha, w);
      RecordsQualify(records, tag, version, sha, w);
    }
  }

  lemma SameRecord(records: seq<Record>, i: nat, other: Record, tag: string, version: string, sha: string)
    requires i < |records|
    requires Qualifies(records, tag, version, sha) && Qualifies(records[i := other], tag, version, sha)
    ensures other == records[i]
  {
    hide RecordAccepted, Qualified, IsHex, WheelOf, HasWheel;
    var changed := records[i := other];
    var a, b := Map(PythonOf, records), Map(PythonOf, changed);
    assert |a| == |multiset(a)| == |multiset(SUPPORTED)| == 3;
    assert b == a[i := b[i]];
    OneChange(a, i, b[i]);
    assert changed[i] == other;
    AcceptedRecord(records[i], tag, version, sha);
    AcceptedRecord(other, tag, version, sha);
    assert forall k :: 0 <= k < |records| && k != i ==> changed[k] == records[k];
    var k := if i == 0 then 1 else 0;
    AcceptedRecord(records[k], tag, version, sha);
    assert WheelOf(records[i]) == WheelOf(records[k]) == WheelOf(changed[k]) == WheelOf(changed[i]);
  }

  /** No field of any one record can change: among qualifying records every other record in its place is refused. */
  lemma OneRecordChanged(records: seq<Record>, i: nat, other: Record, tag: string, version: string, sha: string)
    requires Qualifies(records, tag, version, sha) && i < |records| && other != records[i]
    ensures !Qualifies(records[i := other], tag, version, sha)
  {
    hide Qualifies;
    if Qualifies(records[i := other], tag, version, sha) { SameRecord(records, i, other, tag, version, sha); }
  }

  /** Replacing one element by another changes the multiset. */
  lemma OneChange(s: seq<string>, i: nat, x: string)
    requires i < |s|
    ensures multiset(s[i := x])[x] == multiset(s)[x] + if x == s[i] then 0 else 1
  {
    assert multiset(s[i := x]) == multiset(s) - multiset{s[i]} + multiset{x};
  }

  // ---------------------------------------------------------------- what the chain builds

  /** The positions of the wheels of a manifest. */
  ghost function WheelsAt(m: Manifest): set<nat> {
    if m.files.None? then {}
    else set i: nat | i < |m.files.value| && m.files.value[i].FileRow? && EndsWith(m.files.value[i].name, ".whl")
  }

  lemma WheelsCounted(m: Manifest)
    ensures |WheelRows(m)| == |WheelsAt(m)|
  {
    hide EndsWith;
    if m.files.Some? {
      FilterIndices(IsWheelRow, m.files.value);
      assert Passing(IsWheelRow, m.files.value) == WheelsAt(m);
    }
  }

  ghost predicate ReadsWheel(m: Manifest, w: Wheel) {
    && m.schema == "sdetkit.release_distribution_manifest.v1" && IsHex(m.sourceSha, 40) && IsRealWheel(w)
    && EndsWith(w.name, ".whl") && m.files.Some? && FileRow(w.name, w.sha256, Some(w.size)) in m.files.value
    && |WheelsAt(m)| == 1
  }

  /** From any manifest a wheel is read exactly when schema, commit and its only wheel are right, and it is that one. */
  lemma WheelReadIff(m: Manifest, w: Wheel)
    ensures WheelFromManifest(m) == Returned(w) <==> ReadsWheel(m, w)
  {
    hide IsHex, EndsWith, Filter;
    WheelsCounted(m);
    if m.files.Some? && |WheelRows(m)| == 1 {
      var row := WheelRows(m)[0];
      assert row in WheelRows(m);
      FilterMember(IsWheelRow, m.files.value, row);
      FilterMember(IsWheelRow, m.files.value, FileRow(w.name, w.sha256, Some(w.size)));
    }
  }

  /** From any manifest a record is built exactly on a supported Python with its evidence, and is the qualified one. */
  lemma RecordBuiltIff(m: Manifest, python: string, runtime: string, evidence: map<string, bool>, r: Record)
    ensures BuildPythonRecord(m, python, runtime, evidence) == Returned(r) <==>
            && (python == "3.10" || python == "3.11" || python == "3.12") && runtime == python
            && m.tag == "v" + m.version
            && evidence == map["gate_fast" := true, "gate_release" := true, "doctor" := true]
            && exists w :: ReadsWheel(m, w) && r == Qualified(python, m.tag, m.version, m.sourceSha, w)
  {
    hide ReadsWheel, WheelFromManifest;
    assert evidence == map["gate_fast" := true, "gate_release" := true, "doctor" := true] <==>
           evidence.Keys == EVIDENCE && forall name :: name in evidence.Keys ==> evidence[name];
    forall w { WheelReadIff(m, w); }
  }

  // ---------------------------------------------------------------- tags and manifests

  /** A release tag is `v` and three numbers with dots between them. */
  ghost predicate IsNumbered(tag: string, x: string, y: string, z: string) {
    AllDigits(x) && AllDigits(y) && AllDigits(z) && tag == "v" + x + "." + y + "." + z
  }

  lemma TagParts(tag: string, i: nat, j: nat)
    requires 0 < i < j < |tag| && tag[0] == 'v' && tag[i] == '.' && tag[j] == '.'
    ensures tag == "v" + tag[1..i] + "." + tag[i + 1..j] + "." + tag[j + 1..]
  {
    assert tag == tag[..1] + tag[1..i] + tag[i..i + 1] + tag[i + 1..j] + tag[j..j + 1] + tag[j + 1..];
    assert tag[..1] == "v" && tag[i..i + 1] == "." && tag[j..j + 1] == ".";
  }

  lemma PartsOfTag(x: string, y: string, z: string)
    ensures var tag, i, j := "v" + x + "." + y + "." + z, |x| + 1, |x| + |y| + 2;
            && 0 < i < j < |tag| && tag[0] == 'v' && tag[i] == '.' && tag[j] == '.'
            && tag[1..i] == x && tag[i + 1..j] == y && tag[j + 1..] == z
  {
  }

  lemma NumberedIsTag(tag: string, x: string, y: string, z: string)
    requires IsNumbered(tag, x, y, z)
    ensures IsReleaseTag(tag)
  {
    hide AllDigits;
    PartsOfTag(x, y, z);
    assert IsTagWithDots(tag, |x| + 1, |x| + |y| + 2);
  }

  lemma TagIsNumbered(tag: string)
    requires IsReleaseTag(tag)
    ensures exists x, y, z :: IsNumbered(tag, x, y, z)
  {
    hide AllDigits;
    var i: nat, j: nat :| i < |tag| && j < |tag| && IsTagWithDots(tag, i, j);
    TagParts(tag, i, j);
    assert IsNumbered(tag, tag[1..i], tag[i + 1..j], tag[j + 1..]);
  }

  lemma ReleaseTagIff(tag: string)
    ensures IsReleaseTag(tag) <==> exists x, y, z :: IsNumbered(tag, x, y, z)
  {
    hide IsReleaseTag, IsNumbered;
    if IsReleaseTag(tag) {
      TagIsNumbered(tag);
    } else if x, y, z :| IsNumbered(tag, x, y, z) {
      NumberedIsTag(tag, x, y, z);
    }
  }

  /** A distribution is accepted exactly with a release tag of its version, a full SHA, a wheel and a source archive. */
  lemma ManifestIff(dist: seq<DistFile>, tag: string, version: string, sha: string)
    ensures BuildManifest(dist, tag, version, sha).Returned? <==>
            && IsReleaseTag(tag) && tag == "v" + version && IsHex(sha, 40)
            && (exists f :: f in dist && EndsWith(f.name, ".whl"))
            && (exists f :: f in dist && EndsWith(f.name, ".tar.gz"))
  {
    hide EndsWith, Sort, FileKey, IsHex;
    var files := Sort(dist, FileKey);
    SortMultiset(dist, FileKey);
    forall f ensures f in files <==> f in dist {
      assert f in files <==> f in multiset(files);
      assert f in dist <==> f in multiset(dist);
    }
    if IsReleaseTag(tag) {
      assert tag[0] == 'v';
      assert tag == "v" + tag[1..] && StartsWith(tag, "v");
      assert tag[1..] == version <==> tag == "v" + version by { assert ("v" + version)[1..] == version; }
    }
  }

  /** The manifest states schema, commit, tag and version, and lists every file once, in the order of names. */
  lemma ManifestContent(dist: seq<DistFile>, tag: string, version: string, sha: string)
    requires BuildManifest(dist, tag, version, sha).Returned?
    ensures var m := BuildManifest(dist, tag, version, sha).value;
            && m.schema == "sdetkit.release_distribution_manifest.v1" && m.sourceSha == sha
            && m.tag == tag && m.version == version
            && m.files.Some? && |m.files.value| == |dist|
            && (forall f: DistFile :: multiset(m.files.value)[FileRow(f.name, f.sha256, Some(f.size))] ==
                                      multiset(dist)[f])
            && (forall row :: row in m.files.value ==> row.FileRow?)
            && (forall i, j :: 0 <= i < j < |m.files.value| && m.files.value[i].FileRow? && m.files.value[j].FileRow?
                  ==> StrLeq(m.files.value[i].name, m.files.value[j].name))
  {
    hide EndsWith, Sort, FileKey, IsHex, IsReleaseTag, StrLeq;
    var files := Sort(dist, FileKey);
    SortMultiset(dist, FileKey);
    SortSorted(dist, FileKey);
    forall f { RowsAsFiles(files, f); }
    forall i, j | 0 <= i < j < |files| ensures StrLeq(files[i].name, files[j].name) { NameOrder(files[i], files[j]); }
  }

  lemma NameOrder(a: DistFile, b: DistFile)
    requires KeyLeq(FileKey(a), FileKey(b))
    ensures StrLeq(a.name, b.name)
  {
    StrTotal(a.name, a.name);
  }

  lemma {:induction false} RowsAsFiles(files: seq<DistFile>, f: DistFile)
    ensures multiset(Map(RowOf, files))[RowOf(f)] == multiset(files)[f]
  {
    if files != [] {
      var front, last := files[..|files| - 1], files[|files| - 1];
      RowsAsFiles(front, f);
      assert files == front + [last] && Map(RowOf, files) == Map(RowOf, front) + [RowOf(last)];
    }
  }

  // ---------------------------------------------------------------- digests and digits

  const HEX_DIGITS := {'0', '1', '2', '3', '4', '5', '6', '7', '8', '9', 'a', 'b', 'c', 'd', 'e', 'f'}
  const DIGITS := {'0', '1', '2', '3', '4', '5', '6', '7', '8', '9'}

  /** Hexadecimal digits are the ten digits and the six small letters. */
  lemma HexMeans(s: string, n: nat)
    ensures IsHex(s, n) <==> |s| == n && forall c :: c in s ==> c in HEX_DIGITS
    ensures AllDigits(s) <==> s != [] && forall c :: c in s ==> c in DIGITS
  {
    forall c: char
      ensures c in HEX_DIGITS <==> '0' <= c <= '9' || 'a' <= c <= 'f'
      ensures c in DIGITS <==> '0' <= c <= '9'
    {
      DigitBetween(c);
    }
    if IsHex(s, n) {
      forall c | c in s ensures c in HEX_DIGITS { var i :| 0 <= i < |s| && s[i] == c; }
    } else if |s| == n {
      var i :| 0 <= i < |s| && !('0' <= s[i] <= '9' || 'a' <= s[i] <= 'f');
      assert s[i] in s;
    }
    if AllDigits(s) {
      forall c | c in s ensures c in DIGITS { var i :| 0 <= i < |s| && s[i] == c; }
    } else if s != [] {
      var i :| 0 <= i < |s| && !('0' <= s[i] <= '9');
      assert s[i] in s;
    }
  }

  lemma DigitBetween(c: char)
    ensures c in HEX_DIGITS <==> '0' <= c <= '9' || 'a' <= c <= 'f'
    ensures c in DIGITS <==> '0' <= c <= '9'
  {
    var n := c as int;
    assert c == n as char;
  }
}
