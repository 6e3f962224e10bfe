/**
 * internal/track/track.go: the track command's own ledger. Its commit method
 * writes a message with no blank line after the marker; searchTrackHash
 * reads the log back into one record per ledger commit; trackUpdate groups
 * those records by object name, interning the names through getObjectName;
 * splitTrackObject parses a src[:dst] argument.
 */
module Track {
  import opened Wrappers
  import opened Text
  import opened Hex
  import opened Git
  import opened Ledger
  import ObjectCmd
  import RoundTrip
  import UpdateObject
  import Utils

  // splitTrackObject

  /** The number of times c occurs in s. */
  function Occurrences(s: string, c: char): nat
    decreases |s|
  {
    if s == [] then 0 else (if s[0] == c then 1 else 0) + Occurrences(s[1..], c)
  }

  /** strings.Split yields one piece more than there are separators. */
  lemma {:induction false} SplitPieces(s: string, sep: char)
    ensures |Split(s, sep)| == Occurrences(s, sep) + 1
    ensures sep !in s <==> Occurrences(s, sep) == 0
    decreases |s|
  {
    if s != [] {
      SplitPieces(s[1..], sep);
      assert s == [s[0]] + s[1..];
    }
  }

  /** splitTrackObject: "p" names the same path on both sides, "a:b" two paths; more colons are an error. */
  function SplitTrackObject(trackObject: string): (r: Result<(string, string)>)
    ensures r.Err? ==> r.error == InvalidTrackPath
    ensures r.Ok? ==> ':' !in r.value.0 && ':' !in r.value.1
  {
    var paths := Split(trackObject, ':');
    if |paths| == 1 then Ok((paths[0], paths[0]))
    else if |paths| == 2 then Ok((paths[0], paths[1]))
    else Err(InvalidTrackPath)
  }

  /** The argument is rejected exactly when it holds two colons or more. */
  lemma SplitTrackObjectRejects(trackObject: string)
    ensures SplitTrackObject(trackObject).Err? <==> Occurrences(trackObject, ':') >= 2
  {
    SplitPieces(trackObject, ':');
  }

  /** What splitTrackObject returns is what the argument was made of. */
  lemma SplitTrackObjectJoins(trackObject: string)
    requires SplitTrackObject(trackObject).Ok?
    ensures var (src, dst) := SplitTrackObject(trackObject).value;
      (src == dst && trackObject == src) || trackObject == src + ":" + dst
  {
    var paths := Split(trackObject, ':');
    JoinSplit(trackObject, ':');
    if |paths| == 2 {
      assert paths[1..] == [paths[1]];
    }
  }

  /** A colon-free path names itself twice; two colon-free paths joined by a colon come back apart. */
  lemma SplitTrackObjectOfPaths(src: string, dst: string)
    requires ':' !in src && ':' !in dst
    ensures SplitTrackObject(src) == Ok((src, src))
    ensures SplitTrackObject(src + ":" + dst) == Ok((src, dst))
  {
    SplitNoSep(src, ':');
    ObjectCmd.PairSplits(src, dst);
  }

  // getObjectName

  /** An object's name in the vendor repository and in the track repository. */
  datatype ObjectName = ObjectName(src: string, dst: string)

  /**
   * The intern table. Go keeps references to the entries and trackUpdate
   * changes an entry through its reference; each reference is created for one
   * name and always found under it, so the name stands for the reference.
   */
  type ObjectNames = map<string, ObjectName>

  /** Every entry was created for its own name. */
  predicate Interned(names: ObjectNames) {
    forall k :: k in names ==> names[k].src == k
  }

  /** getObjectName: the entry for name, created as {name, name} when absent. */
  function GetObjectName(names: ObjectNames, name: string): (r: (ObjectNames, ObjectName))
    ensures r.0.Keys == names.Keys + {name} && r.1 == r.0[name]
    ensures forall k :: k in names ==> r.0[k] == names[k]
    ensures name !in names ==> r.1 == ObjectName(name, name)
  {
    if name !in names then
      var names' := names[name := ObjectName(name, name)];
      (names', names'[name])
    else (names, names[name])
  }

  /** Asking twice changes nothing more and gives the same entry. */
  lemma GetObjectNameIdempotent(names: ObjectNames, name: string)
    ensures GetObjectName(GetObjectName(names, name).0, name) == GetObjectName(names, name)
  {
  }

  /** The table stays interned, and the entry returned carries name as its source. */
  lemma GetObjectNameInterned(names: ObjectNames, name: string)
    requires Interned(names)
    ensures Interned(GetObjectName(names, name).0)
    ensures GetObjectName(names, name).1.src == name
  {
  }

  // trackUpdate: grouping the records by object

  /** One ledger commit, as searchTrackHash records it. */
  datatype HashObjectsTracked = HashObjectsTracked(vendorHash: Oid, trackHash: Oid, objects: seq<string>, objectRename: string)

  /** The pair of commits a record contributes to each object it lists. */
  datatype FileHash = FileHash(vendorHash: Oid, trackHash: Oid)

  /** trackUpdate's two maps; objects is keyed by the interned entry, that is, by name. */
  datatype Grouping = Grouping(names: ObjectNames, objects: map<string, seq<FileHash>>)

  function HashOf(t: HashObjectsTracked): FileHash {
    FileHash(t.vendorHash, t.trackHash)
  }

  /** The hash list of an object, empty when the map has none. */
  function HashList(objects: map<string, seq<FileHash>>, name: string): seq<FileHash> {
    if name in objects then objects[name] else []
  }

  /** One object of a record: intern its name and append the record's hashes to its list. */
  function AddObject(g: Grouping, obj: string, fh: FileHash): Grouping {
    Grouping(GetObjectName(g.names, obj).0, g.objects[obj := HashList(g.objects, obj) + [fh]])
  }

  /** Every object of a record, in order. */
  function AddObjects(g: Grouping, objects: seq<string>, fh: FileHash): Grouping
    decreases |objects|
  {
    if objects == [] then g
    else AddObject(AddObjects(g, objects[..|objects| - 1], fh), objects[|objects| - 1], fh)
  }

  /** A rename line "a:b" sets the destination of a's entry to b; one without a colon indexes past the split. */
  function ApplyRename(g: Grouping, rename: string): Result<Grouping> {
    if rename == "" then Ok(g)
    else
      var parts := Split(rename, ':');
      if |parts| < 2 then Err(Panic("index out of range"))
      else
        var (names, o) := GetObjectName(g.names, parts[0]);
        Ok(g.(names := names[parts[0] := o.(dst := parts[1])]))
  }

  /** One pass of trackUpdate's grouping loop. */
  function Group(g: Grouping, t: HashObjectsTracked): Result<Grouping> {
    ApplyRename(AddObjects(g, t.objects, HashOf(t)), t.objectRename)
  }

  /** trackUpdate's grouping loop over the records, in order. */
  function GroupSpec(tracked: seq<HashObjectsTracked>): Result<Grouping>
    decreases |tracked|
  {
    if tracked == [] then Ok(Grouping(map[], map[]))
    else
      match GroupSpec(tracked[..|tracked| - 1])
      case Err(e) => Err(e)
      case Ok(g) => Group(g, tracked[|tracked| - 1])
  }

  /** The inner loop of trackUpdate's grouping: one record's objects, in order. */
  method AddTrackObjects(names: ObjectNames, objects: map<string, seq<FileHash>>, objs: seq<string>, fh: FileHash)
    returns (names': ObjectNames, objects': map<string, seq<FileHash>>)
    ensures Grouping(names', objects') == AddObjects(Grouping(names, objects), objs, fh)
  {
    names', objects' := names, objects;
    for j := 0 to |objs|
      invariant Grouping(names', objects') == AddObjects(Grouping(names, objects), objs[..j], fh)
    {
      AddObjectsStep(Grouping(names, objects), objs, j, fh);
      names', objects' := AddTrackObject(names', objects', objs[j], fh);
    }
    assert objs[..|objs|] == objs;
  }

  /** The body of the inner loop for one object: intern it, create its list when absent, append the hashes. */
  method AddTrackObject(names: ObjectNames, objects: map<string, seq<FileHash>>, obj: string, fh: FileHash)
    returns (names': ObjectNames, objects': map<string, seq<FileHash>>)
    ensures Grouping(names', objects') == AddObject(Grouping(names, objects), obj, fh)
  {
    var interned := GetObjectName(names, obj);
    names' := interned.0;
    objects' := objects;
    if obj !in objects' {
      objects' := objects'[obj := []];
    }
    objects' := objects'[obj := objects'[obj] + [fh]];
  }

  lemma AddObjectsStep(g: Grouping, objs: seq<string>, j: nat, fh: FileHash)
    requires j < |objs|
    ensures AddObjects(g, objs[..j + 1], fh) == AddObject(AddObjects(g, objs[..j], fh), objs[j], fh)
  {
    assert objs[..j + 1][..j] == objs[..j];
  }

  /** Once a record fails, the loop has failed whatever follows. */
  lemma {:induction false} GroupSpecFailsEarly(tracked: seq<HashObjectsTracked>, n: nat)
    requires n <= |tracked| && GroupSpec(tracked[..n]).Err?
    ensures GroupSpec(tracked) == GroupSpec(tracked[..n])
    decreases |tracked| - n
  {
    if n < |tracked| {
      var front := tracked[..|tracked| - 1];
      assert front[..n] == tracked[..n];
      GroupSpecFailsEarly(front, n);
    } else {
      assert tracked[..n] == tracked;
    }
  }

  /** The grouping loop of trackUpdate, as the source runs it. */
  method TrackUpdateGroups(tracked: seq<HashObjectsTracked>) returns (r: Result<Grouping>)
    ensures r == GroupSpec(tracked)
  {
    var names: ObjectNames := map[];
    var objects: map<string, seq<FileHash>> := map[];
    for i := 0 to |tracked|
      invariant GroupSpec(tracked[..i]) == Ok(Grouping(names, objects))
    {
      var track := tracked[i];
      assert tracked[..i + 1][..i] == tracked[..i];
      names, objects := AddTrackObjects(names, objects, track.objects, FileHash(track.vendorHash, track.trackHash));
      if track.objectRename != "" {
        var rename := Split(track.objectRename, ':');
        if |rename| < 2 {
          GroupSpecFailsEarly(tracked, i + 1);
          return Err(Panic("index out of range"));
        }
        var interned := GetObjectName(names, rename[0]);
        names := interned.0[rename[0] := interned.1.(dst := rename[1])];
      }
    }
    assert tracked[..|tracked|] == tracked;
    r := Ok(Grouping(names, objects));
  }

  /** The hashes a record gives name: one entry per time the record lists it. */
  function Listed(objects: seq<string>, name: string, fh: FileHash): seq<FileHash>
    decreases |objects|
  {
    if objects == [] then []
    else Listed(objects[..|objects| - 1], name, fh) + (if objects[|objects| - 1] == name then [fh] else [])
  }

  /** The hashes the records give name, in record order. */
  function Hashes(tracked: seq<HashObjectsTracked>, name: string): seq<FileHash>
    decreases |tracked|
  {
    if tracked == [] then []
    else
      var t := tracked[|tracked| - 1];
      Hashes(tracked[..|tracked| - 1], name) + Listed(t.objects, name, HashOf(t))
  }

  /** The destination name ends with: the target of the last rename of name, or name itself. */
  function Destination(tracked: seq<HashObjectsTracked>, name: string): string
    decreases |tracked|
  {
    if tracked == [] then name
    else
      var parts := Split(tracked[|tracked| - 1].objectRename, ':');
      if tracked[|tracked| - 1].objectRename != "" && |parts| >= 2 && parts[0] == name then parts[1]
      else Destination(tracked[..|tracked| - 1], name)
  }

  /** A record whose rename line has no colon. */
  predicate BadRename(t: HashObjectsTracked) {
    t.objectRename != "" && ':' !in t.objectRename
  }

  /** What the maps hold: every list non-empty, every entry named after itself, every listed object interned. */
  predicate WellGrouped(g: Grouping) {
    Interned(g.names) && g.objects.Keys <= g.names.Keys &&
    forall k :: k in g.objects ==> g.objects[k] != []
  }

  /** Adding objects interns their names and leaves every earlier entry as it was. */
  lemma {:induction false} AddObjectsNames(g: Grouping, objects: seq<string>, fh: FileHash)
    ensures var g' := AddObjects(g, objects, fh);
      (forall k :: k in g'.names <==> k in g.names || k in objects) &&
      (forall k :: k in g'.objects <==> k in g.objects || k in objects) &&
      (forall k :: k in g.names ==> g'.names[k] == g.names[k]) &&
      (forall k :: k in g'.names && k !in g.names ==> g'.names[k] == ObjectName(k, k))
    decreases |objects|
  {
    if objects != [] {
      var front := objects[..|objects| - 1];
      var o := objects[|objects| - 1];
      AddObjectsNames(g, front, fh);
      assert forall k :: k in objects <==> k in front || k == o by {
        assert objects == front + [o];
      }
    }
  }

  lemma {:induction false} AddObjectsHashes(g: Grouping, objects: seq<string>, fh: FileHash)
    requires forall k :: k in g.objects ==> g.objects[k] != []
    ensures var g' := AddObjects(g, objects, fh);
      (forall k :: k in g'.objects ==> g'.objects[k] != []) &&
      (forall name :: HashList(g'.objects, name) == HashList(g.objects, name) + Listed(objects, name, fh))
    decreases |objects|
  {
    if objects != [] {
      var front := objects[..|objects| - 1];
      var o := objects[|objects| - 1];
      AddObjectsHashes(g, front, fh);
      var g1 := AddObjects(g, front, fh);
      var m := AddObjects(g, objects, fh).objects;
      assert m == g1.objects[o := HashList(g1.objects, o) + [fh]];
      forall k | k in m
        ensures m[k] != []
      {
        if k == o {
          assert m[k] == HashList(g1.objects, o) + [fh];
        } else {
          assert m[k] == g1.objects[k];
        }
      }
    }
  }

  lemma AddObjectsGrouped(g: Grouping, objects: seq<string>, fh: FileHash)
    requires WellGrouped(g)
    ensures WellGrouped(AddObjects(g, objects, fh))
  {
    AddObjectsNames(g, objects, fh);
    AddObjectsHashes(g, objects, fh);
  }

  lemma ApplyRenameGrouped(g: Grouping, rename: string)
    requires WellGrouped(g)
    requires ApplyRename(g, rename).Ok?
    ensures var g' := ApplyRename(g, rename).value;
      WellGrouped(g') && g'.objects == g.objects && g'.names.Keys >= g.names.Keys &&
      (forall k :: k in g'.names && (rename == "" || k != Split(rename, ':')[0]) ==> k in g.names && g'.names[k] == g.names[k]) &&
      (rename != "" ==> g'.names[Split(rename, ':')[0]].dst == Split(rename, ':')[1])
  {
    if rename != "" {
      GetObjectNameInterned(g.names, Split(rename, ':')[0]);
    }
  }

  /**
   * What the grouping loop builds: each object's list holds one entry per
   * record listing it, in record order; each entry keeps its own name as
   * source and takes as destination the target of the last rename naming it.
   */
  lemma {:induction false} GroupSpecContents(tracked: seq<HashObjectsTracked>)
    requires GroupSpec(tracked).Ok?
    ensures var g := GroupSpec(tracked).value;
      WellGrouped(g) &&
      (forall name :: HashList(g.objects, name) == Hashes(tracked, name)) &&
      (forall k :: k in g.names ==> g.names[k].dst == Destination(tracked, k))
    decreases |tracked|
  {
    if tracked != [] {
      var front := tracked[..|tracked| - 1];
      var t := tracked[|tracked| - 1];
      GroupSpecContents(front);
      var g0 := GroupSpec(front).value;
      AddObjectsNames(g0, t.objects, HashOf(t));
      AddObjectsHashes(g0, t.objects, HashOf(t));
      AddObjectsGrouped(g0, t.objects, HashOf(t));
      var g1 := AddObjects(g0, t.objects, HashOf(t));
      ApplyRenameGrouped(g1, t.objectRename);
      var g := GroupSpec(tracked).value;
      forall k | k in g.names
        ensures g.names[k].dst == Destination(tracked, k)
      {
        var parts := Split(t.objectRename, ':');
        if !(t.objectRename != "" && parts[0] == k) {
          if k !in g0.names {
            assert g1.names[k] == ObjectName(k, k);
            NeverRenamed(front, g0, k);
          }
        }
      }
    }
  }

  /** A name the table has never seen has not been renamed. */
  lemma {:induction false} NeverRenamed(tracked: seq<HashObjectsTracked>, g: Grouping, k: string)
    requires GroupSpec(tracked) == Ok(g)
    requires k !in g.names
    ensures Destination(tracked, k) == k
    decreases |tracked|
  {
    if tracked != [] {
      var front := tracked[..|tracked| - 1];
      var t := tracked[|tracked| - 1];
      var g0 := GroupSpec(front).value;
      AddObjectsNames(g0, t.objects, HashOf(t));
      NeverRenamed(front, g0, k);
    }
  }

  /** One record fails exactly when its rename line has no colon. */
  lemma GroupFails(g: Grouping, t: HashObjectsTracked)
    ensures Group(g, t).Err? <==> BadRename(t)
    ensures Group(g, t).Err? ==> Group(g, t).error == Panic("index out of range")
  {
    SplitPieces(t.objectRename, ':');
  }

  /** The grouping loop fails exactly when some record's rename line has no colon. */
  lemma {:induction false} GroupSpecFails(tracked: seq<HashObjectsTracked>)
    ensures GroupSpec(tracked).Err? <==> exists i :: 0 <= i < |tracked| && BadRename(tracked[i])
    ensures GroupSpec(tracked).Err? ==> GroupSpec(tracked).error == Panic("index out of range")
    decreases |tracked|
  {
    if tracked != [] {
      var front := tracked[..|tracked| - 1];
      var t := tracked[|tracked| - 1];
      GroupSpecFails(front);
      if GroupSpec(front).Ok? {
        GroupFails(GroupSpec(front).value, t);
      }
      if exists i :: 0 <= i < |front| && BadRename(front[i]) {
        var i :| 0 <= i < |front| && BadRename(front[i]);
        assert tracked[i] == front[i];
      }
      if exists i :: 0 <= i < |tracked| && BadRename(tracked[i]) {
        var i :| 0 <= i < |tracked| && BadRename(tracked[i]);
        if i < |front| {
          assert front[i] == tracked[i];
        }
      }
    }
  }

  // searchTrackHash

  /** The test searchTrackHash applies: the first line of the untrimmed message is the marker. */
  predicate IsTrackCommit(c: Commit) {
    Split(c.message, '\n')[0] == Marker
  }

  /** The fields of a ledger commit: every line after the first, trimmed, read under the current key. */
  function TrackFields(c: Commit): seq<Field> {
    Fields("", Split(c.message, '\n')[1..])
  }

  /** The data lines read under key, in order. */
  function Values(fs: seq<Field>, key: string): (r: seq<string>)
    ensures |r| <= |fs|
    decreases |fs|
  {
    if fs == [] then []
    else Values(fs[..|fs| - 1], key) + (if fs[|fs| - 1].key == key then [fs[|fs| - 1].value] else [])
  }

  /** The last data line read under key, or "" when there is none. */
  function LastValue(fs: seq<Field>, key: string): string {
    var v := Values(fs, key);
    if v == [] then "" else v[|v| - 1]
  }

  /** The record of one ledger commit: the last hash line decoded, the commit, the files lines, the last rename line. */
  function RecordOf(c: Commit): HashObjectsTracked {
    var fs := TrackFields(c);
    HashObjectsTracked(NewHash(LastValue(fs, "hash")), c.id, Values(fs, "files"), LastValue(fs, "rename"))
  }

  /** The ledger commits of a log, in log order. */
  function TrackCommits(log: seq<Commit>): (r: seq<Commit>)
    ensures forall c :: c in r ==> c in log && IsTrackCommit(c)
    ensures forall c :: c in log && IsTrackCommit(c) ==> c in r
    decreases |log|
  {
    if log == [] then []
    else
      var front := log[..|log| - 1];
      var c := log[|log| - 1];
      assert forall d :: d in log ==> d in front || d == c;
      TrackCommits(front) + (if IsTrackCommit(c) then [c] else [])
  }

  /** searchTrackHash: one record per ledger commit, in log order. */
  function SearchTrackHashSpec(log: seq<Commit>): (r: seq<HashObjectsTracked>)
    ensures |r| == |TrackCommits(log)|
    ensures forall k :: 0 <= k < |r| ==> r[k] == RecordOf(TrackCommits(log)[k])
  {
    var cs := TrackCommits(log);
    seq(|cs|, i requires 0 <= i < |cs| => RecordOf(cs[i]))
  }

  lemma ValuesAppend(a: seq<Field>, f: Field, key: string)
    ensures Values(a + [f], key) == Values(a, key) + (if f.key == key then [f.value] else [])
  {
    assert (a + [f])[..|a|] == a;
  }

  /** One more line: a key line switches the current key, a data line is read under it. */
  lemma DecodeStep(lines: seq<string>, i: nat)
    requires i < |lines|
    ensures var k := ParseMessageKey(lines[i]);
      var lk := LastKey("", lines[..i]);
      LastKey("", lines[..i + 1]) == (if k.1 then k.0 else lk) &&
      Read("", lines[..i + 1]) == Read("", lines[..i]) + (if k.1 then [] else [Field(lk, lines[i])])
  {
    assert lines[..i + 1] == lines[..i] + [lines[i]];
    ReadAppend("", lines[..i], [lines[i]]);
  }

  /** The variables of searchTrackHash's decoding loop. */
  datatype TrackState = TrackState(lastKey: string, repos: seq<string>, files: seq<string>, hash: string, rename: string)

  /** One trimmed line of the loop. */
  function TrackLine(st: TrackState, line: string): TrackState {
    var key := ParseMessageKey(line);
    if key.1 then st.(lastKey := key.0)
    else if st.lastKey == "repo" then st.(repos := st.repos + [line])
    else if st.lastKey == "hash" then st.(hash := line)
    else if st.lastKey == "files" then st.(files := st.files + [line])
    else if st.lastKey == "rename" then st.(rename := line)
    else st
  }

  /** The loop over trimmed lines, from the empty state. */
  function TrackLines(lines: seq<string>): TrackState
    decreases |lines|
  {
    if lines == [] then TrackState("", [], [], "", "")
    else TrackLine(TrackLines(lines[..|lines| - 1]), lines[|lines| - 1])
  }

  /** The state the loop ends in, as what the ledger reading of the lines yields. */
  function StateOfFields(lastKey: string, fs: seq<Field>): TrackState {
    TrackState(lastKey, Values(fs, "repo"), Values(fs, "files"), LastValue(fs, "hash"), LastValue(fs, "rename"))
  }

  lemma StateStep(lastKey: string, fs: seq<Field>, line: string)
    ensures var key := ParseMessageKey(line);
      TrackLine(StateOfFields(lastKey, fs), line)
        == if key.1 then StateOfFields(key.0, fs) else StateOfFields(lastKey, fs + [Field(lastKey, line)])
  {
    var f := Field(lastKey, line);
    ValuesAppend(fs, f, "repo");
    ValuesAppend(fs, f, "hash");
    ValuesAppend(fs, f, "files");
    ValuesAppend(fs, f, "rename");
  }

  /** The loop keeps every files line, and the last hash and rename lines, of the ledger reading. */
  lemma {:induction false} TrackLinesRead(lines: seq<string>)
    ensures TrackLines(lines) == StateOfFields(LastKey("", lines), Read("", lines))
    decreases |lines|
  {
    if lines != [] {
      var i := |lines| - 1;
      var front := lines[..i];
      assert lines[..i + 1] == lines;
      TrackLinesRead(front);
      DecodeStep(lines, i);
      var key := ParseMessageKey(lines[i]);
      StateStep(LastKey("", front), Read("", front), lines[i]);
      assert TrackLines(lines) == TrackLine(TrackLines(front), lines[i]);
      if key.1 {
        assert Read("", lines) == Read("", front) + [];
        assert Read("", front) + [] == Read("", front);
      }
    } else {
      assert Read("", []) == [];
    }
  }

  /** The record of a ledger commit, from the state the loop ends in. */
  lemma RecordOfLines(c: Commit)
    ensures var st := TrackLines(TrimAll(Split(c.message, '\n')[1..]));
      HashObjectsTracked(NewHash(st.hash), c.id, st.files, st.rename) == RecordOf(c)
  {
    TrackLinesRead(TrimAll(Split(c.message, '\n')[1..]));
  }

  /** One more line of the loop. */
  lemma TrackLinesStep(lines: seq<string>, i: nat)
    requires i < |lines|
    ensures TrackLines(lines[..i + 1]) == TrackLine(TrackLines(lines[..i]), lines[i])
  {
    assert lines[..i + 1][..i] == lines[..i];
  }

  /** The body of searchTrackHash's decoding loop for one trimmed line. */
  method ReadTrackLine(lastKey: string, repos: seq<string>, files: seq<string>, hash: string, rename: string, line: string)
    returns (lastKey': string, repos': seq<string>, files': seq<string>, hash': string, rename': string)
    ensures TrackState(lastKey', repos', files', hash', rename')
      == TrackLine(TrackState(lastKey, repos, files, hash, rename), line)
  {
    lastKey', repos', files', hash', rename' := lastKey, repos, files, hash, rename;
    var key := ParseMessageKey(line);
    if key.1 {
      lastKey' := key.0;
    } else if lastKey == "repo" {
      repos' := repos + [line];
    } else if lastKey == "hash" {
      hash' := line;
    } else if lastKey == "files" {
      files' := files + [line];
    } else if lastKey == "rename" {
      rename' := line;
    }
  }

  /** The decoding loop of searchTrackHash for one ledger commit. */
  method DecodeTrack(c: Commit) returns (rec: HashObjectsTracked)
    requires IsTrackCommit(c)
    ensures rec == RecordOf(c)
  {
    var lines := Split(c.message, '\n');
    var body := lines[1..];
    ghost var trimmed := TrimAll(body);
    var repos: seq<string> := [];
    var files: seq<string> := [];
    var hash := "";
    var rename := "";
    var lastKey := "";
    for i := 0 to |body|
      invariant TrackState(lastKey, repos, files, hash, rename) == TrackLines(trimmed[..i])
    {
      var line := TrimSpace(body[i]);
      TrackLinesStep(trimmed, i);
      lastKey, repos, files, hash, rename := ReadTrackLine(lastKey, repos, files, hash, rename, line);
    }
    assert trimmed[..|body|] == trimmed;
    RecordOfLines(c);
    rec := HashObjectsTracked(NewHash(hash), c.id, files, rename);
  }

  /** One more commit of the log: a record for it when it is a ledger commit. */
  lemma SearchTrackHashStep(log: seq<Commit>, i: nat)
    requires i < |log|
    ensures SearchTrackHashSpec(log[..i + 1])
      == SearchTrackHashSpec(log[..i]) + (if IsTrackCommit(log[i]) then [RecordOf(log[i])] else [])
  {
    var front := log[..i + 1];
    assert front[..|front| - 1] == log[..i] && front[|front| - 1] == log[i];
    var cs0 := TrackCommits(log[..i]);
    var cs1 := TrackCommits(front);
    assert cs1 == cs0 + (if IsTrackCommit(log[i]) then [log[i]] else []);
    var a := SearchTrackHashSpec(front);
    var b := SearchTrackHashSpec(log[..i]) + (if IsTrackCommit(log[i]) then [RecordOf(log[i])] else []);
    forall k | 0 <= k < |a|
      ensures a[k] == b[k]
    {
      if k < |cs0| {
        assert cs1[k] == cs0[k];
      } else {
        assert cs1[k] == log[i];
      }
    }
  }

  /** searchTrackHash over the log, in log order. */
  method SearchTrackHash(log: seq<Commit>) returns (tracks: seq<HashObjectsTracked>)
    ensures tracks == SearchTrackHashSpec(log)
  {
    tracks := [];
    for i := 0 to |log|
      invariant tracks == SearchTrackHashSpec(log[..i])
    {
      var commit := log[i];
      var lines := Split(commit.message, '\n');
      SearchTrackHashStep(log, i);
      if lines[0] == Marker {
        var rec := DecodeTrack(commit);
        tracks := tracks + [rec];
      }
    }
    assert log[..|log|] == log;
  }

  // Track.commit and the round trip

  /** A remote as Track.commit renders it: its name, a colon and its URLs joined by commas. */
  function TrackRemote(name: string, urls: seq<string>): string {
    name + ":" + Join(urls, ",")
  }

  /** The message Track.commit writes: the marker, then at once the repo and hash blocks, then msg. */
  function TrackCommitMessage(remotes: seq<string>, vendorHash: Oid, msg: string): string {
    "fhub-track\nrepo:\n  " + Join(remotes, "\n  ") + "\nhash:\n  " + HexString(vendorHash) + "\n" + msg
  }

  /** The lines before msg: no blank line after the marker. */
  function TrackHeaderLines(remotes: seq<string>, hex: string): seq<string> {
    [Marker, "repo:"] + Prefixed("  ", Utils.RemoteLines(remotes)) + ["hash:", "  " + hex]
  }

  lemma TrackJoinHeader(remotes: seq<string>, hex: string)
    ensures Join(TrackHeaderLines(remotes, hex), "\n")
         == ("fhub-track\nrepo:" + "\n" + ("  " + Join(remotes, "\n  "))) + "\n" + ("hash:\n  " + hex)
  {
    var p := Prefixed("  ", Utils.RemoteLines(remotes));
    var top := [Marker, "repo:"];
    var tail := ["hash:", "  " + hex];
    assert TrackHeaderLines(remotes, hex) == top + p + tail;
    assert Join(top, "\n") == "fhub-track\nrepo:" by {
      assert top[1..] == ["repo:"];
    }
    assert Join(top + p, "\n") == "fhub-track\nrepo:" + "\n" + ("  " + Join(remotes, "\n  ")) by {
      Utils.JoinRemotes(remotes);
      JoinAppend(top, p, "\n");
    }
    assert Join(top + p + tail, "\n") == Join(top + p, "\n") + "\n" + ("hash:\n  " + hex) by {
      Utils.JoinHash(hex);
      JoinAppend(top + p, tail, "\n");
    }
  }

  lemma TrackMessageShape(j: string, hex: string, msg: string)
    ensures "fhub-track\nrepo:\n  " + j + "\nhash:\n  " + hex + "\n" + msg
         == (("fhub-track\nrepo:" + "\n" + ("  " + j)) + "\n" + ("hash:\n  " + hex)) + "\n" + msg
  {
  }

  /** The format string is the header lines and the lines of msg, joined by newlines. */
  lemma TrackFormatJoin(remotes: seq<string>, hex: string, msgLines: seq<string>)
    requires |msgLines| >= 1
    ensures "fhub-track\nrepo:\n  " + Join(remotes, "\n  ") + "\nhash:\n  " + hex + "\n" + Join(msgLines, "\n")
         == Join(TrackHeaderLines(remotes, hex) + msgLines, "\n")
  {
    TrackJoinHeader(remotes, hex);
    JoinAppend(TrackHeaderLines(remotes, hex), msgLines, "\n");
    TrackMessageShape(Join(remotes, "\n  "), hex, Join(msgLines, "\n"));
  }

  /** Splitting Track.commit's message yields its header lines, then the lines of msg. */
  lemma TrackMessageLines(remotes: seq<string>, vendorHash: Oid, msgLines: seq<string>)
    requires |msgLines| >= 1
    requires forall i :: 0 <= i < |remotes| ==> '\n' !in remotes[i]
    requires forall i :: 0 <= i < |msgLines| ==> '\n' !in msgLines[i]
    ensures Split(TrackCommitMessage(remotes, vendorHash, Join(msgLines, "\n")), '\n')
         == TrackHeaderLines(remotes, HexString(vendorHash)) + msgLines
  {
    var hex := HexString(vendorHash);
    TrackFormatJoin(remotes, hex, msgLines);
    var lines := TrackHeaderLines(remotes, hex) + msgLines;
    Utils.HexStringIsData(vendorHash);
    forall i | 0 <= i < |lines| ensures '\n' !in lines[i] {
    }
    SplitJoin(lines, '\n');
  }

  lemma ValuesTagged(key: string, xs: seq<string>, other: string)
    ensures Values(Tagged(key, xs), key) == xs
    ensures other != key ==> Values(Tagged(key, xs), other) == []
  {
    ValuesTaggedInduction(key, xs, other);
  }

  lemma {:induction false} ValuesTaggedInduction(key: string, xs: seq<string>, other: string)
    ensures Values(Tagged(key, xs), key) == xs
    ensures other != key ==> Values(Tagged(key, xs), other) == []
    decreases |xs|
  {
    if xs != [] {
      var front := xs[..|xs| - 1];
      ValuesTaggedInduction(key, front, other);
      assert Tagged(key, xs)[..|xs| - 1] == Tagged(key, front);
    }
  }

  lemma ValuesConcat(a: seq<Field>, b: seq<Field>, key: string)
    ensures Values(a + b, key) == Values(a, key) + Values(b, key)
  {
    ValuesConcatInduction(a, b, key);
  }

  lemma {:induction false} ValuesConcatInduction(a: seq<Field>, b: seq<Field>, key: string)
    ensures Values(a + b, key) == Values(a, key) + Values(b, key)
    decreases |b|
  {
    if b != [] {
      var front := b[..|b| - 1];
      ValuesConcatInduction(a, front, key);
      var ab := a + b;
      var last := if b[|b| - 1].key == key then [b[|b| - 1].value] else [];
      assert ab[..|ab| - 1] == a + front;
      assert ab[|ab| - 1] == b[|b| - 1];
      assert Values(ab, key) == Values(a + front, key) + last;
      assert Values(b, key) == Values(front, key) + last;
    } else {
      assert a + b == a;
    }
  }

  /** The lines of Track.commit's message for a payload: the marker, then the body the update decoder also reads. */
  lemma TrackPayloadLines(remotes: seq<string>, vendorHash: Oid, pairs: seq<string>)
    requires |pairs| >= 1
    requires forall i :: 0 <= i < |remotes| ==> DataLine(remotes[i])
    requires forall i :: 0 <= i < |pairs| ==> DataLine(pairs[i])
    ensures Split(TrackCommitMessage(remotes, vendorHash, ObjectCmd.Payload(pairs)), '\n')
         == [Marker] + RoundTrip.BodyLines(Utils.RemoteLines(remotes), HexString(vendorHash), pairs)
  {
    var msgLines := ["files:"] + Prefixed("  ", pairs);
    ObjectCmd.PayloadLines(pairs);
    assert forall i :: 0 <= i < |msgLines| ==> '\n' !in msgLines[i] by {
      SplitJoin(msgLines, '\n');
    }
    TrackMessageLines(remotes, vendorHash, msgLines);
    TrackHeaderBody(remotes, HexString(vendorHash), msgLines);
  }

  /** The header lines and the payload lines, regrouped as the marker and the body. */
  lemma TrackHeaderBody(remotes: seq<string>, hex: string, msgLines: seq<string>)
    ensures TrackHeaderLines(remotes, hex) + msgLines
         == [Marker] + (["repo:"] + Prefixed("  ", Utils.RemoteLines(remotes)) + (["hash:", "  " + hex] + msgLines))
  {
  }

  /**
   * The ledger tests on Track.commit's message: its first line is the
   * marker, so the decoders' corrected test accepts it, and its second line
   * is "repo:", so it does not have utils.Commit's header.
   */
  lemma TrackMessageMarked(remotes: seq<string>, vendorHash: Oid, pairs: seq<string>)
    requires |pairs| >= 1 && pairs[|pairs| - 1] != ""
    requires forall i :: 0 <= i < |remotes| ==> DataLine(remotes[i])
    requires forall i :: 0 <= i < |pairs| ==> DataLine(pairs[i])
    ensures var lines := MessageLines(TrackCommitMessage(remotes, vendorHash, ObjectCmd.Payload(pairs)));
      IsMarked(lines) && lines[1] == "repo:" && !IsLedger(lines)
  {
    var body := RoundTrip.BodyLines(Utils.RemoteLines(remotes), HexString(vendorHash), pairs);
    TrackMessageLinesOf(remotes, vendorHash, pairs);
    assert body[0] == "repo:";
  }

  /** The lines the ledger decoders see in Track.commit's message: the marker, then the body. */
  lemma TrackMessageLinesOf(remotes: seq<string>, vendorHash: Oid, pairs: seq<string>)
    requires |pairs| >= 1 && pairs[|pairs| - 1] != ""
    requires forall i :: 0 <= i < |remotes| ==> DataLine(remotes[i])
    requires forall i :: 0 <= i < |pairs| ==> DataLine(pairs[i])
    ensures MessageLines(TrackCommitMessage(remotes, vendorHash, ObjectCmd.Payload(pairs)))
         == [Marker] + RoundTrip.BodyLines(Utils.RemoteLines(remotes), HexString(vendorHash), pairs)
  {
    var m := TrackCommitMessage(remotes, vendorHash, ObjectCmd.Payload(pairs));
    var lines := Split(m, '\n');
    var body := RoundTrip.BodyLines(Utils.RemoteLines(remotes), HexString(vendorHash), pairs);
    assert lines == [Marker] + body by {
      TrackPayloadLines(remotes, vendorHash, pairs);
    }
    assert Trimmed(m) by {
      assert lines[|lines| - 1] == "  " + pairs[|pairs| - 1];
      TrimmedByLastLine(m, '\n', "  ", pairs[|pairs| - 1]);
    }
    TrimSpaceOfTrimmed(m);
  }

  /**
   * Track.commit's message read by the update command's decoder. The message
   * starts with the marker, so the decoder reads it, from its third line on:
   * the "repo:" line is skipped and the remotes below it are read under no
   * key. Each listed destination is settled with the vendor hash, the commit
   * and its source path, but with repo "", so the final filter of
   * SearchObjects drops it; and being settled, it is never overwritten by an
   * older utils.Commit ledger for the same path.
   */
  lemma TrackMessageUpdateDecode(t: UpdateObject.MapObject, remotes: seq<string>, vendorHash: Oid,
                                 srcs: seq<string>, dsts: seq<string>, commit: Oid)
    requires |srcs| == |dsts| >= 1
    requires forall i :: 0 <= i < |remotes| ==> DataLine(remotes[i])
    requires forall i :: 0 <= i < |srcs| ==> ':' !in srcs[i] && ':' !in dsts[i] && DataLine(ObjectCmd.Pair(srcs[i], dsts[i]))
    requires forall i :: 0 <= i < |dsts| ==> dsts[i] in t && !UpdateObject.Settled(t[dsts[i]])
    requires RoundTrip.Distinct(dsts)
    ensures var lines := MessageLines(TrackCommitMessage(remotes, vendorHash, ObjectCmd.Payload(ObjectCmd.Zipped(srcs, dsts))));
      IsMarked(lines) &&
      var r := UpdateObject.DecodeSpec(t, lines[2..], commit);
      r.Ok? && r.value.Keys == t.Keys &&
      (forall i :: 0 <= i < |dsts| ==>
        r.value[dsts[i]] == UpdateObject.TrackedObject(Some(vendorHash), Some(commit), srcs[i], t[dsts[i]].deleted, "") &&
        dsts[i] !in UpdateObject.Owned(r.value)) &&
      (forall p :: p in t && p !in dsts ==> r.value[p] == t[p])
  {
    var pairs := ObjectCmd.Zipped(srcs, dsts);
    assert pairs[|pairs| - 1] != "" by {
      assert ':' in pairs[|pairs| - 1];
    }
    assert forall i :: 0 <= i < |pairs| ==> DataLine(pairs[i]);
    TrackMessageFields(remotes, vendorHash, pairs);
    DecodeTrackFields(t, Utils.RemoteLines(remotes), vendorHash, srcs, dsts, commit);
  }

  /** Track.commit's message passes the marker test, and its lines from the third on read as these fields. */
  lemma TrackMessageFields(remotes: seq<string>, vendorHash: Oid, pairs: seq<string>)
    requires |pairs| >= 1 && pairs[|pairs| - 1] != ""
    requires forall i :: 0 <= i < |remotes| ==> DataLine(remotes[i])
    requires forall i :: 0 <= i < |pairs| ==> DataLine(pairs[i])
    ensures var lines := MessageLines(TrackCommitMessage(remotes, vendorHash, ObjectCmd.Payload(pairs)));
      IsMarked(lines) &&
      Fields("", lines[2..]) == Tagged("", Utils.RemoteLines(remotes)) + [Field("hash", HexString(vendorHash))] + Tagged("files", pairs)
  {
    var lines := MessageLines(TrackCommitMessage(remotes, vendorHash, ObjectCmd.Payload(pairs)));
    var rl := Utils.RemoteLines(remotes);
    var hex := HexString(vendorHash);
    var body := RoundTrip.BodyLines(rl, hex, pairs);
    assert lines == [Marker] + body by {
      TrackMessageLinesOf(remotes, vendorHash, pairs);
    }
    assert lines[2..] == body[1..] by {
      ConsDrop(Marker, body);
    }
    assert Fields("", body[1..]) == Tagged("", rl) + [Field("hash", hex)] + Tagged("files", pairs) by {
      Utils.HexStringIsData(vendorHash);
      TrackBodyFields(rl, hex, pairs);
    }
  }

  /** The update decoder on those fields: the unkeyed remotes change nothing, then the hash, then the files. */
  lemma DecodeTrackFields(t: UpdateObject.MapObject, rl: seq<string>, vendorHash: Oid,
                          srcs: seq<string>, dsts: seq<string>, commit: Oid)
    requires |srcs| == |dsts|
    requires forall i :: 0 <= i < |srcs| ==> ':' !in srcs[i] && ':' !in dsts[i]
    requires forall i :: 0 <= i < |dsts| ==> dsts[i] in t && !UpdateObject.Settled(t[dsts[i]])
    requires RoundTrip.Distinct(dsts)
    ensures var fs := Tagged("", rl) + [Field("hash", HexString(vendorHash))] + Tagged("files", ObjectCmd.Zipped(srcs, dsts));
      var r := UpdateObject.ApplyFields(UpdateObject.Decoder(t, "", None), fs, commit);
      r.Ok? && r.value.tracked.Keys == t.Keys &&
      (forall i :: 0 <= i < |dsts| ==>
        r.value.tracked[dsts[i]] == UpdateObject.TrackedObject(Some(vendorHash), Some(commit), srcs[i], t[dsts[i]].deleted, "")) &&
      (forall p :: p in t && p !in dsts ==> r.value.tracked[p] == t[p])
  {
    var hashField := [Field("hash", HexString(vendorHash))];
    var d0 := UpdateObject.Decoder(t, "", None);
    var d2 := d0.(oid := Some(vendorHash));
    assert UpdateObject.ApplyFields(d0, Tagged("", rl) + hashField, commit) == Ok(d2) by {
      UpdateObject.UnkeyedLinesIgnored(d0, rl, commit);
      HashFieldSets(d0, vendorHash, commit);
      RoundTrip.ApplyFieldsAppend(d0, Tagged("", rl), hashField, commit);
    }
    RoundTrip.ApplyFieldsAppend(d0, Tagged("", rl) + hashField, Tagged("files", ObjectCmd.Zipped(srcs, dsts)), commit);
    RoundTrip.FilesLinesRecord(d2, srcs, dsts, commit);
  }

  /** A hash line holding an Oid's text sets the decoder's hash to that Oid. */
  lemma HashFieldSets(d: UpdateObject.Decoder, o: Oid, commit: Oid)
    ensures UpdateObject.ApplyFields(d, [Field("hash", HexString(o))], commit) == Ok(d.(oid := Some(o)))
  {
    NewOidRoundTrip(o);
  }

  /** The fields the update decoder reads from the third line of Track.commit's message on. */
  lemma TrackBodyFields(rl: seq<string>, hex: string, pairs: seq<string>)
    requires forall i :: 0 <= i < |rl| ==> DataLine(rl[i])
    requires forall i :: 0 <= i < |pairs| ==> DataLine(pairs[i])
    requires DataLine(hex)
    ensures Fields("", RoundTrip.BodyLines(rl, hex, pairs)[1..])
         == Tagged("", rl) + [Field("hash", hex)] + Tagged("files", pairs)
  {
    var mid := ["hash:", hex] + (["files:"] + pairs);
    TrimAfterRepo(rl, hex, pairs);
    ReadUnkeyed(rl, mid);
    ReadHashFiles(hex, pairs);
    AppendAssoc(Tagged("", rl), [Field("hash", hex)], Tagged("files", pairs));
  }

  /** Data lines before any key line are read under no key. */
  lemma ReadUnkeyed(xs: seq<string>, rest: seq<string>)
    requires forall i :: 0 <= i < |xs| ==> !IsKeyLine(xs[i])
    ensures Read("", xs + rest) == Tagged("", xs) + Read("", rest)
  {
    ReadAppend("", xs, rest);
    ReadData("", xs);
  }

  /** The hash section, then the files section, read from no key. */
  lemma ReadHashFiles(hex: string, pairs: seq<string>)
    requires !IsKeyLine(hex)
    requires forall i :: 0 <= i < |pairs| ==> !IsKeyLine(pairs[i])
    ensures Read("", ["hash:", hex] + (["files:"] + pairs)) == [Field("hash", hex)] + Tagged("files", pairs)
  {
    RoundTrip.ReadHashSection("", hex, ["files:"] + pairs);
    RoundTrip.ReadFilesSection(pairs);
  }

  lemma AppendAssoc(a: seq<Field>, b: seq<Field>, c: seq<Field>)
    ensures a + (b + c) == a + b + c
  {
  }

  /** The body lines after "repo:", trimmed. */
  lemma TrimAfterRepo(rl: seq<string>, hex: string, pairs: seq<string>)
    requires forall i :: 0 <= i < |rl| ==> DataLine(rl[i])
    requires forall i :: 0 <= i < |pairs| ==> DataLine(pairs[i])
    requires DataLine(hex)
    ensures TrimAll(RoundTrip.BodyLines(rl, hex, pairs)[1..]) == rl + (["hash:", hex] + (["files:"] + pairs))
  {
    var body := RoundTrip.BodyLines(rl, hex, pairs);
    var mid := ["hash:", hex] + (["files:"] + pairs);
    assert TrimAll(body) == ["repo:"] + rl + mid by {
      RoundTrip.BodyTrimmed(rl, hex, pairs);
    }
    assert TrimAll(body[1..]) == TrimAll(body)[1..] by {
      TrimAllTail(body);
    }
    ConsTail("repo:", rl, mid);
  }

  lemma ConsTail(x: string, a: seq<string>, b: seq<string>)
    ensures ([x] + a + b)[1..] == a + b
  {
  }

  lemma ConsDrop(x: string, xs: seq<string>)
    requires |xs| >= 1
    ensures ([x] + xs)[2..] == xs[1..]
  {
  }

  lemma TrimAllTail(xs: seq<string>)
    requires |xs| >= 1
    ensures TrimAll(xs[1..]) == TrimAll(xs)[1..]
  {
  }

  /** What the record takes from the fields of such a message. */
  lemma BodyValues(rl: seq<string>, hex: string, pairs: seq<string>)
    ensures var fs := Tagged("repo", rl) + [Field("hash", hex)] + Tagged("files", pairs);
      Values(fs, "files") == pairs && LastValue(fs, "hash") == hex && LastValue(fs, "rename") == ""
  {
    var head := Tagged("repo", rl) + [Field("hash", hex)];
    ValuesConcat(head, Tagged("files", pairs), "hash");
    ValuesConcat(head, Tagged("files", pairs), "files");
    ValuesConcat(head, Tagged("files", pairs), "rename");
    ValuesAppend(Tagged("repo", rl), Field("hash", hex), "hash");
    ValuesAppend(Tagged("repo", rl), Field("hash", hex), "files");
    ValuesAppend(Tagged("repo", rl), Field("hash", hex), "rename");
    ValuesTagged("repo", rl, "hash");
    ValuesTagged("repo", rl, "files");
    ValuesTagged("repo", rl, "rename");
    ValuesTagged("files", pairs, "hash");
    ValuesTagged("files", pairs, "rename");
  }

  /** The fields of the body: the remote lines under repo, the hash under hash, the pairs under files. */
  lemma BodyLinesFields(rl: seq<string>, hex: string, pairs: seq<string>)
    requires forall i :: 0 <= i < |rl| ==> DataLine(rl[i])
    requires forall i :: 0 <= i < |pairs| ==> DataLine(pairs[i])
    requires DataLine(hex)
    ensures Fields("", RoundTrip.BodyLines(rl, hex, pairs)) == Tagged("repo", rl) + [Field("hash", hex)] + Tagged("files", pairs)
  {
    RoundTrip.BodyTrimmed(rl, hex, pairs);
    RoundTrip.ReadBody(rl, hex, pairs);
  }

  /** A commit whose lines are the marker and a body is a ledger commit, read from that body. */
  lemma RecordOfBody(c: Commit, body: seq<string>)
    requires Split(c.message, '\n') == [Marker] + body
    ensures IsTrackCommit(c)
    ensures TrackFields(c) == Fields("", body)
  {
    assert ([Marker] + body)[1..] == body;
  }

  /**
   * The round trip of the track ledger: a commit whose message Track.commit
   * wrote for trackObject's payload (Payload of the zipped pairs) is a
   * ledger commit, and its record carries the vendor HEAD, the commit
   * itself, every pair in order and no rename.
   */
  lemma TrackCommitRecords(c: Commit, remotes: seq<string>, vendorHash: Oid, pairs: seq<string>)
    requires |pairs| >= 1
    requires forall i :: 0 <= i < |remotes| ==> DataLine(remotes[i])
    requires forall i :: 0 <= i < |pairs| ==> DataLine(pairs[i])
    requires c.message == TrackCommitMessage(remotes, vendorHash, ObjectCmd.Payload(pairs))
    ensures IsTrackCommit(c)
    ensures RecordOf(c) == HashObjectsTracked(vendorHash, c.id, pairs, "")
  {
    TrackPayloadLines(remotes, vendorHash, pairs);
    BodyRecord(c, Utils.RemoteLines(remotes), vendorHash, pairs);
  }

  /** A commit whose lines are the marker and the body of the track ledger. */
  lemma BodyRecord(c: Commit, rl: seq<string>, vendorHash: Oid, pairs: seq<string>)
    requires forall i :: 0 <= i < |rl| ==> DataLine(rl[i])
    requires forall i :: 0 <= i < |pairs| ==> DataLine(pairs[i])
    requires Split(c.message, '\n') == [Marker] + RoundTrip.BodyLines(rl, HexString(vendorHash), pairs)
    ensures IsTrackCommit(c)
    ensures RecordOf(c) == HashObjectsTracked(vendorHash, c.id, pairs, "")
  {
    var hex := HexString(vendorHash);
    var body := RoundTrip.BodyLines(rl, hex, pairs);
    RecordOfBody(c, body);
    assert Fields("", body) == Tagged("repo", rl) + [Field("hash", hex)] + Tagged("files", pairs) by {
      Utils.HexStringIsData(vendorHash);
      BodyLinesFields(rl, hex, pairs);
    }
    BodyValues(rl, hex, pairs);
    RecordFromValues(c, vendorHash, pairs);
  }

  lemma RecordFromValues(c: Commit, vendorHash: Oid, pairs: seq<string>)
    requires Values(TrackFields(c), "files") == pairs
    requires LastValue(TrackFields(c), "hash") == HexString(vendorHash)
    requires LastValue(TrackFields(c), "rename") == ""
    ensures RecordOf(c) == HashObjectsTracked(vendorHash, c.id, pairs, "")
  {
    NewHashRoundTrip(vendorHash);
  }

  /**
   * trackUpdate keys its groups by the files lines themselves: a record read
   * back from trackObject's payload, whose files lines are "src:dst" pairs,
   * interns each pair whole, as both source and destination of one name.
   */
  lemma GroupsKeyedByPairs(rec: HashObjectsTracked, pairs: seq<string>)
    requires rec.objects == pairs && rec.objectRename == ""
    ensures GroupSpec([rec]).Ok?
    ensures var g := GroupSpec([rec]).value;
      forall i :: 0 <= i < |pairs| ==> pairs[i] in g.names && g.names[pairs[i]] == ObjectName(pairs[i], pairs[i])
  {
    assert [rec][..0] == [];
    GroupSpecContents([rec]);
    var g := GroupSpec([rec]).value;
    forall i | 0 <= i < |pairs|
      ensures pairs[i] in g.names && g.names[pairs[i]] == ObjectName(pairs[i], pairs[i])
    {
      ListedContains(pairs, i, HashOf(rec));
      assert Hashes([rec], pairs[i]) == Listed(pairs, pairs[i], HashOf(rec));
      assert HashList(g.objects, pairs[i]) != [];
      assert Destination([rec], pairs[i]) == pairs[i];
    }
  }

  lemma {:induction false} ListedContains(objects: seq<string>, i: nat, fh: FileHash)
    requires i < |objects|
    ensures Listed(objects, objects[i], fh) != []
    decreases |objects|
  {
    if i < |objects| - 1 {
      ListedContains(objects[..|objects| - 1], i, fh);
    }
  }
}
