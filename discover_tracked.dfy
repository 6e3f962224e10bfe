/**
 * internal/track/discover_objects_tracked.go: the older discovery pass that
 * records, for every path the destination history touches, the statuses
 * each commit gave it, and, from the ledger messages, which source commit
 * each listed source path was copied from. The go-git patch of a commit
 * against its first parent is the commit's changes; its tree listing is its
 * files.
 */
module DiscoverTracked {
  import opened Wrappers
  import opened Text
  import opened Hex
  import opened Git
  import opened Ledger

  /** A ledger's source commit and the destination commit that carried it. */
  datatype Pairing = Pairing(src: Oid, dst: Oid)

  /**
   * What the pass knows about one path: the statuses each commit gave it, the
   * pairings recorded under it as a source path, the paths it was seen
   * under, and the repo of the last ledger that named it as a source.
   */
  datatype ObjectsTracked = ObjectsTracked(
    commits: map<Oid, seq<string>>,
    pairing: seq<Pairing>,
    moved: seq<string>,
    repos: string)

  /** Path to what is known about it. */
  type MapObjectTracked = map<string, ObjectsTracked>

  /** The entry a path has, or the empty one prepareObjectTracked starts from. */
  function Entry(tracked: MapObjectTracked, path: string): ObjectsTracked {
    if path in tracked then tracked[path] else ObjectsTracked(map[], [], [], "")
  }

  /** The last element of a non-empty list is x. */
  predicate EndsWith(xs: seq<string>, x: string) {
    |xs| > 0 && xs[|xs| - 1] == x
  }

  /** Append x unless it is already the last element. */
  function Extend(xs: seq<string>, x: string): seq<string> {
    if |xs| == 0 || xs[|xs| - 1] != x then xs + [x] else xs
  }

  /** No two adjacent elements are equal. */
  predicate NoStutter(xs: seq<string>) {
    forall i :: 0 <= i < |xs| - 1 ==> xs[i] != xs[i + 1]
  }

  /**
   * prepareObjectTracked: give path an entry if it has none, note status
   * under hash unless it is the last status noted there, note path in moved
   * unless it is the last path noted there, and store the entry back.
   */
  function PrepareObjectTracked(tracked: MapObjectTracked, hash: Oid, path: string, status: string): (r: MapObjectTracked)
    ensures r.Keys == tracked.Keys + {path}
    ensures forall p :: p in tracked && p != path ==> r[p] == tracked[p]
    ensures r[path].pairing == Entry(tracked, path).pairing && r[path].repos == Entry(tracked, path).repos
    ensures r[path].commits.Keys == Entry(tracked, path).commits.Keys + {hash}
    ensures forall h :: h in Entry(tracked, path).commits && h != hash ==>
      r[path].commits[h] == Entry(tracked, path).commits[h]
    ensures EndsWith(r[path].commits[hash], status)
    ensures EndsWith(r[path].moved, path)
  {
    var o := Entry(tracked, path);
    var commits := if hash in o.commits then o.commits[hash := Extend(o.commits[hash], status)]
                   else o.commits[hash := [status]];
    tracked[path := o.(commits := commits, moved := Extend(o.moved, path))]
  }

  /** prepareObjectTracked, statement by statement on the entry it updates. */
  method PrepareObject(tracked: MapObjectTracked, hash: Oid, path: string, status: string) returns (t: MapObjectTracked)
    ensures t == PrepareObjectTracked(tracked, hash, path, status)
  {
    var o := ObjectsTracked(map[], [], [], "");
    if path in tracked {
      o := tracked[path];
    }
    if hash in o.commits {
      var commits := o.commits[hash];
      if |commits| == 0 || commits[|commits| - 1] != status {
        o := o.(commits := o.commits[hash := commits + [status]]);
      } else {
        assert o.commits[hash := Extend(commits, status)] == o.commits;
      }
    } else {
      o := o.(commits := o.commits[hash := [status]]);
    }
    if |o.moved| == 0 || o.moved[|o.moved| - 1] != path {
      o := o.(moved := o.moved + [path]);
    }
    t := tracked[path := o];
  }

  /**
   * The status history under one commit: a repeated status is not noted
   * again, any other is appended.
   */
  lemma PrepareStatusHistory(tracked: MapObjectTracked, hash: Oid, path: string, status: string)
    ensures var before := Entry(tracked, path).commits;
      var after := PrepareObjectTracked(tracked, hash, path, status)[path].commits;
      (hash in before && EndsWith(before[hash], status) ==> after == before) &&
      (hash in before && !EndsWith(before[hash], status) ==> after[hash] == before[hash] + [status]) &&
      (hash !in before ==> after[hash] == [status])
  {
  }

  /** Preparing a path twice with the same commit and status is preparing it once. */
  lemma PrepareIdempotent(tracked: MapObjectTracked, hash: Oid, path: string, status: string)
    ensures var once := PrepareObjectTracked(tracked, hash, path, status);
      PrepareObjectTracked(once, hash, path, status) == once
  {
    var once := PrepareObjectTracked(tracked, hash, path, status);
    var o := once[path];
    assert o.commits[hash := Extend(o.commits[hash], status)] == o.commits;
    assert o.(commits := o.commits, moved := Extend(o.moved, path)) == o;
  }

  /**
   * The shape every entry keeps: the only path it was ever seen under is its
   * own, and under every commit it has a non-empty status history with no
   * status repeated back to back.
   */
  predicate WellTracked(tracked: MapObjectTracked) {
    forall p :: p in tracked ==>
      tracked[p].moved == [p] &&
      forall h :: h in tracked[p].commits ==> tracked[p].commits[h] != [] && NoStutter(tracked[p].commits[h])
  }

  lemma ExtendNoStutter(xs: seq<string>, x: string)
    requires NoStutter(xs)
    ensures NoStutter(Extend(xs, x)) && Extend(xs, x) != []
  {
  }

  /** prepareObjectTracked keeps every entry well shaped; in particular moved never records a move. */
  lemma PrepareWellTracked(tracked: MapObjectTracked, hash: Oid, path: string, status: string)
    requires WellTracked(tracked)
    ensures WellTracked(PrepareObjectTracked(tracked, hash, path, status))
  {
    var r := PrepareObjectTracked(tracked, hash, path, status);
    var o := Entry(tracked, path);
    if hash in o.commits {
      ExtendNoStutter(o.commits[hash], status);
    }
    assert r[path].moved == [path];
  }

  // filePatchStatus.

  /** The paths and status filePatchStatus reports for one file patch. */
  datatype PatchStatus = PatchStatus(pathFrom: string, pathTo: string, status: string)

  /**
   * filePatchStatus as written: add and delete report the one path twice; a
   * patch with both sides reports the old path twice, so a rename loses its
   * new path.
   */
  function FilePatchStatusAsWritten(change: Change): (r: Result<PatchStatus>)
    ensures r.Err? <==> change.from.None? && change.to.None?
    ensures r.Err? ==> r.error == FailGetPatches
    ensures r.Ok? ==> r.value.pathFrom == r.value.pathTo
    ensures r.Ok? ==> r.value.pathFrom == (if change.from.Some? then change.from.value else change.to.value)
  {
    if change.from.None? && change.to.Some? then
      Ok(PatchStatus(change.to.value, change.to.value, "add"))
    else if change.from.Some? && change.to.None? then
      Ok(PatchStatus(change.from.value, change.from.value, "delete"))
    else if change.from.Some? && change.to.Some? then
      Ok(PatchStatus(change.from.value, change.from.value,
                     if change.from.value != change.to.value then "rename" else "change"))
    else Err(FailGetPatches)
  }

  /** filePatchStatus with the new path reported as the new path. */
  function FilePatchStatus(change: Change): (r: Result<PatchStatus>)
    ensures r.Err? <==> change.from.None? && change.to.None?
    ensures r.Err? ==> r.error == FailGetPatches
    ensures r.Ok? ==> r.value.pathFrom == (if change.from.Some? then change.from.value else change.to.value)
    ensures r.Ok? ==> r.value.pathTo == (if change.to.Some? then change.to.value else change.from.value)
  {
    if change.from.None? && change.to.Some? then
      Ok(PatchStatus(change.to.value, change.to.value, "add"))
    else if change.from.Some? && change.to.None? then
      Ok(PatchStatus(change.from.value, change.from.value, "delete"))
    else if change.from.Some? && change.to.Some? then
      Ok(PatchStatus(change.from.value, change.to.value,
                     if change.from.value != change.to.value then "rename" else "change"))
    else Err(FailGetPatches)
  }

  /** The status of a patch: added, deleted, renamed exactly when both paths differ, changed otherwise. */
  lemma FilePatchStatusKinds(change: Change)
    requires change.from.Some? || change.to.Some?
    ensures var s := FilePatchStatus(change).value.status;
      (s == "add" <==> change.from.None?) &&
      (s == "delete" <==> change.to.None?) &&
      (s == "rename" <==> change.from.Some? && change.to.Some? && change.from.value != change.to.value) &&
      (s == "change" <==> change.from.Some? && change.to.Some? && change.from.value == change.to.value)
    ensures FilePatchStatusAsWritten(change).value.status == FilePatchStatus(change).value.status
  {
  }

  /** What the patch loop does with one file patch: prepare its old path, then its new path. */
  function RecordPatch(tracked: MapObjectTracked, hash: Oid, s: PatchStatus): MapObjectTracked {
    PrepareObjectTracked(PrepareObjectTracked(tracked, hash, s.pathFrom, s.status), hash, s.pathTo, s.status)
  }

  /**
   * A rename from a to b: as written, only a is ever prepared (the second
   * call repeats the first and changes nothing), so b gets no entry; with the
   * new path reported, both get one.
   */
  lemma RenameLosesNewPath(tracked: MapObjectTracked, hash: Oid, a: string, b: string)
    requires a != b && b !in tracked
    ensures var s := FilePatchStatusAsWritten(Change(Some(a), Some(b))).value;
      s == PatchStatus(a, a, "rename") &&
      RecordPatch(tracked, hash, s) == PrepareObjectTracked(tracked, hash, a, "rename") &&
      b !in RecordPatch(tracked, hash, s)
    ensures var s := FilePatchStatus(Change(Some(a), Some(b))).value;
      s == PatchStatus(a, b, "rename") && b in RecordPatch(tracked, hash, s)
  {
    PrepareIdempotent(tracked, hash, a, "rename");
  }

  /** The concrete instance: the rename of "old.go" to "new.go" into an empty map. */
  lemma RenameLosesNewPathExample(hash: Oid)
    ensures RecordPatch(map[], hash, FilePatchStatusAsWritten(Change(Some("old.go"), Some("new.go"))).value).Keys == {"old.go"}
    ensures RecordPatch(map[], hash, FilePatchStatus(Change(Some("old.go"), Some("new.go"))).value).Keys == {"old.go", "new.go"}
  {
    RenameLosesNewPath(map[], hash, "old.go", "new.go");
  }

  // addTrack.

  /**
   * addTrack: a files line must split at ':' into exactly two paths; both are
   * prepared with status under the destination commit, and the source path
   * gets the pairing appended and the repo set.
   */
  function AddTrack(tracked: MapObjectTracked, line: string, status: string, repo: string,
                    srcHash: Oid, dstHash: Oid): (r: Result<MapObjectTracked>)
    ensures r.Err? <==> |Split(line, ':')| != 2
    ensures r.Err? ==> r.error == InvalidKindLine(status, line)
    ensures r.Ok? ==> r.value.Keys == tracked.Keys + {Split(line, ':')[0], Split(line, ':')[1]}
    ensures r.Ok? ==> forall p :: p in tracked && p != Split(line, ':')[0] && p != Split(line, ':')[1] ==>
      r.value[p] == tracked[p]
  {
    var objects := Split(line, ':');
    if |objects| != 2 then Err(InvalidKindLine(status, line))
    else
      var t := PrepareObjectTracked(PrepareObjectTracked(tracked, dstHash, objects[0], status), dstHash, objects[1], status);
      var o := t[objects[0]];
      Ok(t[objects[0] := o.(pairing := o.pairing + [Pairing(srcHash, dstHash)], repos := repo)])
  }

  /** addTrack, statement by statement. */
  method AddTrackStep(tracked: MapObjectTracked, line: string, status: string, repo: string,
                      srcHash: Oid, dstHash: Oid) returns (r: Result<MapObjectTracked>)
    ensures r == AddTrack(tracked, line, status, repo, srcHash, dstHash)
  {
    var objects := Split(line, ':');
    if |objects| != 2 {
      return Err(InvalidKindLine(status, line));
    }
    var t := PrepareObject(tracked, dstHash, objects[0], status);
    t := PrepareObject(t, dstHash, objects[1], status);
    var o := t[objects[0]];
    o := o.(pairing := o.pairing + [Pairing(srcHash, dstHash)]);
    o := o.(repos := repo);
    t := t[objects[0] := o];
    r := Ok(t);
  }

  /**
   * A line src:dst: the source path ends up with the pairing appended and the
   * repo set, both paths have status as the last status under the
   * destination commit, and a distinct destination path keeps the pairings
   * and repo it had.
   */
  lemma AddTrackPair(tracked: MapObjectTracked, src: string, dst: string, status: string, repo: string,
                     srcHash: Oid, dstHash: Oid)
    requires ':' !in src && ':' !in dst
    ensures AddTrack(tracked, src + ":" + dst, status, repo, srcHash, dstHash).Ok?
    ensures var r := AddTrack(tracked, src + ":" + dst, status, repo, srcHash, dstHash).value;
      r.Keys == tracked.Keys + {src, dst} &&
      r[src].pairing == Entry(tracked, src).pairing + [Pairing(srcHash, dstHash)] &&
      r[src].repos == repo &&
      dstHash in r[src].commits && EndsWith(r[src].commits[dstHash], status) &&
      dstHash in r[dst].commits && EndsWith(r[dst].commits[dstHash], status) &&
      (src != dst ==> r[dst].pairing == Entry(tracked, dst).pairing && r[dst].repos == Entry(tracked, dst).repos)
  {
    SplitAround(src, dst, ':');
    SplitNoSep(dst, ':');
    assert src + ":" + dst == src + [':'] + dst;
    var t1 := PrepareObjectTracked(tracked, dstHash, src, status);
    if src == dst {
      PrepareIdempotent(tracked, dstHash, src, status);
    }
  }

  /** addTrack keeps every entry well shaped. */
  lemma AddTrackWellTracked(tracked: MapObjectTracked, line: string, status: string, repo: string,
                            srcHash: Oid, dstHash: Oid)
    requires WellTracked(tracked)
    requires AddTrack(tracked, line, status, repo, srcHash, dstHash).Ok?
    ensures WellTracked(AddTrack(tracked, line, status, repo, srcHash, dstHash).value)
  {
    var objects := Split(line, ':');
    var t1 := PrepareObjectTracked(tracked, dstHash, objects[0], status);
    var t2 := PrepareObjectTracked(t1, dstHash, objects[1], status);
    PrepareWellTracked(tracked, dstHash, objects[0], status);
    PrepareWellTracked(t1, dstHash, objects[1], status);
    var o := t2[objects[0]];
    ReplaceWellTracked(t2, objects[0], o.(pairing := o.pairing + [Pairing(srcHash, dstHash)], repos := repo));
  }

  /** Replacing an entry by one with the same statuses and moved list keeps the map well shaped. */
  lemma ReplaceWellTracked(tracked: MapObjectTracked, path: string, o: ObjectsTracked)
    requires WellTracked(tracked) && path in tracked
    requires o.moved == tracked[path].moved && o.commits == tracked[path].commits
    ensures WellTracked(tracked[path := o])
  {
  }

  // commitIter.

  /** The patch loop: each file patch's paths prepared in turn, stopping at a patch with neither side. */
  function RecordChanges(tracked: MapObjectTracked, hash: Oid, changes: seq<Change>): Result<MapObjectTracked>
    decreases |changes|
  {
    if changes == [] then Ok(tracked)
    else
      match FilePatchStatus(changes[0])
      case Err(e) => Err(e)
      case Ok(s) => RecordChanges(RecordPatch(tracked, hash, s), hash, changes[1..])
  }

  /** The root commit's loop: every file of the tree prepared as added. */
  function RecordFiles(tracked: MapObjectTracked, hash: Oid, files: seq<string>): MapObjectTracked
    decreases |files|
  {
    if files == [] then tracked
    else RecordFiles(PrepareObjectTracked(tracked, hash, files[0], "add"), hash, files[1..])
  }

  /** The state of the ledger loop besides the map: the last repo line and the last hash line. */
  datatype Decoder = Decoder(tracked: MapObjectTracked, repo: string, hash: Oid)

  /** One data line of the ledger loop, under its key. */
  function ApplyField(d: Decoder, f: Field, commit: Oid): Result<Decoder> {
    if f.key == "repo" then Ok(d.(repo := f.value))
    else if f.key == "hash" then Ok(d.(hash := NewHash(f.value)))
    else if f.key == "files" then
      match AddTrack(d.tracked, f.value, "track", d.repo, d.hash, commit)
      case Err(e) => Err(e)
      case Ok(t) => Ok(d.(tracked := t))
    else if f.key == "move" then Err(Panic("implement move"))
    else Ok(d)
  }

  /** The ledger loop over the data lines of a body, stopping at the first error. */
  function ApplyFields(d: Decoder, fs: seq<Field>, commit: Oid): Result<Decoder>
    decreases |fs|
  {
    if fs == [] then Ok(d)
    else
      match ApplyField(d, fs[0], commit)
      case Err(e) => Err(e)
      case Ok(d') => ApplyFields(d', fs[1..], commit)
  }

  /** The ledger loop's outcome on a body, from no repo and the zero hash. */
  function DecodeSpec(t: MapObjectTracked, body: seq<string>, commit: Oid): Result<MapObjectTracked> {
    match ApplyFields(Decoder(t, "", ZeroHash), Fields("", body), commit)
    case Err(e) => Err(e)
    case Ok(d) => Ok(d.tracked)
  }

  /** The statuses a commit gives the paths it touches: its patch against its first parent, or its whole tree. */
  function RecordCommit(tracked: MapObjectTracked, c: Commit): Result<MapObjectTracked> {
    if |c.parents| > 0 then RecordChanges(tracked, c.id, c.changes)
    else Ok(RecordFiles(tracked, c.id, c.files))
  }

  /**
   * commitIter: record the statuses, then, for a message whose first line is
   * the marker, apply its body. The parents the caller looked up only decide whether there is a
   * first parent to take the patch against.
   */
  function CommitIterSpec(tracked: MapObjectTracked, c: Commit): Result<MapObjectTracked> {
    match RecordCommit(tracked, c)
    case Err(e) => Err(e)
    case Ok(t) =>
      var lines := MessageLines(c.message);
      if !IsMarked(lines) then Ok(t)
      else DecodeSpec(t, lines[2..], c.id)
  }

  /** commitIter with the ledger test as written (marker OR blank second line). */
  function CommitIterAsWritten(tracked: MapObjectTracked, c: Commit): Result<MapObjectTracked> {
    match RecordCommit(tracked, c)
    case Err(e) => Err(e)
    case Ok(t) =>
      var lines := MessageLines(c.message);
      if !IsLedgerAsWritten(lines) then Ok(t)
      else DecodeSpec(t, lines[2..], c.id)
  }

  /** The patch loop of commitIter. */
  method RecordChangesLoop(tracked: MapObjectTracked, hash: Oid, changes: seq<Change>) returns (r: Result<MapObjectTracked>)
    ensures r == RecordChanges(tracked, hash, changes)
  {
    var t := tracked;
    var i := 0;
    while i < |changes|
      invariant 0 <= i <= |changes|
      invariant RecordChanges(tracked, hash, changes) == RecordChanges(t, hash, changes[i..])
    {
      assert changes[i..][1..] == changes[i + 1..];
      var s := FilePatchStatus(changes[i]);
      if s.Err? {
        return Err(s.error);
      }
      t := PrepareObject(t, hash, s.value.pathFrom, s.value.status);
      t := PrepareObject(t, hash, s.value.pathTo, s.value.status);
      i := i + 1;
    }
    assert changes[|changes|..] == [];
    r := Ok(t);
  }

  /** The tree loop of commitIter for a root commit. */
  method RecordFilesLoop(tracked: MapObjectTracked, hash: Oid, files: seq<string>) returns (t: MapObjectTracked)
    ensures t == RecordFiles(tracked, hash, files)
  {
    t := tracked;
    var i := 0;
    while i < |files|
      invariant 0 <= i <= |files|
      invariant RecordFiles(tracked, hash, files) == RecordFiles(t, hash, files[i..])
    {
      assert files[i..][1..] == files[i + 1..];
      t := PrepareObject(t, hash, files[i], "add");
      i := i + 1;
    }
    assert files[|files|..] == [];
  }

  /** One data line of commitIter's ledger loop, branching on the key it falls under. */
  method ApplyLine(tracked: MapObjectTracked, repo: string, hash: Oid, lastKey: string, line: string, commit: Oid)
    returns (r: Result<Decoder>)
    ensures r == ApplyField(Decoder(tracked, repo, hash), Field(lastKey, line), commit)
  {
    if lastKey == "repo" {
      r := Ok(Decoder(tracked, line, hash));
    } else if lastKey == "hash" {
      r := Ok(Decoder(tracked, repo, NewHash(line)));
    } else if lastKey == "files" {
      var added := AddTrackStep(tracked, line, "track", repo, hash, commit);
      if added.Err? {
        return Err(added.error);
      }
      r := Ok(Decoder(added.value, repo, hash));
    } else if lastKey == "move" {
      r := Err(Panic("implement move"));
    } else {
      r := Ok(Decoder(tracked, repo, hash));
    }
  }

  /** The ledger loop of commitIter over the body lines, with the current key in lastKey. */
  method DecodeBody(t: MapObjectTracked, body: seq<string>, commit: Oid) returns (r: Result<MapObjectTracked>)
    ensures r == DecodeSpec(t, body, commit)
  {
    var trimmed := TrimAll(body);
    var tracked := t;
    var repo := "";
    var hash := ZeroHash;
    var lastKey := "";
    var j := 0;
    while j < |body|
      invariant 0 <= j <= |body|
      invariant ApplyFields(Decoder(t, "", ZeroHash), Fields("", body), commit)
             == ApplyFields(Decoder(tracked, repo, hash), Read(lastKey, trimmed[j..]), commit)
    {
      assert trimmed[j..][1..] == trimmed[j + 1..];
      var line := TrimSpace(body[j]);
      var key := ParseMessageKey(line);
      if key.1 {
        lastKey := key.0;
      } else {
        var f := Field(lastKey, line);
        assert Read(lastKey, trimmed[j..]) == [f] + Read(lastKey, trimmed[j + 1..]);
        assert ([f] + Read(lastKey, trimmed[j + 1..]))[1..] == Read(lastKey, trimmed[j + 1..]);
        var d := ApplyLine(tracked, repo, hash, lastKey, line, commit);
        if d.Err? {
          return Err(d.error);
        }
        tracked, repo, hash := d.value.tracked, d.value.repo, d.value.hash;
      }
      j := j + 1;
    }
    assert trimmed[|body|..] == [];
    return Ok(tracked);
  }

  /** commitIter, as the loops the source runs. */
  method CommitIter(tracked: MapObjectTracked, c: Commit) returns (r: Result<MapObjectTracked>)
    ensures r == CommitIterSpec(tracked, c)
  {
    var t: MapObjectTracked;
    if |c.parents| > 0 {
      var recorded := RecordChangesLoop(tracked, c.id, c.changes);
      if recorded.Err? {
        return Err(recorded.error);
      }
      t := recorded.value;
    } else {
      t := RecordFilesLoop(tracked, c.id, c.files);
    }
    var lines := MessageLines(c.message);
    if !IsMarked(lines) {
      return Ok(t);
    }
    r := DecodeBody(t, lines[2..], c.id);
  }

  // searchObjects.

  /** Every entry of a queue is a commit that was found. */
  predicate AllFound(q: seq<Option<Commit>>) {
    forall i :: 0 <= i < |q| ==> q[i].Some?
  }

  /** The eager parent lookups of searchObjects: all parents, or the error of the first that is missing. */
  function ParentsSpec(store: Store, c: Commit): (r: Result<seq<Option<Commit>>>)
    ensures r.Ok? ==> AllFound(r.value)
  {
    if AllFound(ParentLookups(store, c)) then Ok(ParentLookups(store, c)) else Err(MissingCommit)
  }

  /**
   * The walk of searchObjects: take the front commit, look up all of its
   * parents, append them to the back of the queue and process the commit.
   * Nothing remembers which commits were seen.
   */
  function Walk(store: Store, tracked: MapObjectTracked, queue: seq<Option<Commit>>): Result<MapObjectTracked>
    requires WellFormed(store) && QueueStored(store, queue) && AllFound(queue)
    decreases QueueWeight(store, queue)
  {
    if queue == [] then Ok(tracked)
    else
      var c := queue[0].value;
      match ParentsSpec(store, c)
      case Err(e) => Err(e)
      case Ok(parents) =>
        match CommitIterSpec(tracked, c)
        case Err(e) => Err(e)
        case Ok(t) =>
          NextQueue(store, queue, parents);
          Walk(store, t, queue[1..] + parents)
  }

  /** The queue after one round: the rest of the queue and the front commit's parents, all found and with less work left. */
  lemma NextQueue(store: Store, queue: seq<Option<Commit>>, parents: seq<Option<Commit>>)
    requires WellFormed(store) && QueueStored(store, queue) && AllFound(queue) && queue != []
    requires ParentsSpec(store, queue[0].value) == Ok(parents)
    ensures QueueStored(store, queue[1..] + parents) && AllFound(queue[1..] + parents)
    ensures QueueWeight(store, queue[1..] + parents) < QueueWeight(store, queue)
  {
    var c := queue[0].value;
    assert parents == ParentLookups(store, c);
    ParentsWeight(store, c);
    QueueWeightAppend(store, queue[1..], parents);
    AllFoundAppend(queue[1..], parents);
  }

  lemma AllFoundAppend(a: seq<Option<Commit>>, b: seq<Option<Commit>>)
    requires AllFound(a) && AllFound(b)
    ensures AllFound(a + b)
  {
    forall i | 0 <= i < |a + b|
      ensures (a + b)[i].Some?
    {
      if i < |a| {
        assert (a + b)[i] == a[i];
      } else {
        assert (a + b)[i] == b[i - |a|];
      }
    }
  }

  /** searchObjects from the commit start names. */
  function SearchObjectsSpec(store: Store, start: Oid): Result<MapObjectTracked>
    requires WellFormed(store)
  {
    if start !in store then Err(MissingCommit)
    else
      LookupStored(store, start);
      Walk(store, map[], [Some(store[start])])
  }

  /** The parent loop of searchObjects: each parent looked up in turn, returning at the first failure. */
  method LookupParents(store: Store, c: Commit) returns (r: Result<seq<Option<Commit>>>)
    ensures r == ParentsSpec(store, c)
  {
    var parents: seq<Option<Commit>> := [];
    for i := 0 to |c.parents|
      invariant parents == ParentLookups(store, c)[..i]
      invariant AllFound(parents)
    {
      var commit := Lookup(store, c.parents[i]);
      if commit.None? {
        assert !AllFound(ParentLookups(store, c)) by {
          assert ParentLookups(store, c)[i].None?;
        }
        return Err(MissingCommit);
      }
      parents := parents + [commit];
    }
    assert parents == ParentLookups(store, c);
    r := Ok(parents);
  }

  /** One round of the walk: a failed parent lookup or commit ends it with that error, otherwise it goes on with the rest of the queue and the parents. */
  lemma WalkStep(store: Store, tracked: MapObjectTracked, queue: seq<Option<Commit>>)
    requires WellFormed(store) && QueueStored(store, queue) && AllFound(queue) && queue != []
    ensures var c := queue[0].value;
      ParentsSpec(store, c).Err? ==> Walk(store, tracked, queue) == Err(ParentsSpec(store, c).error)
    ensures var c := queue[0].value;
      ParentsSpec(store, c).Ok? && CommitIterSpec(tracked, c).Err? ==> Walk(store, tracked, queue) == Err(CommitIterSpec(tracked, c).error)
    ensures var c := queue[0].value;
      ParentsSpec(store, c).Ok? && CommitIterSpec(tracked, c).Ok? ==>
        var next := queue[1..] + ParentsSpec(store, c).value;
        QueueStored(store, next) && AllFound(next) && QueueWeight(store, next) < QueueWeight(store, queue) &&
        Walk(store, tracked, queue) == Walk(store, CommitIterSpec(tracked, c).value, next)
  {
    var c := queue[0].value;
    if ParentsSpec(store, c).Ok? {
      NextQueue(store, queue, ParentsSpec(store, c).value);
    }
  }

  /** searchObjects: the queue walk from start. */
  method SearchObjects(store: Store, start: Oid) returns (r: Result<MapObjectTracked>)
    requires WellFormed(store)
    ensures r == SearchObjectsSpec(store, start)
  {
    var first := Lookup(store, start);
    if first.None? {
      return Err(MissingCommit);
    }
    LookupStored(store, start);
    var queue := [first];
    var tracked: MapObjectTracked := map[];
    while queue != []
      invariant QueueStored(store, queue) && AllFound(queue)
      invariant SearchObjectsSpec(store, start) == Walk(store, tracked, queue)
      decreases QueueWeight(store, queue)
    {
      var c := queue[0].value;
      WalkStep(store, tracked, queue);
      var parents := LookupParents(store, c);
      if parents.Err? {
        return Err(parents.error);
      }
      var next := CommitIter(tracked, c);
      if next.Err? {
        return Err(next.error);
      }
      // The source appends the parents before processing the commit; the values are the same.
      queue := queue[1..] + parents.value;
      tracked := next.value;
    }
    return Ok(tracked);
  }

  // The shape of the map over the whole walk.

  lemma {:induction false} RecordChangesWellTracked(tracked: MapObjectTracked, hash: Oid, changes: seq<Change>)
    requires WellTracked(tracked) && RecordChanges(tracked, hash, changes).Ok?
    ensures WellTracked(RecordChanges(tracked, hash, changes).value)
    decreases |changes|
  {
    if changes != [] {
      var s := FilePatchStatus(changes[0]).value;
      PrepareWellTracked(tracked, hash, s.pathFrom, s.status);
      PrepareWellTracked(PrepareObjectTracked(tracked, hash, s.pathFrom, s.status), hash, s.pathTo, s.status);
      RecordChangesWellTracked(RecordPatch(tracked, hash, s), hash, changes[1..]);
    }
  }

  lemma {:induction false} RecordFilesWellTracked(tracked: MapObjectTracked, hash: Oid, files: seq<string>)
    requires WellTracked(tracked)
    ensures WellTracked(RecordFiles(tracked, hash, files))
    decreases |files|
  {
    if files != [] {
      PrepareWellTracked(tracked, hash, files[0], "add");
      RecordFilesWellTracked(PrepareObjectTracked(tracked, hash, files[0], "add"), hash, files[1..]);
    }
  }

  lemma {:induction false} ApplyFieldsWellTracked(d: Decoder, fs: seq<Field>, commit: Oid)
    requires WellTracked(d.tracked) && ApplyFields(d, fs, commit).Ok?
    ensures WellTracked(ApplyFields(d, fs, commit).value.tracked)
    decreases |fs|
  {
    if fs != [] {
      var f := fs[0];
      if f.key == "files" {
        AddTrackWellTracked(d.tracked, f.value, "track", d.repo, d.hash, commit);
      }
      ApplyFieldsWellTracked(ApplyField(d, f, commit).value, fs[1..], commit);
    }
  }

  /** commitIter keeps every entry well shaped. */
  lemma CommitIterWellTracked(tracked: MapObjectTracked, c: Commit)
    requires WellTracked(tracked) && CommitIterSpec(tracked, c).Ok?
    ensures WellTracked(CommitIterSpec(tracked, c).value)
  {
    if |c.parents| > 0 {
      RecordChangesWellTracked(tracked, c.id, c.changes);
    } else {
      RecordFilesWellTracked(tracked, c.id, c.files);
    }
    var t := RecordCommit(tracked, c).value;
    var lines := MessageLines(c.message);
    if IsMarked(lines) {
      ApplyFieldsWellTracked(Decoder(t, "", ZeroHash), Fields("", lines[2..]), c.id);
    }
  }

  /** Over the whole walk, every entry keeps its shape. */
  lemma {:induction false} WalkWellTracked(store: Store, tracked: MapObjectTracked, queue: seq<Option<Commit>>)
    requires WellFormed(store) && QueueStored(store, queue) && AllFound(queue)
    requires WellTracked(tracked) && Walk(store, tracked, queue).Ok?
    ensures WellTracked(Walk(store, tracked, queue).value)
    decreases QueueWeight(store, queue)
  {
    if queue != [] {
      var c := queue[0].value;
      WalkStep(store, tracked, queue);
      CommitIterWellTracked(tracked, c);
      WalkWellTracked(store, CommitIterSpec(tracked, c).value, queue[1..] + ParentsSpec(store, c).value);
    }
  }

  /** The map searchObjects returns: every entry's moved list is its own path alone. */
  lemma SearchObjectsNeverMoves(store: Store, start: Oid)
    requires WellFormed(store) && SearchObjectsSpec(store, start).Ok?
    ensures forall p :: p in SearchObjectsSpec(store, start).value ==> SearchObjectsSpec(store, start).value[p].moved == [p]
  {
    LookupStored(store, start);
    WalkWellTracked(store, map[], [Some(store[start])]);
  }

  // The ledger loop.

  /**
   * Decoding a ledger body never reaches the "move" branch. This file's
   * ledger loop repeats the one of discover_track_object.go, so this lemma
   * and DecodeNeverPanics mirror DiscoverTrack's on this pass's own decoder.
   */
  lemma {:induction false} ApplyFieldsNeverPanics(d: Decoder, fs: seq<Field>, commit: Oid)
    requires forall i :: 0 <= i < |fs| ==> fs[i].key == "" || IsLabel(fs[i].key)
    ensures !(ApplyFields(d, fs, commit).Err? && ApplyFields(d, fs, commit).error.Panic?)
    decreases |fs|
  {
    if fs != [] && ApplyField(d, fs[0], commit).Ok? {
      ApplyFieldsNeverPanics(ApplyField(d, fs[0], commit).value, fs[1..], commit);
    }
  }

  /** Decoding any body never panics; the mirror of DiscoverTrack.DecodeNeverPanics. */
  lemma DecodeNeverPanics(t: MapObjectTracked, body: seq<string>, commit: Oid)
    ensures !(DecodeSpec(t, body, commit).Err? && DecodeSpec(t, body, commit).error.Panic?)
  {
    ApplyFieldsNeverPanics(Decoder(t, "", ZeroHash), Fields("", body), commit);
  }

  /** A message of fewer than three lines gives only the statuses of the commit. */
  lemma ShortMessageOnlyStatuses(tracked: MapObjectTracked, c: Commit)
    requires |MessageLines(c.message)| < 3 && RecordCommit(tracked, c).Ok?
    ensures CommitIterSpec(tracked, c) == RecordCommit(tracked, c)
    ensures CommitIterAsWritten(tracked, c) == RecordCommit(tracked, c)
  {
  }

  /** Hash lines: plumbing.NewHash never fails, so text that is not hexadecimal becomes the zero hash. */
  lemma HashLineNeverFails(d: Decoder, x: string, commit: Oid)
    requires |x| < 2 || !IsHex(x[0]) || !IsHex(x[1])
    ensures ApplyField(d, Field("hash", x), commit) == Ok(d.(hash := ZeroHash))
  {
    NewHashOfNonHex(x);
  }

  // The ledger test as written.

  lemma FilesOnlyLines(x: string)
    requires '\n' !in x
    ensures Split("files:\n  " + x, '\n') == ["files:", "  " + x]
  {
    assert "files:\n  " + x == "files:" + ['\n'] + ("  " + x);
    SplitAround("files:", "  " + x, '\n');
    assert '\n' !in "  " + x;
    SplitNoSep("  " + x, '\n');
  }

  lemma FilesOnlyFields(x: string)
    requires DataLine(x)
    ensures Fields("", ["files:", "  " + x]) == [Field("files", x)]
  {
    TrimSpaceOfTrimmed("files:");
    TrimSpaceIndented(x);
    assert TrimAll(["files:", "  " + x]) == ["files:"] + [x];
    ReadKeyLine("", "files:", [x]);
    ReadData("files", [x]);
  }

  /**
   * A root commit with an empty tree whose message is a subject other than
   * the marker, a blank line and the body "files:" then "src:dst": the test
   * as written reads the body and gives src and dst entries, src with a
   * pairing from the zero hash; the corrected test leaves the map alone.
   */
  lemma GuardAsWrittenReadsOrdinaryMessage(c: Commit, subject: string, src: string, dst: string)
    requires MessageLines(c.message) == [subject, "", "files:", "  " + (src + ":" + dst)]
    requires subject != Marker && c.parents == [] && c.files == []
    requires ':' !in src && ':' !in dst && DataLine(src + ":" + dst)
    ensures var r := CommitIterAsWritten(map[], c);
      r.Ok? && r.value.Keys == {src, dst} && r.value[src].pairing == [Pairing(ZeroHash, c.id)]
    ensures CommitIterSpec(map[], c) == Ok(map[])
  {
    var x := src + ":" + dst;
    var r := AddTrack(map[], x, "track", "", ZeroHash, c.id);
    assert r.Ok? && r.value.Keys == {src, dst} && r.value[src].pairing == [Pairing(ZeroHash, c.id)] by {
      AddTrackPair(map[], src, dst, "track", "", ZeroHash, c.id);
    }
    AsWrittenReadsFilesLine(c, subject, x);
    assert CommitIterSpec(map[], c) == Ok(map[]) by {
      assert RecordCommit(map[], c) == Ok(map[]);
    }
  }

  /** The test as written hands such a body to the ledger loop: one addTrack call on its files line. */
  lemma AsWrittenReadsFilesLine(c: Commit, subject: string, x: string)
    requires MessageLines(c.message) == [subject, "", "files:", "  " + x]
    requires c.parents == [] && c.files == []
    requires DataLine(x) && AddTrack(map[], x, "track", "", ZeroHash, c.id).Ok?
    ensures CommitIterAsWritten(map[], c) == AddTrack(map[], x, "track", "", ZeroHash, c.id)
  {
    RootFilesBody(c, subject, x);
    DecodeFilesLine(map[], x, c.id);
  }

  /** Such a root commit hands the body "files:" then x to the ledger loop. */
  lemma RootFilesBody(c: Commit, subject: string, x: string)
    requires MessageLines(c.message) == [subject, "", "files:", "  " + x]
    requires c.parents == [] && c.files == []
    ensures CommitIterAsWritten(map[], c) == DecodeSpec(map[], ["files:", "  " + x], c.id)
  {
    RootAsWrittenDecodes(c);
    assert MessageLines(c.message)[2..] == ["files:", "  " + x];
  }

  /** A root commit with an empty tree and a blank second line: the test as written hands its body to the ledger loop. */
  lemma RootAsWrittenDecodes(c: Commit)
    requires c.parents == [] && c.files == []
    requires |MessageLines(c.message)| >= 3 && MessageLines(c.message)[1] == ""
    ensures CommitIterAsWritten(map[], c) == DecodeSpec(map[], MessageLines(c.message)[2..], c.id)
  {
    assert RecordCommit(map[], c) == Ok(map[]);
  }

  /** The body "files:" then x decodes as the one addTrack call on x, from no repo and the zero hash. */
  lemma DecodeFilesLine(t: MapObjectTracked, x: string, commit: Oid)
    requires DataLine(x) && AddTrack(t, x, "track", "", ZeroHash, commit).Ok?
    ensures DecodeSpec(t, ["files:", "  " + x], commit) == AddTrack(t, x, "track", "", ZeroHash, commit)
  {
    FilesOnlyFields(x);
    ApplyFilesField(Decoder(t, "", ZeroHash), x, commit);
  }

  /** A lone files field is one addTrack call under the decoder's repo and hash. */
  lemma ApplyFilesField(d: Decoder, x: string, commit: Oid)
    requires AddTrack(d.tracked, x, "track", d.repo, d.hash, commit).Ok?
    ensures ApplyFields(d, [Field("files", x)], commit)
      == Ok(d.(tracked := AddTrack(d.tracked, x, "track", d.repo, d.hash, commit).value))
  {
    assert [Field("files", x)][1..] == [];
  }

  /** The lines of a subject, a blank line and the body "files:" then x. */
  lemma OrdinaryFilesLines(subject: string, x: string)
    requires subject != Marker && '\n' !in subject
    requires Trimmed(subject + "\n\n" + ("files:\n  " + x))
    requires DataLine(x)
    ensures MessageLines(subject + "\n\n" + ("files:\n  " + x)) == [subject, "", "files:", "  " + x]
  {
    var body := "files:\n  " + x;
    TrimSpaceOfTrimmed(subject + "\n\n" + body);
    SplitBlankLine(subject, body);
    FilesOnlyLines(x);
  }

  /**
   * The corrected test differs from the test as written only on messages
   * whose first line is not the marker and whose second line is blank: on
   * every message that starts with the marker, Track.commit's included, the
   * two read the same body.
   */
  lemma GuardsAgreeOnMarked(tracked: MapObjectTracked, c: Commit)
    ensures IsMarked(MessageLines(c.message)) ==> CommitIterSpec(tracked, c) == CommitIterAsWritten(tracked, c)
    ensures CommitIterSpec(tracked, c) != CommitIterAsWritten(tracked, c) ==>
      var lines := MessageLines(c.message); !IsMarked(lines) && IsLedgerAsWritten(lines) && lines[1] == ""
  {
    var lines := MessageLines(c.message);
    IsLedgerNarrows(lines);
    if RecordCommit(tracked, c).Ok? && IsLedgerAsWritten(lines) && !IsMarked(lines) {
      assert lines[1] == "";
    }
  }

  /** The concrete instance: a commit titled "Fix parser" whose body reads "files:" then "a:b". */
  lemma GuardAsWrittenExample(c: Commit)
    requires c.message == "Fix parser\n\nfiles:\n  a:b" && c.parents == [] && c.files == []
    ensures var r := CommitIterAsWritten(map[], c); r.Ok? && r.value.Keys == {"a", "b"}
    ensures CommitIterSpec(map[], c) == Ok(map[])
  {
    ExampleLines(c.message);
    GuardAsWrittenReadsOrdinaryMessage(c, "Fix parser", "a", "b");
  }

  lemma ExampleLines(m: string)
    requires m == "Fix parser\n\nfiles:\n  a:b"
    ensures DataLine("a" + ":" + "b")
    ensures MessageLines(m) == ["Fix parser", "", "files:", "  " + ("a" + ":" + "b")]
  {
    var x := "a" + ":" + "b";
    assert DataLine(x) by {
      assert x == "a:b" && !IsSpace(x[0]) && !IsSpace(x[2]);
    }
    assert m == "Fix parser" + "\n\n" + ("files:\n  " + x);
    assert Trimmed(m) by {
      assert !IsSpace(m[0]) && !IsSpace(m[|m| - 1]);
    }
    OrdinaryFilesLines("Fix parser", x);
  }
}
