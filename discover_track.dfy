/**
 * internal/track/discover_track_object.go: the discovery pass that walks the
 * destination history from HEAD, gives every path a commit's tree diff
 * touches an entry, and fills in, from the ledger messages, where each
 * destination path was copied from. The go-git tree diff of a commit against
 * its first parent is the commit's changes; its tree listing is its files.
 */
module DiscoverTrack {
  import opened Wrappers
  import opened Text
  import opened Hex
  import opened Git
  import opened Ledger
  import DiscoverTracked

  /** What the pass knows about one destination path; the zero hash stands for "not yet known". */
  datatype ObjectsTracked = ObjectsTracked(
    commitSrc: Oid,
    commitDst: Oid,
    pathSrc: string,
    deleted: bool,
    repo: string)

  /** Destination path to what is known about it. */
  type MapObjectTrack = map<string, ObjectsTracked>

  /** The entry a path gets when a diff first shows it. */
  function NewEntry(deleted: bool): ObjectsTracked {
    ObjectsTracked(ZeroHash, ZeroHash, "", deleted, "")
  }

  /** An entry whose source commit is set: the ledger loop never writes it again. */
  predicate Settled(o: ObjectsTracked) {
    !IsZero(o.commitSrc)
  }

  // The tree diff.

  /** go-git's merkletrie actions. */
  datatype Action = Insert | Delete | Modify

  /** Change.Action: no old side is an insertion, no new side a deletion, both a modification; neither is an error. */
  function ActionOf(change: Change): (r: Result<Action>)
    ensures r.Err? <==> change.from.None? && change.to.None?
    ensures r.Err? ==> r.error == MalformedChange
    ensures r == Ok(Insert) <==> change.from.None? && change.to.Some?
    ensures r == Ok(Delete) <==> change.from.Some? && change.to.None?
    ensures r == Ok(Modify) <==> change.from.Some? && change.to.Some?
  {
    if change.from.None? && change.to.None? then Err(MalformedChange)
    else if change.from.None? then Ok(Insert)
    else if change.to.None? then Ok(Delete)
    else Ok(Modify)
  }

  /** The path commitIter keys a change by: the new path of an insertion or modification, the old path of a deletion. */
  function ChangePath(change: Change, action: Action): string
    requires ActionOf(change) == Ok(action)
  {
    if action == Insert || action == Modify then change.to.value else change.from.value
  }

  /** The diff loop: each change's path gets a fresh entry unless it has one, stopping at a malformed change. */
  function InsertChanges(tracked: MapObjectTrack, changes: seq<Change>): Result<MapObjectTrack>
    decreases |changes|
  {
    if changes == [] then Ok(tracked)
    else
      match ActionOf(changes[0])
      case Err(e) => Err(e)
      case Ok(action) =>
        var path := ChangePath(changes[0], action);
        var next := if path in tracked then tracked else tracked[path := NewEntry(action == Delete)];
        InsertChanges(next, changes[1..])
  }

  /** The root commit's loop: every file of the tree gets a fresh entry, not deleted, unless it has one. */
  function InsertFiles(tracked: MapObjectTrack, files: seq<string>): MapObjectTrack
    decreases |files|
  {
    if files == [] then tracked
    else
      var next := if files[0] in tracked then tracked else tracked[files[0] := NewEntry(false)];
      InsertFiles(next, files[1..])
  }

  // The ledger loop.

  /** The state of the ledger loop besides the map: the last repo line and the last hash line. */
  datatype Decoder = Decoder(tracked: MapObjectTrack, repo: string, hash: Oid)

  /** One data line of the ledger loop, under its key. */
  function ApplyField(d: Decoder, f: Field, commit: Oid): Result<Decoder> {
    if f.key == "repo" then Ok(d.(repo := f.value))
    else if f.key == "hash" then Ok(d.(hash := NewHash(f.value)))
    else if f.key == "files" then
      var objects := Split(f.value, ':');
      if |objects| != 2 then Err(InvalidLine(f.value))
      else if objects[1] !in d.tracked then Err(PathNotFound)
      else
        var o := d.tracked[objects[1]];
        if Settled(o) then Ok(d)
        else Ok(d.(tracked := d.tracked[objects[1] := o.(repo := d.repo, commitSrc := d.hash,
                                                        commitDst := commit, pathSrc := objects[0])]))
    else if f.key == "move" then Err(Panic("implement move"))
    else Ok(d)
  }

  /** The ledger loop over the data lines of a body, stopping at the first error. */
  function ApplyFields(d: Decoder, fs: seq<Field>, commit: Oid): Result<Decoder>
    decreases |fs|
  {
    if fs == [] then Ok(d)
    else
      match ApplyField(d, fs[0], commit)
      case Err(e) => Err(e)
      case Ok(d') => ApplyFields(d', fs[1..], commit)
  }

  /** The ledger loop's outcome on a body, from no repo and the zero hash. */
  function DecodeSpec(t: MapObjectTrack, body: seq<string>, commit: Oid): Result<MapObjectTrack> {
    match ApplyFields(Decoder(t, "", ZeroHash), Fields("", body), commit)
    case Err(e) => Err(e)
    case Ok(d) => Ok(d.tracked)
  }

  // commitIter.

  /**
   * The entries a commit's diff gives: against its first parent, which must
   * be found, or, for a root commit, its whole tree.
   */
  function RecordCommit(store: Store, tracked: MapObjectTrack, c: Commit): Result<MapObjectTrack> {
    if |c.parents| > 0 then
      if c.parents[0] !in store then Err(MissingCommit)
      else InsertChanges(tracked, c.changes)
    else Ok(InsertFiles(tracked, c.files))
  }

  /** commitIter: record the diff, then, for a message whose first line is the marker, apply its body. */
  function CommitIterSpec(store: Store, tracked: MapObjectTrack, c: Commit): Result<MapObjectTrack> {
    match RecordCommit(store, tracked, c)
    case Err(e) => Err(e)
    case Ok(t) =>
      var lines := MessageLines(c.message);
      if !IsMarked(lines) then Ok(t)
      else DecodeSpec(t, lines[2..], c.id)
  }

  /** commitIter with the ledger test as written (marker OR blank second line). */
  function CommitIterAsWritten(store: Store, tracked: MapObjectTrack, c: Commit): Result<MapObjectTrack> {
    match RecordCommit(store, tracked, c)
    case Err(e) => Err(e)
    case Ok(t) =>
      var lines := MessageLines(c.message);
      if !IsLedgerAsWritten(lines) then Ok(t)
      else DecodeSpec(t, lines[2..], c.id)
  }

  /** The diff loop of commitIter. */
  method InsertChangesLoop(tracked: MapObjectTrack, changes: seq<Change>) returns (r: Result<MapObjectTrack>)
    ensures r == InsertChanges(tracked, changes)
  {
    var t := tracked;
    var i := 0;
    while i < |changes|
      invariant 0 <= i <= |changes|
      invariant InsertChanges(tracked, changes) == InsertChanges(t, changes[i..])
    {
      assert changes[i..][1..] == changes[i + 1..];
      var action := ActionOf(changes[i]);
      if action.Err? {
        return Err(action.error);
      }
      var path := "";
      if action.value == Insert || action.value == Modify {
        path := changes[i].to.value;
      } else if action.value == Delete {
        path := changes[i].from.value;
      }
      if path !in t {
        t := t[path := NewEntry(action.value == Delete)];
      }
      i := i + 1;
    }
    assert changes[|changes|..] == [];
    r := Ok(t);
  }

  /** The tree loop of commitIter for a root commit. */
  method InsertFilesLoop(tracked: MapObjectTrack, files: seq<string>) returns (t: MapObjectTrack)
    ensures t == InsertFiles(tracked, files)
  {
    t := tracked;
    var i := 0;
    while i < |files|
      invariant 0 <= i <= |files|
      invariant InsertFiles(tracked, files) == InsertFiles(t, files[i..])
    {
      assert files[i..][1..] == files[i + 1..];
      if files[i] !in t {
        t := t[files[i] := NewEntry(false)];
      }
      i := i + 1;
    }
    assert files[|files|..] == [];
  }

  /** One data line of commitIter's ledger loop, branching on the key it falls under. */
  method ApplyLine(d: Decoder, lastKey: string, line: string, commit: Oid) returns (r: Result<Decoder>)
    ensures r == ApplyField(d, Field(lastKey, line), commit)
  {
    if lastKey == "repo" {
      return Ok(d.(repo := line));
    } else if lastKey == "hash" {
      return Ok(d.(hash := NewHash(line)));
    } else if lastKey == "files" {
      var objects := Split(line, ':');
      if |objects| != 2 {
        return Err(InvalidLine(line));
      }
      if objects[1] !in d.tracked {
        return Err(PathNotFound);
      }
      var o := d.tracked[objects[1]];
      if !IsZero(o.commitSrc) {
        return Ok(d);
      }
      o := o.(repo := d.repo);
      o := o.(commitSrc := d.hash);
      o := o.(commitDst := commit);
      o := o.(pathSrc := objects[0]);
      return Ok(d.(tracked := d.tracked[objects[1] := o]));
    } else if lastKey == "move" {
      return Err(Panic("implement move"));
    }
    return Ok(d);
  }

  /** The ledger loop of commitIter over the body lines, with the current key in lastKey. */
  method DecodeBody(t: MapObjectTrack, body: seq<string>, commit: Oid) returns (r: Result<MapObjectTrack>)
    ensures r == DecodeSpec(t, body, commit)
  {
    var trimmed := TrimAll(body);
    var d := Decoder(t, "", ZeroHash);
    var lastKey := "";
    var j := 0;
    while j < |body|
      invariant 0 <= j <= |body|
      invariant ApplyFields(Decoder(t, "", ZeroHash), Fields("", body), commit)
             == ApplyFields(d, Read(lastKey, trimmed[j..]), commit)
    {
      assert trimmed[j..][1..] == trimmed[j + 1..];
      var line := TrimSpace(body[j]);
      var key := ParseMessageKey(line);
      if key.1 {
        lastKey := key.0;
      } else {
        var f := Field(lastKey, line);
        assert Read(lastKey, trimmed[j..]) == [f] + Read(lastKey, trimmed[j + 1..]);
        assert ([f] + Read(lastKey, trimmed[j + 1..]))[1..] == Read(lastKey, trimmed[j + 1..]);
        var next := ApplyLine(d, lastKey, line, commit);
        if next.Err? {
          return Err(next.error);
        }
        d := next.value;
      }
      j := j + 1;
    }
    assert trimmed[|body|..] == [];
    return Ok(d.tracked);
  }

  /** commitIter, as the steps the source takes. */
  method CommitIter(store: Store, tracked: MapObjectTrack, c: Commit) returns (r: Result<MapObjectTrack>)
    ensures r == CommitIterSpec(store, tracked, c)
  {
    var t: MapObjectTrack;
    if |c.parents| > 0 {
      var parent := Lookup(store, c.parents[0]);
      if parent.None? {
        return Err(MissingCommit);
      }
      var inserted := InsertChangesLoop(tracked, c.changes);
      if inserted.Err? {
        return Err(inserted.error);
      }
      t := inserted.value;
    } else {
      t := InsertFilesLoop(tracked, c.files);
    }
    var lines := MessageLines(c.message);
    if !IsMarked(lines) {
      return Ok(t);
    }
    r := DecodeBody(t, lines[2..], c.id);
  }

  // searchObjects.

  /** The commits a queue of ids names, each looked up; None where a lookup fails. */
  function Lookups(store: Store, ids: seq<Oid>): (r: seq<Option<Commit>>)
    ensures |r| == |ids| && forall i :: 0 <= i < |ids| ==> r[i] == Lookup(store, ids[i])
  {
    seq(|ids|, i requires 0 <= i < |ids| => Lookup(store, ids[i]))
  }

  /**
   * The walk of searchObjects over the looked-up queue: take the front
   * commit (a failed lookup ends the walk), process it, and append all of
   * its parents. Nothing remembers which commits were seen.
   */
  function Walk(store: Store, tracked: MapObjectTrack, queue: seq<Option<Commit>>): Result<MapObjectTrack>
    requires WellFormed(store) && QueueStored(store, queue)
    decreases QueueWeight(store, queue)
  {
    if queue == [] then Ok(tracked)
    else if queue[0].None? then Err(MissingCommit)
    else
      var c := queue[0].value;
      match CommitIterSpec(store, tracked, c)
      case Err(e) => Err(e)
      case Ok(t) =>
        ParentsWeight(store, c);
        QueueWeightAppend(store, queue[1..], ParentLookups(store, c));
        Walk(store, t, queue[1..] + ParentLookups(store, c))
  }

  /** searchAllTrackedObjects: the walk from HEAD (None when the repository has no HEAD). */
  function SearchObjectsSpec(store: Store, head: Option<Oid>): Result<MapObjectTrack>
    requires WellFormed(store)
  {
    if head.None? then Err(NoHead)
    else
      LookupStored(store, head.value);
      Walk(store, map[], [Lookup(store, head.value)])
  }

  /** The queue of ids after a round: the rest, then the parents; looked up, the walk's next queue. */
  lemma LookupsStep(store: Store, queue: seq<Oid>, c: Commit)
    requires WellFormed(store) && queue != []
    ensures Lookups(store, queue[1..] + c.parents) == Lookups(store, queue)[1..] + ParentLookups(store, c)
  {
  }

  /** A looked-up queue holds stored commits. */
  lemma LookupsStored(store: Store, queue: seq<Oid>)
    requires WellFormed(store)
    ensures QueueStored(store, Lookups(store, queue))
  {
  }

  /** One round of the walk: a failed lookup or commit ends it with that error, otherwise it goes on with the rest of the queue and the parents. */
  lemma WalkStep(store: Store, tracked: MapObjectTrack, queue: seq<Option<Commit>>)
    requires WellFormed(store) && QueueStored(store, queue) && queue != []
    ensures queue[0].None? ==> Walk(store, tracked, queue) == Err(MissingCommit)
    ensures queue[0].Some? && CommitIterSpec(store, tracked, queue[0].value).Err? ==>
      Walk(store, tracked, queue) == Err(CommitIterSpec(store, tracked, queue[0].value).error)
    ensures queue[0].Some? && CommitIterSpec(store, tracked, queue[0].value).Ok? ==>
      var next := queue[1..] + ParentLookups(store, queue[0].value);
      QueueStored(store, next) && QueueWeight(store, next) < QueueWeight(store, queue) &&
      Walk(store, tracked, queue) == Walk(store, CommitIterSpec(store, tracked, queue[0].value).value, next)
  {
    if queue[0].Some? {
      ParentsWeight(store, queue[0].value);
      QueueWeightAppend(store, queue[1..], ParentLookups(store, queue[0].value));
    }
  }

  /** searchAllTrackedObjects and searchObjects: a queue of commit ids, each looked up when it reaches the front. */
  method SearchObjects(store: Store, head: Option<Oid>) returns (r: Result<MapObjectTrack>)
    requires WellFormed(store)
    ensures r == SearchObjectsSpec(store, head)
  {
    if head.None? {
      return Err(NoHead);
    }
    var tracked: MapObjectTrack := map[];
    var stack := [head.value];
    assert Lookups(store, stack) == [Lookup(store, head.value)];
    LookupsStored(store, stack);
    while |stack| > 0
      invariant QueueStored(store, Lookups(store, stack))
      invariant SearchObjectsSpec(store, head) == Walk(store, tracked, Lookups(store, stack))
      decreases QueueWeight(store, Lookups(store, stack))
    {
      WalkStep(store, tracked, Lookups(store, stack));
      var commit := Lookup(store, stack[0]);
      if commit.None? {
        return Err(MissingCommit);
      }
      var c := commit.value;
      var next := CommitIter(store, tracked, c);
      if next.Err? {
        return Err(next.error);
      }
      LookupsStep(store, stack, c);
      tracked := next.value;
      stack := stack[1..] + c.parents;
    }
    assert Lookups(store, stack) == [];
    return Ok(tracked);
  }

  // filePatchStatus.

  /** The path and status filePatchStatus reports for one file patch. */
  datatype PatchStatus = PatchStatus(path: string, status: string)

  /** filePatchStatus: the new path, or the old one for a deletion, and the kind of change. */
  function FilePatchStatus(change: Change): (r: Result<PatchStatus>)
    ensures r.Err? <==> change.from.None? && change.to.None?
    ensures r.Err? ==> r.error == FailGetPatches
  {
    if change.from.None? && change.to.Some? then Ok(PatchStatus(change.to.value, "add"))
    else if change.from.Some? && change.to.None? then Ok(PatchStatus(change.from.value, "delete"))
    else if change.from.Some? && change.to.Some? then
      Ok(PatchStatus(change.to.value, if change.from.value != change.to.value then "rename" else "change"))
    else Err(FailGetPatches)
  }

  /**
   * The path filePatchStatus reports is the one commitIter keys the change
   * by, and it is the new path the older pass's corrected filePatchStatus
   * reports, with the same status.
   */
  lemma FilePatchStatusAgrees(change: Change)
    requires change.from.Some? || change.to.Some?
    ensures ActionOf(change).Ok?
    ensures FilePatchStatus(change).value.path == ChangePath(change, ActionOf(change).value)
    ensures FilePatchStatus(change).value.path == DiscoverTracked.FilePatchStatus(change).value.pathTo
    ensures FilePatchStatus(change).value.status == DiscoverTracked.FilePatchStatus(change).value.status
  {
  }

  /** The statuses: added, deleted, renamed exactly when the paths differ, changed otherwise; a deletion reports the old path. */
  lemma FilePatchStatusKinds(change: Change)
    requires change.from.Some? || change.to.Some?
    ensures var s := FilePatchStatus(change).value;
      (s.status == "add" <==> change.from.None?) &&
      (s.status == "delete" <==> change.to.None?) &&
      (s.status == "rename" <==> change.from.Some? && change.to.Some? && change.from.value != change.to.value) &&
      (s.status == "change" <==> change.from.Some? && change.to.Some? && change.from.value == change.to.value) &&
      (s.status == "delete" ==> s.path == change.from.value) &&
      (s.status != "delete" ==> s.path == change.to.value)
  {
  }

  // Properties of the diff loops.

  /** Existing entries are kept; the keys added are exactly the paths the changes are keyed by. */
  lemma {:induction false} InsertChangesKeeps(tracked: MapObjectTrack, changes: seq<Change>)
    requires InsertChanges(tracked, changes).Ok?
    ensures forall p :: p in tracked ==> p in InsertChanges(tracked, changes).value && InsertChanges(tracked, changes).value[p] == tracked[p]
    ensures forall p :: p in InsertChanges(tracked, changes).value <==>
      (p in tracked || exists i :: 0 <= i < |changes| && ActionOf(changes[i]).Ok? && ChangePath(changes[i], ActionOf(changes[i]).value) == p)
    decreases |changes|
  {
    if changes != [] {
      var action := ActionOf(changes[0]).value;
      var path := ChangePath(changes[0], action);
      var next := if path in tracked then tracked else tracked[path := NewEntry(action == Delete)];
      InsertChangesKeeps(next, changes[1..]);
      var r := InsertChanges(tracked, changes).value;
      forall p | p in r
        ensures p in tracked || exists i :: 0 <= i < |changes| && ActionOf(changes[i]).Ok? && ChangePath(changes[i], ActionOf(changes[i]).value) == p
      {
        if p !in next {
          var i :| 0 <= i < |changes[1..]| && ActionOf(changes[1..][i]).Ok? && ChangePath(changes[1..][i], ActionOf(changes[1..][i]).value) == p;
          assert changes[i + 1] == changes[1..][i];
        } else if p !in tracked {
          assert ChangePath(changes[0], ActionOf(changes[0]).value) == p;
        }
      }
      forall p | p in tracked || exists i :: 0 <= i < |changes| && ActionOf(changes[i]).Ok? && ChangePath(changes[i], ActionOf(changes[i]).value) == p
        ensures p in r
      {
        if p !in tracked && p != path {
          var i :| 0 <= i < |changes| && ActionOf(changes[i]).Ok? && ChangePath(changes[i], ActionOf(changes[i]).value) == p;
          assert changes[1..][i - 1] == changes[i];
        }
      }
    }
  }

  /** A path first shown by change i gets an entry marked deleted exactly when that change is a deletion. */
  lemma {:induction false} InsertChangesFirstSighting(tracked: MapObjectTrack, changes: seq<Change>, i: nat)
    requires InsertChanges(tracked, changes).Ok?
    requires i < |changes| && ActionOf(changes[i]).Ok?
    requires ChangePath(changes[i], ActionOf(changes[i]).value) !in tracked
    requires forall j :: 0 <= j < i ==> ActionOf(changes[j]).Ok? && ChangePath(changes[j], ActionOf(changes[j]).value) != ChangePath(changes[i], ActionOf(changes[i]).value)
    ensures ChangePath(changes[i], ActionOf(changes[i]).value) in InsertChanges(tracked, changes).value
    ensures InsertChanges(tracked, changes).value[ChangePath(changes[i], ActionOf(changes[i]).value)]
         == NewEntry(changes[i].to.None?)
    decreases |changes|
  {
    var action := ActionOf(changes[0]).value;
    var path := ChangePath(changes[0], action);
    var next := if path in tracked then tracked else tracked[path := NewEntry(action == Delete)];
    if i == 0 {
      InsertChangesKeeps(next, changes[1..]);
    } else {
      assert changes[1..][i - 1] == changes[i];
      InsertChangesFirstSighting(next, changes[1..], i - 1);
    }
  }

  /** Existing entries are kept; the keys added are exactly the files of the tree, none of them deleted. */
  lemma {:induction false} InsertFilesKeeps(tracked: MapObjectTrack, files: seq<string>)
    ensures forall p :: p in tracked ==> p in InsertFiles(tracked, files) && InsertFiles(tracked, files)[p] == tracked[p]
    ensures InsertFiles(tracked, files).Keys == tracked.Keys + set i | 0 <= i < |files| :: files[i]
    ensures forall p :: p in InsertFiles(tracked, files) && p !in tracked ==> InsertFiles(tracked, files)[p] == NewEntry(false)
    decreases |files|
  {
    if files != [] {
      var next := if files[0] in tracked then tracked else tracked[files[0] := NewEntry(false)];
      InsertFilesKeeps(next, files[1..]);
      assert (set i | 0 <= i < |files| :: files[i]) == {files[0]} + set i | 0 <= i < |files[1..]| :: files[1..][i];
    }
  }

  // First sighting wins.

  /**
   * b is a later state of a: no entry is lost, no deleted flag changes, and
   * an entry that has its source commit keeps all of its fields.
   */
  predicate Preserves(a: MapObjectTrack, b: MapObjectTrack) {
    forall p :: p in a ==> p in b && b[p].deleted == a[p].deleted && (Settled(a[p]) ==> b[p] == a[p])
  }

  lemma PreservesTransitive(a: MapObjectTrack, b: MapObjectTrack, c: MapObjectTrack)
    requires Preserves(a, b) && Preserves(b, c)
    ensures Preserves(a, c)
  {
  }

  /** The ledger loop neither adds nor removes paths, and never rewrites a settled entry or a deleted flag. */
  lemma {:induction false} ApplyFieldsPreserves(d: Decoder, fs: seq<Field>, commit: Oid)
    requires ApplyFields(d, fs, commit).Ok?
    ensures ApplyFields(d, fs, commit).value.tracked.Keys == d.tracked.Keys
    ensures Preserves(d.tracked, ApplyFields(d, fs, commit).value.tracked)
    decreases |fs|
  {
    if fs != [] {
      var d' := ApplyField(d, fs[0], commit).value;
      ApplyFieldPreserves(d, fs[0], commit);
      ApplyFieldsPreserves(d', fs[1..], commit);
      PreservesTransitive(d.tracked, d'.tracked, ApplyFields(d, fs, commit).value.tracked);
    }
  }

  /** One line of the ledger loop neither adds nor removes paths, and rewrites only an unsettled entry's provenance. */
  lemma ApplyFieldPreserves(d: Decoder, f: Field, commit: Oid)
    requires ApplyField(d, f, commit).Ok?
    ensures ApplyField(d, f, commit).value.tracked.Keys == d.tracked.Keys
    ensures Preserves(d.tracked, ApplyField(d, f, commit).value.tracked)
  {
  }

  /** What commitIter leaves of an earlier state: first sighting wins. */
  lemma CommitIterPreserves(store: Store, tracked: MapObjectTrack, c: Commit)
    requires CommitIterSpec(store, tracked, c).Ok?
    ensures Preserves(tracked, CommitIterSpec(store, tracked, c).value)
  {
    var t := RecordCommit(store, tracked, c).value;
    if |c.parents| > 0 {
      InsertChangesKeeps(tracked, c.changes);
    } else {
      InsertFilesKeeps(tracked, c.files);
    }
    assert Preserves(tracked, t);
    var lines := MessageLines(c.message);
    if IsMarked(lines) {
      ApplyFieldsPreserves(Decoder(t, "", ZeroHash), Fields("", lines[2..]), c.id);
      PreservesTransitive(tracked, t, CommitIterSpec(store, tracked, c).value);
    }
  }

  /**
   * Over the whole walk: once a commit has given a path a source commit, no
   * commit processed later changes that entry, and a path's deleted flag is
   * the one its first sighting set.
   */
  lemma {:induction false} WalkPreserves(store: Store, tracked: MapObjectTrack, queue: seq<Option<Commit>>)
    requires WellFormed(store) && QueueStored(store, queue)
    requires Walk(store, tracked, queue).Ok?
    ensures Preserves(tracked, Walk(store, tracked, queue).value)
    decreases QueueWeight(store, queue)
  {
    if queue != [] {
      var c := queue[0].value;
      var t := CommitIterSpec(store, tracked, c).value;
      CommitIterPreserves(store, tracked, c);
      ParentsWeight(store, c);
      QueueWeightAppend(store, queue[1..], ParentLookups(store, c));
      WalkPreserves(store, t, queue[1..] + ParentLookups(store, c));
      PreservesTransitive(tracked, t, Walk(store, tracked, queue).value);
    }
  }

  // Single lines of the ledger loop.

  /** A files line that does not split into exactly two parts at ':' aborts with "invalid line". */
  lemma FilesLineInvalid(d: Decoder, value: string, commit: Oid)
    requires |Split(value, ':')| != 2
    ensures ApplyField(d, Field("files", value), commit) == Err(InvalidLine(value))
  {
  }

  /** A files line whose destination has no entry aborts with "path not found". */
  lemma FilesLineUnknownPath(d: Decoder, value: string, commit: Oid)
    requires |Split(value, ':')| == 2 && Split(value, ':')[1] !in d.tracked
    ensures ApplyField(d, Field("files", value), commit) == Err(PathNotFound)
  {
  }

  /**
   * A files line src:dst naming a destination without a source commit fills
   * in the provenance from the last repo and hash lines; a settled one is
   * left alone.
   */
  lemma FilesLineRecords(d: Decoder, src: string, dst: string, commit: Oid)
    requires ':' !in src && ':' !in dst && dst in d.tracked
    ensures !Settled(d.tracked[dst]) ==>
      ApplyField(d, Field("files", src + ":" + dst), commit)
      == Ok(d.(tracked := d.tracked[dst := ObjectsTracked(d.hash, commit, src, d.tracked[dst].deleted, d.repo)]))
    ensures Settled(d.tracked[dst]) ==> ApplyField(d, Field("files", src + ":" + dst), commit) == Ok(d)
  {
    SplitAround(src, dst, ':');
    SplitNoSep(dst, ':');
    assert src + ":" + dst == src + [':'] + dst;
  }

  /**
   * A hash line that plumbing.NewHash reads as the zero hash (text that is
   * not hexadecimal) does not settle the paths listed after it: their
   * entries keep a zero source commit, so a later commit's ledger can
   * overwrite them, and first sighting does not win for them.
   */
  lemma ZeroHashDoesNotSettle(d: Decoder, x: string, src: string, dst: string, commit: Oid)
    requires |x| < 2 || !IsHex(x[0]) || !IsHex(x[1])
    requires ':' !in src && ':' !in dst && dst in d.tracked && !Settled(d.tracked[dst])
    ensures var r := ApplyFields(d, [Field("hash", x), Field("files", src + ":" + dst)], commit);
      r.Ok? && dst in r.value.tracked && !Settled(r.value.tracked[dst]) && r.value.tracked[dst].pathSrc == src
  {
    NewHashOfNonHex(x);
    var d1 := d.(hash := ZeroHash);
    FilesLineRecords(d1, src, dst, commit);
    var fs := [Field("hash", x), Field("files", src + ":" + dst)];
    var d2 := d1.(tracked := d1.tracked[dst := ObjectsTracked(ZeroHash, commit, src, d.tracked[dst].deleted, d.repo)]);
    assert ApplyField(d, fs[0], commit) == Ok(d1);
    assert ApplyField(d1, fs[1], commit) == Ok(d2);
    assert fs[1..] == [fs[1]] && fs[1..][1..] == [];
    assert ApplyFields(d1, fs[1..], commit) == Ok(d2);
    assert ApplyFields(d, fs, commit) == Ok(d2);
  }

  /** Decoding a ledger body never reaches the "move" branch. */
  lemma {:induction false} ApplyFieldsNeverPanics(d: Decoder, fs: seq<Field>, commit: Oid)
    requires forall i :: 0 <= i < |fs| ==> fs[i].key == "" || IsLabel(fs[i].key)
    ensures !(ApplyFields(d, fs, commit).Err? && ApplyFields(d, fs, commit).error.Panic?)
    decreases |fs|
  {
    if fs != [] && ApplyField(d, fs[0], commit).Ok? {
      ApplyFieldsNeverPanics(ApplyField(d, fs[0], commit).value, fs[1..], commit);
    }
  }

  lemma DecodeNeverPanics(t: MapObjectTrack, body: seq<string>, commit: Oid)
    ensures !(DecodeSpec(t, body, commit).Err? && DecodeSpec(t, body, commit).error.Panic?)
  {
    ApplyFieldsNeverPanics(Decoder(t, "", ZeroHash), Fields("", body), commit);
  }

  // The ledger test as written.

  /**
   * A root commit with an empty tree whose message is a subject other than
   * the marker, a blank line and the body "files:" then "src:dst": the test
   * as written reads the body and aborts the walk, dst having no entry; the
   * corrected test leaves the map alone.
   */
  lemma GuardAsWrittenReadsOrdinaryMessage(store: Store, c: Commit, subject: string, src: string, dst: string)
    requires MessageLines(c.message) == [subject, "", "files:", "  " + (src + ":" + dst)]
    requires subject != Marker && c.parents == [] && c.files == []
    requires ':' !in src && ':' !in dst && DataLine(src + ":" + dst)
    ensures CommitIterAsWritten(store, map[], c) == Err(PathNotFound)
    ensures CommitIterSpec(store, map[], c) == Ok(map[])
  {
    var lines := MessageLines(c.message);
    assert RecordCommit(store, map[], c) == Ok(map[]);
    assert lines[2..] == ["files:", "  " + (src + ":" + dst)];
    FilesLineOfEmptyMap(src, dst, c.id);
  }

  /** A body of "files:" then "src:dst" read into an empty map fails: dst has no entry. */
  lemma FilesLineOfEmptyMap(src: string, dst: string, commit: Oid)
    requires ':' !in src && ':' !in dst && DataLine(src + ":" + dst)
    ensures DecodeSpec(map[], ["files:", "  " + (src + ":" + dst)], commit) == Err(PathNotFound)
  {
    var x := src + ":" + dst;
    DiscoverTracked.FilesOnlyFields(x);
    assert Split(x, ':') == [src, dst] by {
      SplitAround(src, dst, ':');
      SplitNoSep(dst, ':');
      assert x == src + [':'] + dst;
    }
    var d := Decoder(map[], "", ZeroHash);
    FilesLineUnknownPath(d, x, commit);
    assert ApplyFields(d, [Field("files", x)], commit) == Err(PathNotFound);
  }

  /**
   * The corrected test differs from the test as written only on messages
   * whose first line is not the marker and whose second line is blank: on
   * every message that starts with the marker, Track.commit's included, the
   * two read the same body.
   */
  lemma GuardsAgreeOnMarked(store: Store, tracked: MapObjectTrack, c: Commit)
    ensures IsMarked(MessageLines(c.message)) ==> CommitIterSpec(store, tracked, c) == CommitIterAsWritten(store, tracked, c)
    ensures CommitIterSpec(store, tracked, c) != CommitIterAsWritten(store, tracked, c) ==>
      var lines := MessageLines(c.message); !IsMarked(lines) && IsLedgerAsWritten(lines) && lines[1] == ""
  {
    var lines := MessageLines(c.message);
    IsLedgerNarrows(lines);
    if RecordCommit(store, tracked, c).Ok? && IsLedgerAsWritten(lines) && !IsMarked(lines) {
      assert lines[1] == "";
    }
  }

  /** The concrete instance: a commit titled "Fix parser" whose body reads "files:" then "a:b". */
  lemma GuardAsWrittenExample(store: Store, c: Commit)
    requires c.message == "Fix parser\n\nfiles:\n  a:b" && c.parents == [] && c.files == []
    ensures CommitIterAsWritten(store, map[], c) == Err(PathNotFound)
    ensures CommitIterSpec(store, map[], c) == Ok(map[])
  {
    DiscoverTracked.ExampleLines(c.message);
    GuardAsWrittenReadsOrdinaryMessage(store, c, "Fix parser", "a", "b");
  }
}
