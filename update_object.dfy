/**
 * internal/track/update/object.go: the object map builder of the update
 * command. It walks the destination history from HEAD, records every path a
 * commit's diff touches, and fills in, from the ledger messages, where each
 * destination path was copied from.
 */
module UpdateObject {
  import opened Wrappers
  import opened Text
  import opened Hex
  import opened Git
  import opened Ledger
  import Utils

  /** What the builder knows about one destination path. commitSrc is None until a ledger names the path. */
  datatype TrackedObject = TrackedObject(
    commitSrc: Option<Oid>,
    commitDst: Option<Oid>,
    pathSrc: string,
    deleted: bool,
    repo: string)

  /** Destination path to what is known about it. */
  type MapObject = map<string, TrackedObject>

  /** The entry a path gets when a diff first shows it. */
  function NewEntry(deleted: bool): TrackedObject {
    TrackedObject(None, None, "", deleted, "")
  }

  /** An entry a ledger has already given a source commit: it is never written again. */
  predicate Settled(o: TrackedObject) {
    o.commitSrc.Some?
  }

  /** The delta loop of commitIter: a delta's new path gets a fresh entry unless it already has one. */
  function InsertDeltas(tracked: MapObject, deltas: seq<Delta>): MapObject
    decreases |deltas|
  {
    if deltas == [] then tracked
    else
      var path := deltas[0].newPath;
      var next := if path in tracked then tracked else tracked[path := NewEntry(deltas[0].status == Deleted)];
      InsertDeltas(next, deltas[1..])
  }

  /** The state of the ledger loop besides the map: the last repo line and the last hash line. */
  datatype Decoder = Decoder(tracked: MapObject, repo: string, oid: Option<Oid>)

  /** One data line of the ledger loop, under its key. */
  function ApplyField(d: Decoder, f: Field, commit: Oid): Result<Decoder> {
    if f.key == "repo" then Ok(d.(repo := f.value))
    else if f.key == "hash" then
      match NewOid(f.value)
      case Ok(o) => Ok(d.(oid := Some(o)))
      case Err(e) => Err(e)
    else if f.key == "files" then
      var objects := Split(f.value, ':');
      if |objects| != 2 then Err(InvalidLine(f.value))
      else if objects[1] !in d.tracked then Err(PathNotFound)
      else
        var o := d.tracked[objects[1]];
        if Settled(o) then Ok(d)
        else Ok(d.(tracked := d.tracked[objects[1] := o.(repo := d.repo, commitSrc := d.oid,
                                                        commitDst := Some(commit), pathSrc := objects[0])]))
    else if f.key == "move" then Err(Panic("implement move"))
    else Ok(d)
  }

  /** The ledger loop over the data lines of a body, stopping at the first error. */
  function ApplyFields(d: Decoder, fs: seq<Field>, commit: Oid): Result<Decoder>
    decreases |fs|
  {
    if fs == [] then Ok(d)
    else
      match ApplyField(d, fs[0], commit)
      case Err(e) => Err(e)
      case Ok(d') => ApplyFields(d', fs[1..], commit)
  }

  /**
   * The ledger body the decoder reads: every line after the first two. In
   * utils.Commit's layout those are the marker and the blank line; in
   * Track.commit's layout the second line is "repo:", so that key line is
   * skipped and the remotes below it are read under no key.
   */
  function Body(lines: seq<string>): seq<string>
    requires |lines| >= 2
  {
    lines[2..]
  }

  /** The ledger loop's outcome on a body: the map once every data line is applied. */
  function DecodeSpec(t: MapObject, body: seq<string>, commit: Oid): Result<MapObject> {
    match ApplyFields(Decoder(t, "", None), Fields("", body), commit)
    case Err(e) => Err(e)
    case Ok(d) => Ok(d.tracked)
  }

  /**
   * commitIter: record the commit's deltas, then, for a message that starts
   * with the marker, give each path a files line names its provenance. A
   * first parent that could not be looked up is a nil reference the source
   * dereferences. The ledger test is the one as written with the OR dropped
   * (Ledger.IsMarked): on every message that starts with the marker, both
   * ledger formats the program writes included, this is the source's
   * behaviour (GuardsAgreeOnMarked).
   */
  function CommitIterSpec(tracked: MapObject, c: Commit, parents: seq<Option<Commit>>): Result<MapObject> {
    if |parents| > 0 && parents[0].None? then Err(Panic("nil parent"))
    else
      var t := InsertDeltas(tracked, c.deltas);
      var lines := MessageLines(c.message);
      if !IsMarked(lines) then Ok(t)
      else DecodeSpec(t, Body(lines), c.id)
  }

  /** commitIter with the ledger test as written (marker OR blank second line). */
  function CommitIterAsWritten(tracked: MapObject, c: Commit, parents: seq<Option<Commit>>): Result<MapObject> {
    if |parents| > 0 && parents[0].None? then Err(Panic("nil parent"))
    else
      var t := InsertDeltas(tracked, c.deltas);
      var lines := MessageLines(c.message);
      if !IsLedgerAsWritten(lines) then Ok(t)
      else DecodeSpec(t, lines[2..], c.id)
  }

  /** The delta loop of commitIter. */
  method RecordDeltas(tracked: MapObject, deltas: seq<Delta>) returns (t: MapObject)
    ensures t == InsertDeltas(tracked, deltas)
  {
    t := tracked;
    var i := 0;
    while i < |deltas|
      invariant 0 <= i <= |deltas|
      invariant InsertDeltas(tracked, deltas) == InsertDeltas(t, deltas[i..])
    {
      assert deltas[i..][1..] == deltas[i + 1..];
      var path := deltas[i].newPath;
      if path !in t {
        t := t[path := NewEntry(deltas[i].status == Deleted)];
      }
      i := i + 1;
    }
    assert deltas[|deltas|..] == [];
  }

  /** The ledger loop of commitIter over the body lines, with the current key in lastKey. */
  method DecodeBody(t: MapObject, body: seq<string>, commit: Oid) returns (r: Result<MapObject>)
    ensures r == DecodeSpec(t, body, commit)
  {
    var trimmed := TrimAll(body);
    var d := Decoder(t, "", None);
    var lastKey := "";
    var j := 0;
    while j < |body|
      invariant 0 <= j <= |body|
      invariant ApplyFields(Decoder(t, "", None), Fields("", body), commit)
             == ApplyFields(d, Read(lastKey, trimmed[j..]), commit)
    {
      assert trimmed[j..][1..] == trimmed[j + 1..];
      var line := TrimSpace(body[j]);
      var key := ParseMessageKey(line);
      if key.1 {
        lastKey := key.0;
      } else {
        var f := Field(lastKey, line);
        assert Read(lastKey, trimmed[j..]) == [f] + Read(lastKey, trimmed[j + 1..]);
        assert ([f] + Read(lastKey, trimmed[j + 1..]))[1..] == Read(lastKey, trimmed[j + 1..]);
        var next := ApplyField(d, f, commit);
        if next.Err? {
          return Err(next.error);
        }
        d := next.value;
      }
      j := j + 1;
    }
    assert trimmed[|body|..] == [];
    return Ok(d.tracked);
  }

  /** commitIter, as the loops the source runs. */
  method CommitIter(tracked: MapObject, c: Commit, parents: seq<Option<Commit>>) returns (r: Result<MapObject>)
    ensures r == CommitIterSpec(tracked, c, parents)
  {
    if |parents| > 0 && parents[0].None? {
      return Err(Panic("nil parent"));
    }
    var t := RecordDeltas(tracked, c.deltas);
    var lines := MessageLines(c.message);
    if !IsMarked(lines) {
      return Ok(t);
    }
    r := DecodeBody(t, Body(lines), c.id);
  }

  /**
   * The walk of SearchObjects: take the front commit, process it, and append
   * all of its parents to the back of the queue. Nothing remembers which
   * commits were seen, so a commit reachable along several paths is
   * processed once per path.
   */
  function Walk(store: Store, tracked: MapObject, queue: seq<Option<Commit>>): Result<MapObject>
    requires WellFormed(store) && QueueStored(store, queue)
    decreases QueueWeight(store, queue)
  {
    if queue == [] then Ok(tracked)
    else if queue[0].None? then Err(Panic("nil commit"))
    else
      var c := queue[0].value;
      var parents := ParentLookups(store, c);
      match CommitIterSpec(tracked, c, parents)
      case Err(e) => Err(e)
      case Ok(t) =>
        ParentsWeight(store, c);
        QueueWeightAppend(store, queue[1..], parents);
        Walk(store, t, queue[1..] + parents)
  }

  /** The entries a ledger gave a repo: the final filter of SearchObjects. */
  function Owned(tracked: MapObject): MapObject {
    map path | path in tracked && tracked[path].repo != "" :: tracked[path]
  }

  /** SearchObjects from the HEAD of the destination repository (None when it has no HEAD). */
  function SearchObjectsSpec(store: Store, head: Option<Oid>): Result<MapObject>
    requires WellFormed(store)
  {
    if head.None? then Err(NoHead)
    else if head.value !in store then Err(MissingCommit)
    else
      LookupStored(store, head.value);
      match Walk(store, map[], [Some(store[head.value])])
      case Err(e) => Err(e)
      case Ok(t) => Ok(Owned(t))
  }

  /** The final loop of SearchObjects: delete every entry without a repo. */
  method DropUnowned(tracked: MapObject) returns (r: MapObject)
    ensures r == Owned(tracked)
  {
    r := tracked;
    var keys := tracked.Keys;
    while keys != {}
      invariant keys <= tracked.Keys
      invariant r.Keys <= tracked.Keys
      invariant forall path :: path in keys ==> path in r
      invariant forall path :: path in r ==> r[path] == tracked[path]
      invariant forall path :: path in tracked && path !in keys ==> (path in r <==> tracked[path].repo != "")
      decreases keys
    {
      var path :| path in keys;
      if r[path].repo == "" {
        r := map k | k in r && k != path :: r[k];
      }
      keys := keys - {path};
    }
  }

  /** SearchObjects: the queue walk from HEAD, then the filter. */
  method SearchObjects(store: Store, head: Option<Oid>) returns (r: Result<MapObject>)
    requires WellFormed(store)
    ensures r == SearchObjectsSpec(store, head)
    ensures r.Ok? ==> forall path :: path in r.value ==> r.value[path].repo != ""
  {
    if head.None? {
      return Err(NoHead);
    }
    if head.value !in store {
      return Err(MissingCommit);
    }
    LookupStored(store, head.value);
    var start := [Some(store[head.value])];
    var tracked: MapObject := map[];
    var queue := start;
    while queue != []
      invariant QueueStored(store, queue)
      invariant Walk(store, map[], start) == Walk(store, tracked, queue)
      decreases QueueWeight(store, queue)
    {
      if queue[0].None? {
        return Err(Panic("nil commit"));
      }
      var c := queue[0].value;
      var parents := Utils.CommitParents(store, c);
      var next := CommitIter(tracked, c, parents);
      if next.Err? {
        return Err(next.error);
      }
      ParentsWeight(store, c);
      QueueWeightAppend(store, queue[1..], parents);
      tracked := next.value;
      queue := queue[1..] + parents;
    }
    var owned := DropUnowned(tracked);
    return Ok(owned);
  }

  // Properties of the delta loop.

  /** Existing entries are kept as they are; the keys added are exactly the new paths of the deltas. */
  lemma {:induction false} InsertDeltasKeeps(tracked: MapObject, deltas: seq<Delta>)
    ensures forall p :: p in tracked ==> p in InsertDeltas(tracked, deltas) && InsertDeltas(tracked, deltas)[p] == tracked[p]
    ensures forall p :: p in InsertDeltas(tracked, deltas) <==>
      (p in tracked || exists i :: 0 <= i < |deltas| && deltas[i].newPath == p)
    decreases |deltas|
  {
    if deltas != [] {
      var path := deltas[0].newPath;
      var next := if path in tracked then tracked else tracked[path := NewEntry(deltas[0].status == Deleted)];
      InsertDeltasKeeps(next, deltas[1..]);
      forall p | p in InsertDeltas(tracked, deltas)
        ensures p in tracked || exists i :: 0 <= i < |deltas| && deltas[i].newPath == p
      {
        if p !in next {
          var i :| 0 <= i < |deltas[1..]| && deltas[1..][i].newPath == p;
          assert deltas[i + 1].newPath == p;
        } else if p !in tracked {
          assert deltas[0].newPath == p;
        }
      }
      forall p | p in tracked || exists i :: 0 <= i < |deltas| && deltas[i].newPath == p
        ensures p in InsertDeltas(tracked, deltas)
      {
        if p !in tracked && p != path {
          var i :| 0 <= i < |deltas| && deltas[i].newPath == p;
          assert deltas[1..][i - 1].newPath == p;
        }
      }
    }
  }

  /** A path first shown by delta i gets an entry whose deleted flag is that delta's status. */
  lemma {:induction false} InsertDeltasFirstSighting(tracked: MapObject, deltas: seq<Delta>, i: nat)
    requires i < |deltas| && deltas[i].newPath !in tracked
    requires forall j :: 0 <= j < i ==> deltas[j].newPath != deltas[i].newPath
    ensures deltas[i].newPath in InsertDeltas(tracked, deltas)
    ensures InsertDeltas(tracked, deltas)[deltas[i].newPath] == NewEntry(deltas[i].status == Deleted)
    decreases |deltas|
  {
    InsertDeltasKeeps(tracked, deltas);
    var path := deltas[0].newPath;
    var next := if path in tracked then tracked else tracked[path := NewEntry(deltas[0].status == Deleted)];
    if i == 0 {
      InsertDeltasKeeps(next, deltas[1..]);
    } else {
      InsertDeltasFirstSighting(next, deltas[1..], i - 1);
    }
  }

  /** After the delta loop every delta's path has an entry. */
  lemma InsertDeltasHasPaths(tracked: MapObject, deltas: seq<Delta>)
    ensures forall i :: 0 <= i < |deltas| ==> deltas[i].newPath in InsertDeltas(tracked, deltas)
  {
    InsertDeltasKeeps(tracked, deltas);
  }

  /** When every delta's path already has an entry, the delta loop changes nothing. */
  lemma {:induction false} InsertDeltasPresent(tracked: MapObject, deltas: seq<Delta>)
    requires forall i :: 0 <= i < |deltas| ==> deltas[i].newPath in tracked
    ensures InsertDeltas(tracked, deltas) == tracked
    decreases |deltas|
  {
    if deltas != [] {
      InsertDeltasPresent(tracked, deltas[1..]);
    }
  }

  /** Recording the same deltas twice is recording them once. */
  lemma InsertDeltasIdempotent(tracked: MapObject, deltas: seq<Delta>)
    ensures InsertDeltas(InsertDeltas(tracked, deltas), deltas) == InsertDeltas(tracked, deltas)
  {
    InsertDeltasKeeps(tracked, deltas);
    InsertDeltasPresent(InsertDeltas(tracked, deltas), deltas);
  }

  // First sighting wins.

  /**
   * b is a later state of a: no entry is lost, no deleted flag changes, and
   * an entry that has its source commit keeps all of its fields.
   */
  predicate Preserves(a: MapObject, b: MapObject) {
    forall p :: p in a ==> p in b && b[p].deleted == a[p].deleted && (Settled(a[p]) ==> b[p] == a[p])
  }

  lemma PreservesTransitive(a: MapObject, b: MapObject, c: MapObject)
    requires Preserves(a, b) && Preserves(b, c)
    ensures Preserves(a, c)
  {
  }

  /** The ledger loop neither adds nor removes paths, and never rewrites a settled entry or a deleted flag. */
  lemma {:induction false} ApplyFieldsPreserves(d: Decoder, fs: seq<Field>, commit: Oid)
    requires ApplyFields(d, fs, commit).Ok?
    ensures ApplyFields(d, fs, commit).value.tracked.Keys == d.tracked.Keys
    ensures Preserves(d.tracked, ApplyFields(d, fs, commit).value.tracked)
    decreases |fs|
  {
    if fs != [] {
      var d' := ApplyField(d, fs[0], commit).value;
      ApplyFieldsPreserves(d', fs[1..], commit);
      PreservesTransitive(d.tracked, d'.tracked, ApplyFields(d, fs, commit).value.tracked);
    }
  }

  /** What commitIter leaves of an earlier state: first sighting wins. */
  lemma CommitIterPreserves(tracked: MapObject, c: Commit, parents: seq<Option<Commit>>)
    requires CommitIterSpec(tracked, c, parents).Ok?
    ensures Preserves(tracked, CommitIterSpec(tracked, c, parents).value)
  {
    var t := InsertDeltas(tracked, c.deltas);
    InsertDeltasKeeps(tracked, c.deltas);
    var lines := MessageLines(c.message);
    if IsMarked(lines) {
      ApplyFieldsPreserves(Decoder(t, "", None), Fields("", Body(lines)), c.id);
      PreservesTransitive(tracked, t, CommitIterSpec(tracked, c, parents).value);
    }
  }

  /**
   * Over the whole walk: once a commit has given a path its source commit,
   * no commit processed later (an older one, or the same one again) changes
   * that entry, and a path's deleted flag is the one its first sighting set.
   */
  lemma {:induction false} WalkPreserves(store: Store, tracked: MapObject, queue: seq<Option<Commit>>)
    requires WellFormed(store) && QueueStored(store, queue)
    requires Walk(store, tracked, queue).Ok?
    ensures Preserves(tracked, Walk(store, tracked, queue).value)
    decreases QueueWeight(store, queue)
  {
    if queue != [] {
      var c := queue[0].value;
      var parents := ParentLookups(store, c);
      var t := CommitIterSpec(tracked, c, parents).value;
      CommitIterPreserves(tracked, c, parents);
      ParentsWeight(store, c);
      QueueWeightAppend(store, queue[1..], parents);
      WalkPreserves(store, t, queue[1..] + parents);
      PreservesTransitive(tracked, t, Walk(store, tracked, queue).value);
    }
  }

  // The ledger loop.

  /** A message of fewer than three lines gives no provenance: only the deltas are recorded. */
  lemma ShortMessageOnlyDeltas(tracked: MapObject, c: Commit, parents: seq<Option<Commit>>)
    requires |MessageLines(c.message)| < 3
    requires parents == [] || parents[0].Some?
    ensures CommitIterSpec(tracked, c, parents) == Ok(InsertDeltas(tracked, c.deltas))
  {
  }

  /** A files line that does not split into exactly two parts at ':' aborts with "invalid line". */
  lemma FilesLineInvalid(d: Decoder, value: string, commit: Oid)
    requires |Split(value, ':')| != 2
    ensures ApplyField(d, Field("files", value), commit) == Err(InvalidLine(value))
  {
  }

  /** A files line whose destination has no entry aborts with "path not found". */
  lemma FilesLineUnknownPath(d: Decoder, value: string, commit: Oid)
    requires |Split(value, ':')| == 2 && Split(value, ':')[1] !in d.tracked
    ensures ApplyField(d, Field("files", value), commit) == Err(PathNotFound)
  {
  }

  /**
   * A files line naming a destination without a source commit fills in the
   * provenance from the last repo and hash lines; a settled one is left alone.
   */
  lemma FilesLineRecords(d: Decoder, src: string, dst: string, commit: Oid)
    requires ':' !in src && ':' !in dst && dst in d.tracked
    ensures !Settled(d.tracked[dst]) ==>
      (ApplyField(d, Field("files", src + ":" + dst), commit)
       == Ok(d.(tracked := d.tracked[dst := TrackedObject(d.oid, Some(commit), src, d.tracked[dst].deleted, d.repo)])))
    ensures Settled(d.tracked[dst]) ==> ApplyField(d, Field("files", src + ":" + dst), commit) == Ok(d)
  {
    SplitAround(src, dst, ':');
    SplitNoSep(dst, ':');
    assert src + ":" + dst == src + [':'] + dst;
  }

  /** Lines under "rename:", or before any key line, change nothing. */
  lemma OtherFieldsIgnored(d: Decoder, f: Field, commit: Oid)
    requires f.key == "" || f.key == "rename"
    ensures ApplyField(d, f, commit) == Ok(d)
  {
  }

  /** Data lines read before any key line change nothing. */
  lemma {:induction false} UnkeyedLinesIgnored(d: Decoder, xs: seq<string>, commit: Oid)
    ensures ApplyFields(d, Tagged("", xs), commit) == Ok(d)
    decreases |xs|
  {
    if xs != [] {
      assert Tagged("", xs)[1..] == Tagged("", xs[1..]);
      UnkeyedLinesIgnored(d, xs[1..], commit);
    }
  }

  /** Repo lines: the last one wins, and the map is not touched. */
  lemma {:induction false} RepoLinesLastWins(d: Decoder, xs: seq<string>, commit: Oid)
    requires |xs| >= 1
    ensures ApplyFields(d, Tagged("repo", xs), commit) == Ok(d.(repo := xs[|xs| - 1]))
    decreases |xs|
  {
    var fs := Tagged("repo", xs);
    assert fs[1..] == Tagged("repo", xs[1..]);
    if |xs| > 1 {
      RepoLinesLastWins(d.(repo := xs[0]), xs[1..], commit);
    }
  }

  /** The data lines of a body carry no key a decoder does not know, so the "move" panic never happens. */
  lemma {:induction false} ApplyFieldsNeverPanics(d: Decoder, fs: seq<Field>, commit: Oid)
    requires forall i :: 0 <= i < |fs| ==> fs[i].key == "" || IsLabel(fs[i].key)
    ensures !(ApplyFields(d, fs, commit).Err? && ApplyFields(d, fs, commit).error.Panic?)
    decreases |fs|
  {
    if fs != [] && ApplyField(d, fs[0], commit).Ok? {
      ApplyFieldsNeverPanics(ApplyField(d, fs[0], commit).value, fs[1..], commit);
    }
  }

  /** Decoding a ledger body never reaches the "move" branch. */
  lemma DecodeNeverPanics(t: MapObject, body: seq<string>, commit: Oid)
    ensures !(DecodeSpec(t, body, commit).Err? && DecodeSpec(t, body, commit).error.Panic?)
  {
    ApplyFieldsNeverPanics(Decoder(t, "", None), Fields("", body), commit);
  }

  // Processing a commit twice.

  /** Every files line of the body comes after a hash line, as in the messages the encoder writes. */
  predicate HashFirst(oid: Option<Oid>, fs: seq<Field>) {
    forall i :: 0 <= i < |fs| && fs[i].key == "files" ==>
      oid.Some? || exists j :: 0 <= j < i && fs[j].key == "hash"
  }

  /**
   * Replaying a body whose files lines all follow a hash line, from the map
   * its first reading produced, gives the same result: every entry it names
   * was settled by the first reading.
   */
  lemma {:induction false} ApplyFieldsTwice(d: Decoder, fs: seq<Field>, commit: Oid)
    requires HashFirst(d.oid, fs)
    requires ApplyFields(d, fs, commit).Ok?
    ensures ApplyFields(d.(tracked := ApplyFields(d, fs, commit).value.tracked), fs, commit) == ApplyFields(d, fs, commit)
    decreases |fs|
  {
    if fs != [] {
      var final := ApplyFields(d, fs, commit).value;
      var d' := ApplyField(d, fs[0], commit).value;
      assert HashFirst(d'.oid, fs[1..]) by {
        forall i | 0 <= i < |fs[1..]| && fs[1..][i].key == "files"
          ensures d'.oid.Some? || exists j :: 0 <= j < i && fs[1..][j].key == "hash"
        {
          if !d'.oid.Some? {
            var j :| 0 <= j < i + 1 && fs[j].key == "hash";
            assert j != 0;
            assert fs[1..][j - 1].key == "hash";
          }
        }
      }
      ApplyFieldsTwice(d', fs[1..], commit);
      ApplyFieldsPreserves(d', fs[1..], commit);
      var f := fs[0];
      if f.key == "files" {
        var objects := Split(f.value, ':');
        var dst := objects[1];
        assert Settled(d'.tracked[dst]);
        assert final.tracked[dst] == d'.tracked[dst];
        assert ApplyField(d.(tracked := final.tracked), f, commit) == Ok(d'.(tracked := final.tracked));
      } else {
        assert ApplyField(d.(tracked := final.tracked), f, commit) == Ok(d'.(tracked := final.tracked));
      }
    }
  }

  /** Decoding a body again, from the map its first decoding produced, changes nothing. */
  lemma DecodeTwice(t: MapObject, body: seq<string>, commit: Oid)
    requires DecodeSpec(t, body, commit).Ok?
    requires HashFirst(None, Fields("", body))
    ensures DecodeSpec(t, body, commit).value.Keys == t.Keys
    ensures DecodeSpec(DecodeSpec(t, body, commit).value, body, commit) == DecodeSpec(t, body, commit)
  {
    var d0 := Decoder(t, "", None);
    var fs := Fields("", body);
    ApplyFieldsPreserves(d0, fs, commit);
    ApplyFieldsTwice(d0, fs, commit);
    assert d0.(tracked := ApplyFields(d0, fs, commit).value.tracked)
        == Decoder(DecodeSpec(t, body, commit).value, "", None);
  }

  /**
   * The walk has no visited set, so a commit reachable along two paths is
   * processed twice. Processing a commit again right after itself changes
   * nothing when its ledger lists files only after the hash.
   */
  lemma CommitIterTwice(tracked: MapObject, c: Commit, parents: seq<Option<Commit>>)
    requires CommitIterSpec(tracked, c, parents).Ok?
    requires IsMarked(MessageLines(c.message)) ==> HashFirst(None, Fields("", Body(MessageLines(c.message))))
    ensures CommitIterSpec(CommitIterSpec(tracked, c, parents).value, c, parents) == CommitIterSpec(tracked, c, parents)
  {
    var t := InsertDeltas(tracked, c.deltas);
    var lines := MessageLines(c.message);
    if IsMarked(lines) {
      var t1 := DecodeSpec(t, Body(lines), c.id).value;
      InsertDeltasHasPaths(tracked, c.deltas);
      DecodeTwice(t, Body(lines), c.id);
      assert forall i :: 0 <= i < |c.deltas| ==> c.deltas[i].newPath in t1;
      InsertDeltasPresent(t1, c.deltas);
      assert CommitIterSpec(t1, c, parents) == DecodeSpec(t1, Body(lines), c.id);
    } else {
      InsertDeltasIdempotent(tracked, c.deltas);
    }
  }

  // The ledger test as written.

  /** A body of one hash key and one data line splits into those two lines. */
  lemma HashOnlyLines(x: string)
    requires DataLine(x)
    ensures Split("hash:\n  " + x, '\n') == ["hash:", "  " + x]
  {
    assert "hash:\n  " + x == "hash:" + ['\n'] + ("  " + x);
    SplitAround("hash:", "  " + x, '\n');
    assert '\n' !in "  " + x;
    SplitNoSep("  " + x, '\n');
  }

  /** The lines of such a body give the single field hash with x as its data. */
  lemma HashOnlyFields(x: string)
    requires DataLine(x)
    ensures Fields("", ["hash:", "  " + x]) == [Field("hash", x)]
  {
    TrimSpaceOfTrimmed("hash:");
    TrimSpaceIndented(x);
    assert TrimAll(["hash:", "  " + x]) == ["hash:"] + [x];
    ReadKeyLine("", "hash:", [x]);
    ReadData("hash", [x]);
  }

  /**
   * An ordinary message, a subject other than the marker, a blank line and a
   * body that happens to read "hash:" followed by text that is not an object
   * id, passes the test as written and aborts the walk with git.NewOid's
   * error (hex.DecodeString's invalid byte, InvalidOid in this model);
   * the corrected test records only the commit's deltas.
   */
  lemma GuardAsWrittenReadsOrdinaryMessage(tracked: MapObject, c: Commit, subject: string, x: string)
    requires c.message == subject + "\n\n" + ("hash:\n  " + x)
    requires subject != Marker && '\n' !in subject
    requires Trimmed(c.message)
    requires DataLine(x) && NewOid(x).Err?
    ensures CommitIterAsWritten(tracked, c, []) == Err(InvalidOid(x))
    ensures CommitIterSpec(tracked, c, []) == Ok(InsertDeltas(tracked, c.deltas))
  {
    OrdinaryHashLines(subject, x);
    OrdinaryLinesOutcome(tracked, c, subject, x);
  }

  /** The two ledger tests on a message whose lines are a subject, a blank line, "hash:" and a data line. */
  lemma OrdinaryLinesOutcome(tracked: MapObject, c: Commit, subject: string, x: string)
    requires MessageLines(c.message) == [subject, "", "hash:", "  " + x]
    requires subject != Marker && DataLine(x) && NewOid(x).Err?
    ensures CommitIterAsWritten(tracked, c, []) == Err(InvalidOid(x))
    ensures CommitIterSpec(tracked, c, []) == Ok(InsertDeltas(tracked, c.deltas))
  {
    var lines := MessageLines(c.message);
    assert lines[2..] == ["hash:", "  " + x];
    DecodeHashOnly(InsertDeltas(tracked, c.deltas), x, c.id);
  }

  lemma DecodeHashOnly(t: MapObject, x: string, commit: Oid)
    requires DataLine(x) && NewOid(x).Err?
    ensures DecodeSpec(t, ["hash:", "  " + x], commit) == Err(InvalidOid(x))
  {
    HashOnlyFields(x);
    var d := Decoder(t, "", None);
    assert ApplyField(d, Field("hash", x), commit) == Err(InvalidOid(x));
  }

  lemma OrdinaryHashLines(subject: string, x: string)
    requires subject != Marker && '\n' !in subject
    requires Trimmed(subject + "\n\n" + ("hash:\n  " + x))
    requires DataLine(x)
    ensures MessageLines(subject + "\n\n" + ("hash:\n  " + x)) == [subject, "", "hash:", "  " + x]
  {
    var body := "hash:\n  " + x;
    TrimSpaceOfTrimmed(subject + "\n\n" + body);
    SplitBlankLine(subject, body);
    HashOnlyLines(x);
  }

  /**
   * The corrected test differs from the test as written only on messages
   * whose first line is not the marker and whose second line is blank: on
   * every message that starts with the marker, Track.commit's included, the
   * two read the same body.
   */
  lemma GuardsAgreeOnMarked(tracked: MapObject, c: Commit, parents: seq<Option<Commit>>)
    ensures IsMarked(MessageLines(c.message)) ==> CommitIterSpec(tracked, c, parents) == CommitIterAsWritten(tracked, c, parents)
    ensures CommitIterSpec(tracked, c, parents) != CommitIterAsWritten(tracked, c, parents) ==>
      var lines := MessageLines(c.message); !IsMarked(lines) && IsLedgerAsWritten(lines) && lines[1] == ""
  {
    var lines := MessageLines(c.message);
    IsLedgerNarrows(lines);
    if IsLedgerAsWritten(lines) && !IsMarked(lines) {
      assert lines[1] == "";
    }
  }

  /** The concrete instance: a commit titled "Fix parser" whose body reads "hash:" then "see notes". */
  lemma GuardAsWrittenExample(c: Commit)
    requires c.message == "Fix parser\n\nhash:\n  see notes"
    ensures CommitIterAsWritten(map[], c, []) == Err(InvalidOid("see notes"))
    ensures CommitIterSpec(map[], c, []) == Ok(InsertDeltas(map[], c.deltas))
  {
    assert c.message == "Fix parser" + "\n\n" + ("hash:\n  " + "see notes");
    assert !IsSpace(c.message[|c.message| - 1]);
    assert NewOid("see notes").Err?;
    GuardAsWrittenReadsOrdinaryMessage(map[], c, "Fix parser", "see notes");
  }
}
