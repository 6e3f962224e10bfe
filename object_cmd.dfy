/**
 * internal/track/object/object.go: the object command. It lists the files
 * under a source path, maps each to its place under the destination path,
 * copies them, and commits them with a ledger message whose payload lists
 * every source:destination pair. The worktree listing, the copying, the
 * index writes and the status counts are I/O; their outcomes are inputs.
 */
module ObjectCmd {
  import opened Wrappers
  import opened Text
  import opened Paths
  import opened Hex
  import opened Git
  import Utils

  /**
   * Where renameObjectsToDst puts one source path: the first occurrence of
   * the cleaned source path replaced by the cleaned destination path, and
   * the result cleaned.
   */
  function RenamedObject(path: string, srcObject: string, dstObject: string): string {
    Clean(ReplaceFirst(path, Clean(srcObject), Clean(dstObject)))
  }

  /** Every source path renamed, in order. */
  function DstObjects(objects: seq<string>, srcObject: string, dstObject: string): (r: seq<string>)
    ensures |r| == |objects|
  {
    seq(|objects|, i requires 0 <= i < |objects| => RenamedObject(objects[i], srcObject, dstObject))
  }

  /** A path under the source path moves under the destination path, the rest of it kept. */
  lemma RenamedUnderSource(rest: string, srcObject: string, dstObject: string)
    ensures RenamedObject(Clean(srcObject) + rest, srcObject, dstObject) == Clean(Clean(dstObject) + rest)
  {
    ReplaceFirstPrefix(Clean(srcObject), rest, Clean(dstObject));
  }

  /** A path that does not contain the cleaned source path is only cleaned. */
  lemma RenamedOutsideSource(path: string, srcObject: string, dstObject: string)
    requires forall i :: !OccursAt(path, Clean(srcObject), i)
    ensures RenamedObject(path, srcObject, dstObject) == Clean(path)
  {
    ReplaceFirstAbsent(path, Clean(srcObject), Clean(dstObject));
  }

  /** Only the first occurrence is replaced: everything after it is kept as it is before cleaning. */
  lemma RenamedFirstOccurrence(path: string, srcObject: string, dstObject: string, i: int)
    requires OccursAt(path, Clean(srcObject), i)
    requires forall j :: 0 <= j < i ==> !OccursAt(path, Clean(srcObject), j)
    ensures RenamedObject(path, srcObject, dstObject)
         == Clean(path[..i] + Clean(dstObject) + path[i + |Clean(srcObject)|..])
  {
    ReplaceFirstAt(path, Clean(srcObject), Clean(dstObject), i);
  }

  /** renameObjectsToDst: a slice of the input's length, filled index by index. */
  method RenameObjectsToDst(objects: seq<string>, srcObject: string, dstObject: string) returns (dstObjects: seq<string>)
    ensures |dstObjects| == |objects|
    ensures forall i :: 0 <= i < |objects| ==> dstObjects[i] == RenamedObject(objects[i], srcObject, dstObject)
  {
    var a := new string[|objects|](_ => "");
    var src := Clean(srcObject);
    var dst := Clean(dstObject);
    for i := 0 to |objects|
      invariant forall j :: 0 <= j < i ==> a[j] == RenamedObject(objects[j], srcObject, dstObject)
    {
      a[i] := Clean(ReplaceFirst(objects[i], src, dst));
    }
    dstObjects := a[..];
  }

  /** One payload line: source path, colon, destination path. */
  function Pair(src: string, dst: string): string {
    src + ":" + dst
  }

  /** The pairs of two lists of the same length, in order. */
  function Zipped(srcs: seq<string>, dsts: seq<string>): (r: seq<string>)
    requires |srcs| == |dsts|
    ensures |r| == |srcs|
  {
    seq(|srcs|, i requires 0 <= i < |srcs| => Pair(srcs[i], dsts[i]))
  }

  /** A pair of colon-free paths splits back into the two paths, as the ledger decoders split a files line. */
  lemma PairSplits(src: string, dst: string)
    requires ':' !in src && ':' !in dst
    ensures Split(Pair(src, dst), ':') == [src, dst]
  {
    SplitAround(src, dst, ':');
    SplitNoSep(dst, ':');
  }

  /** zipObjects: the pairs, or an error when the lists differ in length. */
  method ZipObjects(srcs: seq<string>, dsts: seq<string>) returns (r: Result<seq<string>>)
    ensures r.Err? <==> |srcs| != |dsts|
    ensures r.Err? ==> r.error == LengthMismatch
    ensures r.Ok? ==> |r.value| == |srcs| && forall i :: 0 <= i < |srcs| ==> r.value[i] == srcs[i] + ":" + dsts[i]
  {
    if |srcs| != |dsts| {
      return Err(LengthMismatch);
    }
    var a := new string[|srcs|](_ => "");
    for i := 0 to |srcs|
      invariant forall j :: 0 <= j < i ==> a[j] == srcs[j] + ":" + dsts[j]
    {
      a[i] := srcs[i] + ":" + dsts[i];
    }
    r := Ok(a[..]);
  }

  /**
   * copyObject up to the file operations: the (source, destination) copies
   * it performs, in order, or the length error it reports before opening
   * any file.
   */
  method CopyObject(srcs: seq<string>, dsts: seq<string>) returns (r: Result<seq<(string, string)>>)
    ensures |srcs| != |dsts| ==> r == Err(LengthMismatch)
    ensures |srcs| == |dsts| ==>
      (r.Ok? && |r.value| == |srcs| && forall i :: 0 <= i < |srcs| ==> r.value[i] == (srcs[i], dsts[i]))
  {
    if |srcs| != |dsts| {
      return Err(LengthMismatch);
    }
    var copies: seq<(string, string)> := [];
    for i := 0 to |srcs|
      invariant |copies| == i
      invariant forall j :: 0 <= j < i ==> copies[j] == (srcs[j], dsts[j])
    {
      copies := copies + [(srcs[i], dsts[i])];
    }
    r := Ok(copies);
  }

  /** The message Run hands to utils.Commit: "files:" and the pairs, one per line, indented by two spaces. */
  function Payload(zipped: seq<string>): string {
    "files:\n  " + Join(zipped, "\n  ")
  }

  /** The lines of the payload: the key line, then each pair indented. */
  lemma PayloadLines(zipped: seq<string>)
    requires |zipped| >= 1
    requires forall i :: 0 <= i < |zipped| ==> '\n' !in zipped[i]
    ensures Payload(zipped) == Join(["files:"] + Prefixed("  ", zipped), "\n")
    ensures Split(Payload(zipped), '\n') == ["files:"] + Prefixed("  ", zipped)
  {
    JoinIndented(zipped, "  ", '\n');
    assert ['\n'] + "  " == "\n  ";
    var lines := ["files:"] + Prefixed("  ", zipped);
    assert lines[1..] == Prefixed("  ", zipped);
    assert "files:\n  " + Join(zipped, "\n  ") == "files:" + "\n" + ("  " + Join(zipped, "\n  "));
    forall i | 0 <= i < |lines| ensures '\n' !in lines[i] {
      if i > 0 {
        assert lines[i] == "  " + zipped[i - 1];
      }
    }
    SplitJoin(lines, '\n');
  }

  /**
   * Run once the source files are known. dirty and changed are the status
   * counts of the destination before copying and after staging; found is
   * the worktree listing of srcObject; head is the destination's HEAD.
   * The result is the message committed, or None when nothing changed.
   */
  function RunSpec(store: Store, dirty: nat, found: Result<seq<string>>, srcObject: string, dstObject: string,
                   changed: nat, config: Utils.RemoteConfig, head: Option<Oid>): Result<Option<string>>
  {
    if dirty > 0 then Err(DirtyWorktree)
    else if found.Err? then Err(found.error)
    else if changed == 0 then Ok(None)
    else if head.Some? && head.value !in store then Err(MissingCommit)
    else
      var msg := Payload(Zipped(found.value, DstObjects(found.value, srcObject, dstObject)));
      match Utils.RemoteList(config)
      case Err(e) => Err(e)
      case Ok(remotes) =>
        if head.None? then Err(NoHead) else Ok(Some(Utils.CommitMessage(remotes, head.value, msg)))
  }

  /** Object.Run, as the steps the source takes. */
  method Run(store: Store, dirty: nat, found: Result<seq<string>>, srcObject: string, dstObject: string,
             changed: nat, config: Utils.RemoteConfig, head: Option<Oid>) returns (r: Result<Option<string>>)
    ensures r == RunSpec(store, dirty, found, srcObject, dstObject, changed, config, head)
  {
    if dirty > 0 {
      return Err(DirtyWorktree);
    }
    if found.Err? {
      return Err(found.error);
    }
    var allSrcObjects := found.value;
    var allDstObjects := RenameObjectsToDst(allSrcObjects, srcObject, dstObject);
    var copies := CopyObject(allSrcObjects, allDstObjects);
    // The renamed list has the length of the source list, so the copy goes ahead.
    assert copies.Ok?;
    if changed == 0 {
      return Ok(None);
    }
    var zipped := ZipObjects(allSrcObjects, allDstObjects);
    assert zipped.Ok?;
    assert allDstObjects == DstObjects(allSrcObjects, srcObject, dstObject);
    assert zipped.value == Zipped(allSrcObjects, allDstObjects);
    if head.Some? && Lookup(store, head.value).None? {
      return Err(MissingCommit);
    }
    var msg := Utils.Commit(config, head, Payload(zipped.value));
    if msg.Err? {
      return Err(msg.error);
    }
    r := Ok(Some(msg.value));
  }
}
