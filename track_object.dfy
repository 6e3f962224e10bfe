/**
 * internal/track/track_object.go: trackObject, the track package's copy of
 * the object command. Its renameObjectsToDst, zipObjects and copyObject
 * are the object package's, line for line, and are modelled by ObjectCmd's
 * members. trackObject itself differs: it looks up the destination's HEAD
 * and its commit itself, after the status counts, the listing, the copies
 * and the zipping, and before any remote is listed, and it hands the payload
 * to the Track's own commit method.
 */
module TrackObject {
  import opened Wrappers
  import opened Hex
  import opened Git
  import opened ObjectCmd
  import Utils

  /**
   * trackObject once the source files are known: the payload it hands to
   * t.commit, or None when nothing changed. dirty, found and changed are as
   * for the object command; head is the destination's HEAD.
   */
  function TrackObjectSpec(store: Store, dirty: nat, found: Result<seq<string>>, srcObject: string, dstObject: string,
                           changed: nat, head: Option<Oid>): Result<Option<string>>
  {
    if dirty > 0 then Err(DirtyWorktree)
    else if found.Err? then Err(found.error)
    else if changed == 0 then Ok(None)
    else if head.None? then Err(NoHead)
    else if head.value !in store then Err(MissingCommit)
    else Ok(Some(Payload(Zipped(found.value, DstObjects(found.value, srcObject, dstObject)))))
  }

  /** trackObject, as the steps the source takes. */
  method TrackObjectRun(store: Store, dirty: nat, found: Result<seq<string>>, srcObject: string, dstObject: string,
                        changed: nat, head: Option<Oid>) returns (r: Result<Option<string>>)
    ensures r == TrackObjectSpec(store, dirty, found, srcObject, dstObject, changed, head)
  {
    if dirty > 0 {
      return Err(DirtyWorktree);
    }
    if found.Err? {
      return Err(found.error);
    }
    var allSrcObjects := found.value;
    var allDstObjects := RenameObjectsToDst(allSrcObjects, srcObject, dstObject);
    var copies := CopyObject(allSrcObjects, allDstObjects);
    assert copies.Ok?;
    if changed == 0 {
      return Ok(None);
    }
    var zipped := ZipObjects(allSrcObjects, allDstObjects);
    assert zipped.Ok?;
    assert allDstObjects == DstObjects(allSrcObjects, srcObject, dstObject);
    assert zipped.value == Zipped(allSrcObjects, allDstObjects);
    if head.None? {
      return Err(NoHead);
    }
    var commit := Lookup(store, head.value);
    if commit.None? {
      return Err(MissingCommit);
    }
    r := Ok(Some(Payload(zipped.value)));
  }

  /** Where both commands commit, the object command's ledger message carries trackObject's payload. */
  lemma SamePayload(store: Store, dirty: nat, found: Result<seq<string>>, srcObject: string, dstObject: string,
                    changed: nat, config: Utils.RemoteConfig, head: Option<Oid>)
    requires TrackObjectSpec(store, dirty, found, srcObject, dstObject, changed, head).Ok?
    requires TrackObjectSpec(store, dirty, found, srcObject, dstObject, changed, head).value.Some?
    requires Utils.RemoteList(config).Ok?
    ensures head.Some?
    ensures RunSpec(store, dirty, found, srcObject, dstObject, changed, config, head)
         == Ok(Some(Utils.CommitMessage(Utils.RemoteList(config).value, head.value,
                                        TrackObjectSpec(store, dirty, found, srcObject, dstObject, changed, head).value.value)))
  {
  }

  /**
   * The copies disagree on the order of their checks: without a HEAD,
   * trackObject reports it at once, while the object command first lists
   * the remotes and reports a remote that cannot be looked up.
   */
  lemma NoHeadErrorOrder(store: Store, found: seq<string>, srcObject: string, dstObject: string,
                         changed: nat, config: Utils.RemoteConfig)
    requires changed > 0 && Utils.RemoteList(config).Err?
    ensures TrackObjectSpec(store, 0, Ok(found), srcObject, dstObject, changed, None) == Err(NoHead)
    ensures RunSpec(store, 0, Ok(found), srcObject, dstObject, changed, config, None) == Err(Utils.RemoteList(config).error)
  {
  }
}
