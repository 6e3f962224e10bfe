/**
 * internal/track/update/patch.go: searchPatchByPath. Starting at a commit,
 * follow first parents down to a stop commit, collect the patches of every
 * delta whose new file is a given path, and return them oldest first by
 * reversing the collected list in place. The diff of each commit is
 * libgit2's plain tree-to-tree diff, without rename detection.
 */
module UpdatePatch {
  import opened Wrappers
  import opened Hex
  import opened Git
  import Utils

  /** patchByPath: a commit and the patch of one of its deltas. */
  datatype PatchByPath = PatchByPath(commit: Oid, delta: Delta)

  /** The patches of the deltas of a diff whose new file is path, in delta order. */
  function Matching(id: Oid, deltas: seq<Delta>, path: string): (r: seq<PatchByPath>)
    ensures |r| <= |deltas|
    ensures forall k :: 0 <= k < |r| ==> r[k].commit == id && r[k].delta.newPath == path && r[k].delta in deltas
    ensures forall j :: 0 <= j < |deltas| && deltas[j].newPath == path ==> PatchByPath(id, deltas[j]) in r
    decreases |deltas|
  {
    if deltas == [] then []
    else
      var front := deltas[..|deltas| - 1];
      var last := deltas[|deltas| - 1];
      var rest := Matching(id, front, path);
      assert forall j :: 0 <= j < |front| ==> front[j] == deltas[j];
      rest + (if last.newPath == path then [PatchByPath(id, last)] else [])
  }

  /**
   * The walk finishes: going down first parents it meets the stop commit,
   * or a first parent that cannot be looked up (where the source
   * dereferences nil). A commit without parents that is not the stop commit
   * leaves the cursor where it is, and the loop spins forever.
   */
  ghost predicate Terminates(store: Store, c: Commit, stop: Oid)
    requires WellFormed(store) && Stored(store, c)
    decreases c.generation
  {
    c.id == stop ||
    (|c.parents| > 0 &&
      var p := c.parents[0];
      assert p in c.parents;
      (p in store ==> Terminates(store, store[p], stop)))
  }

  /** The patches collected from c down to the stop commit, newest commit first. */
  function Collect(store: Store, path: string, c: Commit, stop: Oid): Result<seq<PatchByPath>>
    requires WellFormed(store) && Stored(store, c) && Terminates(store, c, stop)
    decreases c.generation
  {
    var parents := ParentLookups(store, c);
    if |parents| > 0 && parents[0].None? then Err(Panic("nil parent"))
    else if c.id == stop then Ok(Matching(c.id, c.plainDeltas, path))
    else
      assert c.parents[0] in c.parents;
      Prepend(Matching(c.id, c.plainDeltas, path), Collect(store, path, parents[0].value, stop))
  }

  function Prepend(xs: seq<PatchByPath>, r: Result<seq<PatchByPath>>): Result<seq<PatchByPath>> {
    match r
    case Err(e) => Err(e)
    case Ok(ys) => Ok(xs + ys)
  }

  lemma PrependNothing(r: Result<seq<PatchByPath>>)
    ensures Prepend([], r) == r
  {
    if r.Ok? {
      assert [] + r.value == r.value;
    }
  }

  lemma PrependTwice(xs: seq<PatchByPath>, ys: seq<PatchByPath>, r: Result<seq<PatchByPath>>)
    ensures Prepend(xs, Prepend(ys, r)) == Prepend(xs + ys, r)
  {
    if r.Ok? {
      assert xs + (ys + r.value) == xs + ys + r.value;
    }
  }

  /** The list reversed. */
  function Reversed<T>(s: seq<T>): (r: seq<T>)
    ensures |r| == |s|
  {
    if s == [] then [] else Reversed(s[1..]) + [s[0]]
  }

  /**
   * What the first pass of the loop does when the stop commit is nil: it
   * collects the first commit's patches and then dereferences nil in the
   * comparison with stop, unless looking up the first parent failed before.
   */
  function NilStop(store: Store, c: Commit): (r: Result<seq<PatchByPath>>)
    ensures r.Err? && r.error.Panic?
    ensures r == Err(Panic("nil parent")) <==> !FirstParentFound(store, c)
  {
    if |c.parents| > 0 && c.parents[0] !in store then Err(Panic("nil parent")) else Err(Panic("nil stop"))
  }

  /**
   * searchPatchByPath: the collected patches, oldest commit first. stop is
   * the *git.Oid the caller passes, None for nil.
   */
  function SearchPatchByPathSpec(store: Store, path: string, start: Oid, stop: Option<Oid>): Result<seq<PatchByPath>>
    requires WellFormed(store)
    requires stop.Some? && start in store ==> Terminates(store, store[start], stop.value)
  {
    if start !in store then Err(MissingCommit)
    else if stop.None? then NilStop(store, store[start])
    else
      match Collect(store, path, store[start], stop.value)
      case Err(e) => Err(e)
      case Ok(found) => Ok(Reversed(found))
  }

  /** The loop over the deltas of one commit's diff. */
  method CollectDeltas(id: Oid, deltas: seq<Delta>, path: string) returns (patchs: seq<PatchByPath>)
    ensures patchs == Matching(id, deltas, path)
  {
    patchs := [];
    for i := 0 to |deltas|
      invariant patchs == Matching(id, deltas[..i], path)
    {
      assert deltas[..i + 1][..i] == deltas[..i];
      if deltas[i].newPath == path {
        patchs := patchs + [PatchByPath(id, deltas[i])];
      }
    }
    assert deltas[..|deltas|] == deltas;
  }

  /** The two-index swap loop: a[..] ends up as its old contents reversed. */
  method ReverseInPlace<T>(a: array<T>)
    modifies a
    ensures a[..] == Reversed(old(a[..]))
  {
    ghost var s := a[..];
    var i, j := 0, a.Length - 1;
    while i < j
      invariant 0 <= i && i + j == a.Length - 1 && i <= j + 1
      invariant forall k :: 0 <= k < i ==> a[k] == s[|s| - 1 - k] && a[|s| - 1 - k] == s[k]
      invariant forall k :: i <= k <= j ==> a[k] == s[k]
    {
      a[i], a[j] := a[j], a[i];
      i, j := i + 1, j - 1;
    }
    ReversedIndex(s);
  }

  /** searchPatchByPath, as the loops the source runs; it may only be called where the walk finishes. */
  method SearchPatchByPath(store: Store, path: string, start: Oid, stop: Option<Oid>) returns (r: Result<seq<PatchByPath>>)
    requires WellFormed(store)
    requires stop.Some? && start in store ==> Terminates(store, store[start], stop.value)
    ensures r == SearchPatchByPathSpec(store, path, start, stop)
  {
    var first := Lookup(store, start);
    if first.None? {
      return Err(MissingCommit);
    }
    var cursor := first;
    var patchs: seq<PatchByPath> := [];
    if stop.Some? {
      PrependNothing(Collect(store, path, first.value, stop.value));
    }
    while cursor.Some?
      invariant cursor.Some? ==> Stored(store, cursor.value)
      invariant stop.None? ==> cursor == first
      invariant stop.Some? ==> cursor.Some? ==> Terminates(store, cursor.value, stop.value)
      invariant stop.Some? ==>
        Collect(store, path, first.value, stop.value)
          == if cursor.Some? then Prepend(patchs, Collect(store, path, cursor.value, stop.value)) else Ok(patchs)
      decreases if cursor.Some? then cursor.value.generation + 1 else 0
    {
      var c := cursor.value;
      var parents := Utils.CommitParents(store, c);
      if |parents| > 0 && parents[0].None? {
        return Err(Panic("nil parent"));
      }
      var found := CollectDeltas(c.id, c.plainDeltas, path);
      ghost var before := patchs;
      patchs := patchs + found;
      if stop.None? {
        return Err(Panic("nil stop"));
      }
      if c.id == stop.value {
        cursor := None;
      } else if |parents| > 0 {
        assert c.parents[0] in c.parents;
        cursor := parents[0];
        PrependTwice(before, found, Collect(store, path, cursor.value, stop.value));
      } else {
        assert false;
      }
    }
    var a := new PatchByPath[|patchs|](k requires 0 <= k < |patchs| => patchs[k]);
    assert a[..] == patchs;
    ReverseInPlace(a);
    r := Ok(a[..]);
  }

  // Properties of the reversal.

  /** Element k of the reversal is element |s| - 1 - k of the list. */
  lemma {:induction false} ReversedIndex<T>(s: seq<T>)
    ensures forall k :: 0 <= k < |s| ==> Reversed(s)[k] == s[|s| - 1 - k]
  {
    if s != [] {
      ReversedIndex(s[1..]);
    }
  }

  /** Reversing twice gives the list back. */
  lemma ReversedTwice<T>(s: seq<T>)
    ensures Reversed(Reversed(s)) == s
  {
    ReversedIndex(s);
    ReversedIndex(Reversed(s));
  }

  /** The reversal is a permutation. */
  lemma {:induction false} ReversedPermutes<T>(s: seq<T>)
    ensures multiset(Reversed(s)) == multiset(s)
  {
    if s != [] {
      ReversedPermutes(s[1..]);
      assert s == [s[0]] + s[1..];
    }
  }

  // Properties of the walk.

  /** The first parent of a commit, when there is one and it can be looked up. */
  predicate FirstParentFound(store: Store, c: Commit) {
    |c.parents| == 0 || c.parents[0] in store
  }

  /**
   * The commits down the first-parent line from c: c, then its first parent,
   * and so on, ending at the stop commit, at a commit without parents or at a
   * commit whose first parent cannot be looked up.
   */
  ghost function Chain(store: Store, c: Commit, stop: Oid): seq<Commit>
    requires WellFormed(store) && Stored(store, c)
    decreases c.generation
  {
    if c.id == stop || |c.parents| == 0 || c.parents[0] !in store then [c]
    else
      assert c.parents[0] in c.parents;
      [c] + Chain(store, store[c.parents[0]], stop)
  }

  /** The patches of a list of commits, in list order. */
  function Patches(cs: seq<Commit>, path: string): seq<PatchByPath>
    decreases |cs|
  {
    if cs == [] then [] else Matching(cs[0].id, cs[0].plainDeltas, path) + Patches(cs[1..], path)
  }

  /**
   * The chain follows first parents only and ends right after the stop
   * commit, at a root or at a commit whose first parent cannot be looked up;
   * where the walk as written finishes, it never ends at a root other than
   * the stop commit.
   */
  lemma {:induction false} ChainFollowsFirstParents(store: Store, c: Commit, stop: Oid)
    requires WellFormed(store) && Stored(store, c)
    ensures var ch := Chain(store, c, stop);
      |ch| >= 1 && ch[0] == c &&
      (forall k :: 0 <= k < |ch| - 1 ==>
        ch[k].id != stop && |ch[k].parents| > 0 && ch[k].parents[0] in store && ch[k + 1] == store[ch[k].parents[0]]) &&
      (ch[|ch| - 1].id == stop || |ch[|ch| - 1].parents| == 0 || !FirstParentFound(store, ch[|ch| - 1]))
    ensures Terminates(store, c, stop) ==>
      var last := Chain(store, c, stop)[|Chain(store, c, stop)| - 1];
      last.id == stop || !FirstParentFound(store, last)
    decreases c.generation
  {
    if c.id != stop && |c.parents| > 0 && c.parents[0] in store {
      assert c.parents[0] in c.parents;
      ChainFollowsFirstParents(store, store[c.parents[0]], stop);
    }
  }

  /**
   * The walk as written collects the matching patches of each commit on the
   * chain, in chain order, and fails exactly when a commit on the chain has a
   * first parent that cannot be looked up.
   */
  lemma {:induction false} CollectAlongChain(store: Store, path: string, c: Commit, stop: Oid)
    requires WellFormed(store) && Stored(store, c) && Terminates(store, c, stop)
    ensures var ch := Chain(store, c, stop);
      Collect(store, path, c, stop)
        == if forall k :: 0 <= k < |ch| ==> FirstParentFound(store, ch[k]) then Ok(Patches(ch, path))
           else Err(Panic("nil parent"))
    decreases c.generation
  {
    CollectToRootAgrees(store, path, c, stop);
    CollectToRootAlongChain(store, path, c, stop);
  }

  /** A commit without parents that is not the stop commit never lets the walk as written finish. */
  lemma RootNeverAdvances(store: Store, c: Commit, stop: Oid)
    requires WellFormed(store) && Stored(store, c)
    requires |c.parents| == 0 && c.id != stop
    ensures !Terminates(store, c, stop)
  {
  }

  /** Only patches of the given path, and all of them, from the commits the walk visits, oldest first. */
  lemma SearchPatchByPathResult(store: Store, path: string, start: Oid, stop: Oid)
    requires WellFormed(store) && start in store && Terminates(store, store[start], stop)
    requires forall k :: 0 <= k < |Chain(store, store[start], stop)| ==> FirstParentFound(store, Chain(store, store[start], stop)[k])
    ensures SearchPatchByPathSpec(store, path, start, Some(stop)) == Ok(Reversed(Patches(Chain(store, store[start], stop), path)))
  {
    CollectAlongChain(store, path, store[start], stop);
  }

  // The walk as evidently intended.

  /**
   * The walk with the cursor cleared at a commit without parents, as at the
   * stop commit: it finishes on every store whose parent links go back in
   * time, whether or not the stop commit lies on the first-parent line.
   */
  function CollectToRoot(store: Store, path: string, c: Commit, stop: Oid): Result<seq<PatchByPath>>
    requires WellFormed(store) && Stored(store, c)
    decreases c.generation
  {
    var parents := ParentLookups(store, c);
    if |parents| > 0 && parents[0].None? then Err(Panic("nil parent"))
    else if c.id == stop || |parents| == 0 then Ok(Matching(c.id, c.plainDeltas, path))
    else
      assert c.parents[0] in c.parents;
      Prepend(Matching(c.id, c.plainDeltas, path), CollectToRoot(store, path, parents[0].value, stop))
  }

  /** searchPatchByPath with the walk ending at a root. */
  function SearchPatchByPathCorrected(store: Store, path: string, start: Oid, stop: Option<Oid>): Result<seq<PatchByPath>>
    requires WellFormed(store)
  {
    if start !in store then Err(MissingCommit)
    else if stop.None? then NilStop(store, store[start])
    else
      match CollectToRoot(store, path, store[start], stop.value)
      case Err(e) => Err(e)
      case Ok(found) => Ok(Reversed(found))
  }

  /** Where the walk as written finishes, the corrected walk collects the same patches. */
  lemma {:induction false} CollectToRootAgrees(store: Store, path: string, c: Commit, stop: Oid)
    requires WellFormed(store) && Stored(store, c) && Terminates(store, c, stop)
    ensures CollectToRoot(store, path, c, stop) == Collect(store, path, c, stop)
    decreases c.generation
  {
    if c.id != stop && |c.parents| > 0 && c.parents[0] in store {
      assert c.parents[0] in c.parents;
      CollectToRootAgrees(store, path, store[c.parents[0]], stop);
    }
  }

  /**
   * The corrected walk collects the matching patches of each commit on the
   * chain, in chain order, and fails exactly when a commit on the chain has a
   * first parent that cannot be looked up.
   */
  lemma {:induction false} CollectToRootAlongChain(store: Store, path: string, c: Commit, stop: Oid)
    requires WellFormed(store) && Stored(store, c)
    ensures var ch := Chain(store, c, stop);
      CollectToRoot(store, path, c, stop)
        == if forall k :: 0 <= k < |ch| ==> FirstParentFound(store, ch[k]) then Ok(Patches(ch, path))
           else Err(Panic("nil parent"))
    decreases c.generation
  {
    var ch := Chain(store, c, stop);
    if c.id == stop || |c.parents| == 0 || c.parents[0] !in store {
      assert ch == [c];
      assert Patches(ch, path) == Matching(c.id, c.plainDeltas, path) + Patches([], path);
      assert Matching(c.id, c.plainDeltas, path) + [] == Matching(c.id, c.plainDeltas, path);
      assert (forall k :: 0 <= k < |ch| ==> FirstParentFound(store, ch[k])) <==> FirstParentFound(store, c);
    } else {
      assert c.parents[0] in c.parents;
      var p := store[c.parents[0]];
      CollectToRootAlongChain(store, path, p, stop);
      var rest := Chain(store, p, stop);
      assert ch[1..] == rest;
      assert FirstParentFound(store, ch[0]);
      assert (forall k :: 0 <= k < |ch| ==> FirstParentFound(store, ch[k]))
         <==> (forall k :: 0 <= k < |rest| ==> FirstParentFound(store, rest[k])) by {
        assert forall k :: 1 <= k < |ch| ==> ch[k] == rest[k - 1];
      }
    }
  }

  /**
   * The corrected searchPatchByPath needs no promise that the walk finishes:
   * from every stored start it returns the patches of the given path from
   * the whole chain, oldest first, agrees with the walk as written wherever
   * that one finishes, and at a root that is not the stop commit returns
   * that commit's patches where the walk as written spins.
   */
  lemma SearchPatchByPathCorrectedResult(store: Store, path: string, start: Oid, stop: Oid)
    requires WellFormed(store) && start in store
    requires forall k :: 0 <= k < |Chain(store, store[start], stop)| ==> FirstParentFound(store, Chain(store, store[start], stop)[k])
    ensures SearchPatchByPathCorrected(store, path, start, Some(stop)) == Ok(Reversed(Patches(Chain(store, store[start], stop), path)))
    ensures Terminates(store, store[start], stop) ==>
      SearchPatchByPathCorrected(store, path, start, Some(stop)) == SearchPatchByPathSpec(store, path, start, Some(stop))
    ensures |store[start].parents| == 0 && start != stop ==>
      !Terminates(store, store[start], stop) &&
      SearchPatchByPathCorrected(store, path, start, Some(stop)) == Ok(Reversed(Matching(start, store[start].plainDeltas, path)))
  {
    CollectToRootAlongChain(store, path, store[start], stop);
    if Terminates(store, store[start], stop) {
      CollectToRootAgrees(store, path, store[start], stop);
    }
    if |store[start].parents| == 0 && start != stop {
      RootNeverAdvances(store, store[start], stop);
      assert Chain(store, store[start], stop) == [store[start]];
      assert Patches([store[start]], path) == Matching(start, store[start].plainDeltas, path) + Patches([], path);
      assert Matching(start, store[start].plainDeltas, path) + [] == Matching(start, store[start].plainDeltas, path);
    }
  }
}
