/**
 * Git objects as the modelled code sees them. The diffs that libgit2 and go-git
 * compute are inputs here: each commit carries the delta lists those libraries
 * report for it.
 */
module Git {
  import opened Wrappers
  import opened Hex

  /** libgit2's git_delta_t. */
  datatype DeltaStatus =
    | Unmodified | Added | Deleted | Modified | Renamed | Copied
    | Ignored | Untracked | Typechange | Unreadable | Conflicted

  /**
   * One libgit2 diff delta: its status and the old and new file paths. For a
   * deletion libgit2 reports the deleted path on both sides, for an addition
   * the added path on both sides.
   */
  datatype Delta = Delta(status: DeltaStatus, oldPath: string, newPath: string)

  /** One go-git tree change or file patch: the path on each side, None where a side is absent. */
  datatype Change = Change(from: Option<string>, to: Option<string>)

  /**
   * A commit. deltas: libgit2's diff of the commit's tree against its first
   * parent's tree (against no tree for a root commit), with rename and copy
   * detection (Diff.FindSimilar). plainDeltas: the same diff without that
   * pass, so no delta in it is Renamed or Copied: a renamed file shows as the
   * deletion of its old path and the addition of its new one. changes:
   * go-git's diff against the first parent. files: the
   * commit's tree listing. generation: the commit-graph generation number,
   * larger than that of every parent.
   */
  datatype Commit = Commit(
    id: Oid,
    message: string,
    parents: seq<Oid>,
    generation: nat,
    deltas: seq<Delta>,
    plainDeltas: seq<Delta>,
    changes: seq<Change>,
    files: seq<string>)

  /** The object database: commits by id. */
  type Store = map<Oid, Commit>

  /** Every stored parent of c is older than c. */
  ghost predicate ParentsOlder(store: Store, c: Commit) {
    forall p | p in c.parents && p in store :: store[p].generation < c.generation
  }

  /** Commits are stored under their ids, and parent links go back in time. */
  ghost predicate WellFormed(store: Store) {
    forall id | id in store :: store[id].id == id && ParentsOlder(store, store[id])
  }

  predicate Stored(store: Store, c: Commit) {
    c.id in store && store[c.id] == c
  }

  /** Repository.LookupCommit. */
  function Lookup(store: Store, id: Oid): (r: Option<Commit>)
    ensures r.Some? <==> id in store
    ensures r.Some? ==> r.value == store[id]
  {
    if id in store then Some(store[id]) else None
  }

  /** The parents of c, looked up in index order; None where a lookup fails. */
  function ParentLookups(store: Store, c: Commit): (r: seq<Option<Commit>>)
    ensures |r| == |c.parents|
    ensures forall i :: 0 <= i < |r| ==> r[i] == Lookup(store, c.parents[i])
  {
    seq(|c.parents|, i requires 0 <= i < |c.parents| => Lookup(store, c.parents[i]))
  }

  /**
   * The number of times a walk that enqueues every parent without remembering
   * what it has seen processes an entry when it starts from c: one for c and
   * the count for each parent, one for a parent that cannot be looked up.
   */
  ghost function Visits(store: Store, c: Commit): nat
    requires WellFormed(store) && Stored(store, c)
    decreases c.generation, 1
  {
    1 + ParentVisits(store, c, 0)
  }

  ghost function ParentVisits(store: Store, c: Commit, k: nat): nat
    requires WellFormed(store) && Stored(store, c) && k <= |c.parents|
    decreases c.generation, 0, |c.parents| - k
  {
    if k == |c.parents| then 0
    else
      var p := c.parents[k];
      assert p in c.parents;
      (if p in store then Visits(store, store[p]) else 1) + ParentVisits(store, c, k + 1)
  }

  /** Entries of a walk queue hold stored commits, or None for a failed lookup. */
  ghost predicate QueueStored(store: Store, q: seq<Option<Commit>>) {
    forall i | 0 <= i < |q| && q[i].Some? :: Stored(store, q[i].value)
  }

  /** The work left in a walk queue. */
  ghost function QueueWeight(store: Store, q: seq<Option<Commit>>): nat
    requires WellFormed(store) && QueueStored(store, q)
  {
    if q == [] then 0
    else (if q[0].Some? then Visits(store, q[0].value) else 1) + QueueWeight(store, q[1..])
  }

  lemma {:induction false} QueueWeightAppend(store: Store, a: seq<Option<Commit>>, b: seq<Option<Commit>>)
    requires WellFormed(store) && QueueStored(store, a) && QueueStored(store, b)
    ensures QueueStored(store, a + b)
    ensures QueueWeight(store, a + b) == QueueWeight(store, a) + QueueWeight(store, b)
  {
    if a != [] {
      assert (a + b)[1..] == a[1..] + b;
      QueueWeightAppend(store, a[1..], b);
    } else {
      assert a + b == b;
    }
  }

  lemma {:induction false} ParentsWeightFrom(store: Store, c: Commit, k: nat)
    requires WellFormed(store) && Stored(store, c) && k <= |c.parents|
    ensures QueueStored(store, ParentLookups(store, c)[k..])
    ensures QueueWeight(store, ParentLookups(store, c)[k..]) == ParentVisits(store, c, k)
    decreases |c.parents| - k
  {
    var q := ParentLookups(store, c)[k..];
    if k < |c.parents| {
      ParentsWeightFrom(store, c, k + 1);
      assert q[1..] == ParentLookups(store, c)[k + 1..];
    }
  }

  /** Replacing a commit in the queue by its looked-up parents removes exactly one unit of work. */
  lemma ParentsWeight(store: Store, c: Commit)
    requires WellFormed(store) && Stored(store, c)
    ensures QueueStored(store, ParentLookups(store, c))
    ensures QueueWeight(store, ParentLookups(store, c)) == Visits(store, c) - 1
  {
    ParentsWeightFrom(store, c, 0);
    assert ParentLookups(store, c)[0..] == ParentLookups(store, c);
  }

  /** A looked-up commit is stored. */
  lemma LookupStored(store: Store, id: Oid)
    requires WellFormed(store)
    ensures QueueStored(store, [Lookup(store, id)])
  {
  }
}
