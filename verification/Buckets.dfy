/** The memory that every scheme of the repository shares: type-stable nodes,
    one head pointer per bucket, and the life cycle a node goes through.

    A bucket's list is described without sequences.  `First(tb, b, lo, p)` says
    that the pointer `p` leads to the node of bucket `b` with the smallest key
    above `lo`, or is null when no node of the bucket has a key above `lo`.  A
    bucket is well formed when its head is `First` from below and the next
    pointer of each of its nodes is `First` from that node's key. */
module Buckets {
  datatype Option<+T> = None | Some(value: T)

  type Ref = nat

  /** The fields of the C node.  `mr_next` belongs to the free lists and zombie
      lists, which have models of their own. */
  datatype Node = Node(key: int, next: Option<Ref>, rc: nat, gc: nat)

  /** Where a node is in its life.  The argument of `Linked` and `Unlinked` is a
      bucket, the argument of the other constructors is the operation or the
      thread that owns the node. */
  datatype Status =
    | Free
    | Private(who: nat)    // handed out by the allocator, not yet published
    | Linked(bucket: nat)
    | Unlinked(bucket: nat)  // unlinked; its reclamation has not started
    | Retired(who: nat)    // unlinked; its reclamation has started
    | Dying(who: nat)      // reference count 0, its next link is still counted
    | Dead(who: nat)       // reference count 0, about to be freed

  /** The address of a link: a bucket's head, or the next field of a node. */
  datatype Loc = Head | NextOf(node: Ref)

  datatype Table = Table(heads: seq<Option<Ref>>, mem: seq<Node>, status: seq<Status>)

  predicate Shaped(tb: Table) {
    |tb.mem| == |tb.status|
  }

  predicate LocOk(tb: Table, b: nat, loc: Loc) {
    b < |tb.heads| && (loc.NextOf? ==> loc.node < |tb.mem|)
  }

  function Load(tb: Table, b: nat, loc: Loc): Option<Ref>
    requires LocOk(tb, b, loc)
  {
    match loc
    case Head => tb.heads[b]
    case NextOf(n) => tb.mem[n].next
  }

  function Store(tb: Table, b: nat, loc: Loc, p: Option<Ref>): Table
    requires LocOk(tb, b, loc)
  {
    match loc
    case Head => tb.(heads := tb.heads[b := p])
    case NextOf(n) => tb.(mem := tb.mem[n := tb.mem[n].(next := p)])
  }

  function SetStatus(tb: Table, n: Ref, s: Status): Table
    requires n < |tb.status|
  {
    tb.(status := tb.status[n := s])
  }

  predicate LinkedIn(tb: Table, b: nat, n: Ref) {
    n < |tb.mem| && n < |tb.status| && tb.status[n] == Linked(b)
  }

  /** Membership of a key in a bucket, by the life cycle. */
  ghost predicate Has(tb: Table, b: nat, key: int) {
    exists n: Ref :: LinkedIn(tb, b, n) && tb.mem[n].key == key
  }

  predicate Above(lo: Option<int>, key: int) {
    lo.Some? ==> lo.value < key
  }

  ghost predicate First(tb: Table, b: nat, lo: Option<int>, p: Option<Ref>) {
    match p
    case None =>
      forall n: Ref :: LinkedIn(tb, b, n) ==> !Above(lo, tb.mem[n].key)
    case Some(m) =>
      && LinkedIn(tb, b, m)
      && Above(lo, tb.mem[m].key)
      && forall n: Ref :: LinkedIn(tb, b, n) && Above(lo, tb.mem[n].key) ==> tb.mem[m].key <= tb.mem[n].key
  }

  ghost predicate BucketOk(tb: Table, b: nat)
    requires b < |tb.heads|
  {
    && First(tb, b, None, tb.heads[b])
    && (forall n: Ref :: LinkedIn(tb, b, n) ==> First(tb, b, Some(tb.mem[n].key), tb.mem[n].next))
    && (forall m: Ref, n: Ref :: LinkedIn(tb, b, m) && LinkedIn(tb, b, n) && tb.mem[m].key == tb.mem[n].key ==> m == n)
  }

  /** Every next field, also that of a node off the lists, is null or a node. */
  predicate PointersOk(tb: Table) {
    forall n: Ref :: n < |tb.mem| && tb.mem[n].next.Some? ==> tb.mem[n].next.value < |tb.mem|
  }

  ghost predicate WellFormed(tb: Table) {
    Shaped(tb) && PointersOk(tb) && forall b: nat {:trigger tb.heads[b]} {:trigger BucketOk(tb, b)} ::
        b < |tb.heads| ==> BucketOk(tb, b)
  }

  // ----- what a pointer walk from the head of a bucket meets

  /** `steps` next hops from `p` lead to node `n`. */
  predicate Reaches(mem: seq<Node>, p: Option<Ref>, n: Ref, steps: nat)
    ensures Reaches(mem, p, n, steps) ==> n < |mem|
    decreases steps
  {
    p.Some? && p.value < |mem| &&
    if steps == 0 then p.value == n else Reaches(mem, mem[p.value].next, n, steps - 1)
  }

  /** The specification of `search`: walking from the head meets `key`. */
  ghost predicate Contains(tb: Table, b: nat, key: int)
    requires b < |tb.heads|
  {
    exists n: Ref, steps: nat :: Reaches(tb.mem, tb.heads[b], n, steps) && tb.mem[n].key == key
  }

  ghost function Beyond(tb: Table, b: nat, lo: Option<int>): set<Ref> {
    set n | 0 <= n < |tb.mem| && LinkedIn(tb, b, n) && Above(lo, tb.mem[n].key)
  }

  lemma {:induction false} WalkFinds(tb: Table, b: nat, lo: Option<int>, p: Option<Ref>, n: Ref) returns (steps: nat)
    requires WellFormed(tb) && b < |tb.heads|
    requires First(tb, b, lo, p) && LinkedIn(tb, b, n) && Above(lo, tb.mem[n].key)
    ensures Reaches(tb.mem, p, n, steps)
    decreases Beyond(tb, b, lo)
  {
    assert BucketOk(tb, b);
    var m := p.value;
    if m == n {
      steps := 0;
    } else {
      var lo' := Some(tb.mem[m].key);
      assert m in Beyond(tb, b, lo) && m !in Beyond(tb, b, lo');
      assert Beyond(tb, b, lo') <= Beyond(tb, b, lo);
      var rest := WalkFinds(tb, b, lo', tb.mem[m].next, n);
      steps := rest + 1;
    }
  }

  /** A walk stays inside the bucket, and each hop raises the key: the list is
      strictly sorted and acyclic. */
  lemma {:induction false} WalkStays(tb: Table, b: nat, lo: Option<int>, p: Option<Ref>, n: Ref, steps: nat)
    requires WellFormed(tb) && b < |tb.heads|
    requires First(tb, b, lo, p) && Reaches(tb.mem, p, n, steps)
    ensures LinkedIn(tb, b, n) && Above(lo, tb.mem[n].key)
    ensures steps > 0 ==> p.value != n && tb.mem[p.value].key < tb.mem[n].key
    decreases steps
  {
    assert BucketOk(tb, b);
    if steps > 0 {
      WalkStays(tb, b, Some(tb.mem[p.value].key), tb.mem[p.value].next, n, steps - 1);
    }
  }

  lemma {:induction false} WalkSplits(mem: seq<Node>, p: Option<Ref>, n: Ref, x: nat, m: Ref, y: nat)
    requires Reaches(mem, p, n, x) && Reaches(mem, p, m, y) && x <= y
    ensures Reaches(mem, Some(n), m, y - x)
    decreases x
  {
    if x > 0 {
      WalkSplits(mem, mem[p.value].next, n, x - 1, m, y - 1);
    }
  }

  /** The walk from the head meets strictly increasing keys, so it meets no node
      twice. */
  lemma WalkSorted(tb: Table, b: nat, n: Ref, x: nat, m: Ref, y: nat)
    requires WellFormed(tb) && b < |tb.heads| && x < y
    requires Reaches(tb.mem, tb.heads[b], n, x) && Reaches(tb.mem, tb.heads[b], m, y)
    ensures n != m && tb.mem[n].key < tb.mem[m].key
  {
    assert BucketOk(tb, b);
    WalkSplits(tb.mem, tb.heads[b], n, x, m, y);
    WalkStays(tb, b, None, tb.heads[b], n, x);
    WalkStays(tb, b, Some(tb.mem[n].key), tb.mem[n].next, m, y - x - 1);
  }

  lemma {:induction false} LastHop(tb: Table, b: nat, lo: Option<int>, p: Option<Ref>, n: Ref, steps: nat)
    returns (m: Ref)
    requires WellFormed(tb) && b < |tb.heads|
    requires First(tb, b, lo, p) && Reaches(tb.mem, p, n, steps) && steps > 0
    ensures LinkedIn(tb, b, m) && tb.mem[m].next == Some(n)
    decreases steps
  {
    assert BucketOk(tb, b);
    if steps == 1 {
      m := p.value;
    } else {
      m := LastHop(tb, b, Some(tb.mem[p.value].key), tb.mem[p.value].next, n, steps - 1);
    }
  }

  /** A linked node has an incoming link of its bucket. */
  lemma HasPredecessor(tb: Table, b: nat, n: Ref) returns (loc: Loc)
    requires WellFormed(tb) && b < |tb.heads| && LinkedIn(tb, b, n)
    ensures LocOk(tb, b, loc) && Load(tb, b, loc) == Some(n)
    ensures loc.NextOf? ==> LinkedIn(tb, b, loc.node)
  {
    assert BucketOk(tb, b);
    var steps := WalkFinds(tb, b, None, tb.heads[b], n);
    if steps == 0 {
      loc := Head;
    } else {
      var m := LastHop(tb, b, None, tb.heads[b], n, steps);
      loc := NextOf(m);
    }
  }

  /** In a well-formed table the walk and the life cycle agree. */
  lemma ContainsIsHas(tb: Table, b: nat, key: int)
    requires WellFormed(tb) && b < |tb.heads|
    ensures Contains(tb, b, key) <==> Has(tb, b, key)
  {
    if Has(tb, b, key) {
      var n: Ref :| LinkedIn(tb, b, n) && tb.mem[n].key == key;
      var steps := WalkFinds(tb, b, None, tb.heads[b], n);
      assert Reaches(tb.mem, tb.heads[b], n, steps) && tb.mem[n].key == key;
    }
    if Contains(tb, b, key) {
      var n: Ref, steps: nat :| Reaches(tb.mem, tb.heads[b], n, steps) && tb.mem[n].key == key;
      WalkStays(tb, b, None, tb.heads[b], n, steps);
    }
  }

  // ----- one traversal step

  /** What the pointer found after a node with a smaller key says about `key`. */
  ghost predicate Verdict(tb: Table, b: nat, key: int, p: Option<Ref>) {
    match p
    case None => !Has(tb, b, key)
    case Some(m) =>
      && LinkedIn(tb, b, m)
      && (tb.mem[m].key == key ==> Has(tb, b, key))
      && (tb.mem[m].key > key ==> !Has(tb, b, key))
  }

  lemma FirstDecides(tb: Table, b: nat, lo: Option<int>, p: Option<Ref>, key: int)
    requires First(tb, b, lo, p) && Above(lo, key)
    ensures Verdict(tb, b, key, p)
  {
  }

  // ----- the set of a bucket before and after

  ghost predicate SameKeys(tb: Table, tb': Table, b: nat) {
    forall k :: Has(tb, b, k) <==> Has(tb', b, k)
  }

  ghost predicate Removes(tb: Table, tb': Table, b: nat, key: int) {
    Has(tb, b, key) && forall k :: Has(tb', b, k) <==> Has(tb, b, k) && k != key
  }

  ghost predicate Adds(tb: Table, tb': Table, b: nat, key: int) {
    !Has(tb, b, key) && forall k :: Has(tb', b, k) <==> Has(tb, b, k) || k == key
  }

  // ----- the writer's position and its two list stores

  /** A writer looking for `key` stands at link `prev`, which holds `cur`. */
  predicate At(tb: Table, b: nat, prev: Loc, cur: Option<Ref>, key: int) {
    && LocOk(tb, b, prev)
    && Load(tb, b, prev) == cur
    && (prev.NextOf? ==> LinkedIn(tb, b, prev.node) && tb.mem[prev.node].key < key)
  }

  /** The position from which `key` is deleted or inserted. */
  predicate Stop(tb: Table, b: nat, prev: Loc, cur: Option<Ref>, key: int) {
    At(tb, b, prev, cur, key) && (cur.Some? ==> cur.value < |tb.mem| && key <= tb.mem[cur.value].key)
  }

  function Unlink(tb: Table, b: nat, prev: Loc, c: Ref): Table
    requires LocOk(tb, b, prev) && c < |tb.mem| && Shaped(tb)
  {
    SetStatus(Store(tb, b, prev, tb.mem[c].next), c, Unlinked(b))
  }

  function Publish(tb: Table, b: nat, prev: Loc, n: Ref): Table
    requires LocOk(tb, b, prev) && n < |tb.mem| && Shaped(tb)
  {
    SetStatus(Store(tb, b, prev, Some(n)), n, Linked(b))
  }

  /** A node that is linked in bucket `b`, or unlinked from it and not reclaimed. */
  predicate Owned(tb: Table, b: nat, n: Ref) {
    n < |tb.mem| && n < |tb.status| && (tb.status[n] == Linked(b) || tb.status[n] == Unlinked(b))
  }

  /** Its next pointer still leads to the list: the key order has no gap there. */
  ghost predicate Anchored(tb: Table, b: nat, n: Ref)
    requires n < |tb.mem|
  {
    First(tb, b, Some(tb.mem[n].key), tb.mem[n].next)
  }

  /** The bucket is the same list before and after. */
  ghost predicate SameBucket(tb: Table, tb': Table, b: nat) {
    && b < |tb.heads| == |tb'.heads|
    && tb.heads[b] == tb'.heads[b]
    && |tb.mem| == |tb'.mem|
    && (forall n: Ref :: LinkedIn(tb, b, n) <==> LinkedIn(tb', b, n))
    && (forall n: Ref :: LinkedIn(tb, b, n) ==> tb.mem[n].key == tb'.mem[n].key && tb.mem[n].next == tb'.mem[n].next)
  }

  lemma SameBucketKeeps(tb: Table, tb': Table, b: nat)
    requires SameBucket(tb, tb', b)
    ensures BucketOk(tb, b) ==> BucketOk(tb', b)
    ensures forall key :: Has(tb, b, key) <==> Has(tb', b, key)
    ensures forall lo, p :: First(tb, b, lo, p) <==> First(tb', b, lo, p)
  {
  }

  lemma StoreElsewhere(tb: Table, tb': Table, b: nat, prev: Loc, p: Option<Ref>, n: Ref, s: Status)
    requires Shaped(tb) && LocOk(tb, b, prev) && n < |tb.mem|
    requires prev.NextOf? ==> LinkedIn(tb, b, prev.node)
    requires tb.status[n].Linked? ==> tb.status[n] == Linked(b)
    requires s.Linked? ==> s == Linked(b)
    requires tb' == SetStatus(Store(tb, b, prev, p), n, s)
    ensures forall b': nat :: b' < |tb.heads| && b' != b ==> SameBucket(tb, tb', b')
  {
  }

  /** What a reader of the bucket can see of `delete`'s store to `*prev`. */
  ghost predicate Removed(tb: Table, tb': Table, b: nat, prev: Loc, c: Ref) {
    && |tb.mem| == |tb'.mem| && LocOk(tb, b, prev) && LinkedIn(tb, b, c)
    && (forall m: Ref :: LinkedIn(tb', b, m) <==> LinkedIn(tb, b, m) && m != c)
    && (forall m: Ref :: m < |tb.mem| ==> tb'.mem[m].key == tb.mem[m].key)
    && (forall m: Ref :: m < |tb.mem| && prev != NextOf(m) ==> tb'.mem[m].next == tb.mem[m].next)
  }

  lemma RemovedFirst(tb: Table, tb': Table, b: nat, prev: Loc, c: Ref, lo: Option<int>, p: Option<Ref>)
    requires Removed(tb, tb', b, prev, c) && First(tb, b, lo, p)
    ensures p != Some(c) ==> First(tb', b, lo, p)
    ensures p == Some(c) && First(tb, b, Some(tb.mem[c].key), tb.mem[c].next)
            && (forall m: Ref :: LinkedIn(tb, b, m) && tb.mem[m].key == tb.mem[c].key ==> m == c)
            ==> First(tb', b, lo, tb.mem[c].next)
  {
  }

  /** The bucket's part of `delete`'s store to `*prev`. */
  lemma UnlinkBucket(tb: Table, tb': Table, b: nat, prev: Loc, c: Ref, key: int)
    requires Shaped(tb) && Stop(tb, b, prev, Some(c), key) && BucketOk(tb, b) && tb.mem[c].key == key
    requires tb' == Unlink(tb, b, prev, c)
    ensures Removed(tb, tb', b, prev, c) && BucketOk(tb', b) && Anchored(tb', b, c)
  {
    var lo := if prev.Head? then None else Some(tb.mem[prev.node].key);
    assert First(tb, b, lo, Some(c));
    assert Removed(tb, tb', b, prev, c);
    RemovedFirst(tb, tb', b, prev, c, lo, Some(c));
    RemovedFirst(tb, tb', b, prev, c, None, tb.heads[b]);
    RemovedFirst(tb, tb', b, prev, c, Some(tb.mem[c].key), tb.mem[c].next);
    forall n: Ref | LinkedIn(tb', b, n) ensures First(tb', b, Some(tb'.mem[n].key), tb'.mem[n].next) {
      RemovedFirst(tb, tb', b, prev, c, Some(tb.mem[n].key), tb.mem[n].next);
      if prev != NextOf(n) {
        OnlyPredecessor(tb, b, prev, c, n);
      }
    }
  }

  /** No node but the one `prev` belongs to links to `c`. */
  lemma OnlyPredecessor(tb: Table, b: nat, prev: Loc, c: Ref, n: Ref)
    requires b < |tb.heads| && BucketOk(tb, b) && LocOk(tb, b, prev) && Load(tb, b, prev) == Some(c)
    requires prev.NextOf? ==> LinkedIn(tb, b, prev.node)
    requires LinkedIn(tb, b, n) && prev != NextOf(n)
    ensures tb.mem[n].next != Some(c)
  {
    assert First(tb, b, Some(tb.mem[n].key), tb.mem[n].next);
    if prev.NextOf? {
      assert First(tb, b, Some(tb.mem[prev.node].key), Some(c));
    }
  }

  /** `delete`'s store to `*prev`: the key leaves the set, no other bucket
      changes, and the unlinked node still leads into the list. */
  lemma UnlinkEffect(tb: Table, b: nat, prev: Loc, c: Ref, key: int)
    requires WellFormed(tb) && Stop(tb, b, prev, Some(c), key) && tb.mem[c].key == key
    ensures var tb' := Unlink(tb, b, prev, c);
            && WellFormed(tb')
            && Anchored(tb', b, c)
            && Has(tb, b, key)
            && (forall k :: Has(tb', b, k) <==> Has(tb, b, k) && k != key)
            && (forall b': nat :: b' < |tb.heads| && b' != b ==> SameBucket(tb, tb', b'))
  {
    var tb' := Unlink(tb, b, prev, c);
    UnlinkBucket(tb, tb', b, prev, c, key);
    StoreElsewhere(tb, tb', b, prev, tb.mem[c].next, c, Unlinked(b));
    forall b': nat | b' < |tb.heads| ensures BucketOk(tb', b') {
      if b' != b {
        SameBucketKeeps(tb, tb', b');
      }
    }
    forall k ensures Has(tb', b, k) <==> Has(tb, b, k) && k != key {
      if Has(tb, b, k) && k != key {
        var n: Ref :| LinkedIn(tb, b, n) && tb.mem[n].key == k;
        assert LinkedIn(tb', b, n) && tb'.mem[n].key == k;
      }
      if Has(tb', b, k) {
        var n: Ref :| LinkedIn(tb', b, n) && tb'.mem[n].key == k;
        assert LinkedIn(tb, b, n) && tb.mem[n].key == k;
      }
    }
  }

  /** What a reader of the bucket can see of `insert`'s store to `*prev`. */
  ghost predicate Inserted(tb: Table, tb': Table, b: nat, prev: Loc, n: Ref) {
    && |tb.mem| == |tb'.mem| && LocOk(tb, b, prev) && n < |tb.mem|
    && (forall m: Ref :: LinkedIn(tb', b, m) <==> LinkedIn(tb, b, m) || m == n)
    && (forall m: Ref :: m < |tb.mem| ==> tb'.mem[m].key == tb.mem[m].key)
    && (forall m: Ref :: m < |tb.mem| && prev != NextOf(m) ==> tb'.mem[m].next == tb.mem[m].next)
  }

  lemma InsertedFirst(tb: Table, tb': Table, b: nat, prev: Loc, n: Ref, lo: Option<int>, p: Option<Ref>)
    requires Inserted(tb, tb', b, prev, n) && First(tb, b, lo, p)
    ensures Above(lo, tb.mem[n].key) ==> (p.Some? && tb.mem[p.value].key <= tb.mem[n].key ==> First(tb', b, lo, p))
    ensures Above(lo, tb.mem[n].key) ==> (p.Some? ==> tb.mem[n].key <= tb.mem[p.value].key) ==> First(tb', b, lo, Some(n))
    ensures !Above(lo, tb.mem[n].key) ==> First(tb', b, lo, p)
  {
  }

  /** The bucket's part of `insert`'s store to `*prev`. */
  lemma PublishBucket(tb: Table, tb': Table, b: nat, prev: Loc, cur: Option<Ref>, n: Ref, key: int)
    requires Shaped(tb) && Stop(tb, b, prev, cur, key) && BucketOk(tb, b)
    requires cur.Some? ==> key < tb.mem[cur.value].key
    requires n < |tb.mem| && !tb.status[n].Linked? && tb.mem[n].key == key && tb.mem[n].next == cur
    requires tb' == Publish(tb, b, prev, n)
    ensures Inserted(tb, tb', b, prev, n) && BucketOk(tb', b) && !Has(tb, b, key)
  {
    var lo := if prev.Head? then None else Some(tb.mem[prev.node].key);
    assert Inserted(tb, tb', b, prev, n);
    assert First(tb, b, lo, cur);
    InsertedFirst(tb, tb', b, prev, n, lo, cur);
    InsertedNexts(tb, tb', b, prev, cur, n, lo);
    if prev.NextOf? {
      InsertedFirst(tb, tb', b, prev, n, None, tb.heads[b]);
    }
  }

  lemma InsertedNexts(tb: Table, tb': Table, b: nat, prev: Loc, cur: Option<Ref>, n: Ref, lo: Option<int>)
    requires Inserted(tb, tb', b, prev, n) && BucketOk(tb, b) && First(tb, b, lo, cur)
    requires lo == if prev.Head? then None else Some(tb.mem[prev.node].key)
    requires prev.NextOf? ==> LinkedIn(tb, b, prev.node) && tb'.mem[prev.node].next == Some(n)
    requires Above(lo, tb.mem[n].key) && (cur.Some? ==> tb.mem[n].key < tb.mem[cur.value].key)
    requires tb'.mem[n].next == cur && prev != NextOf(n)
    ensures forall m: Ref :: LinkedIn(tb', b, m) ==> First(tb', b, Some(tb'.mem[m].key), tb'.mem[m].next)
  {
    InsertedFirst(tb, tb', b, prev, n, lo, cur);
    forall m: Ref | LinkedIn(tb', b, m) ensures First(tb', b, Some(tb'.mem[m].key), tb'.mem[m].next) {
      if m == n {
        assert First(tb, b, Some(tb.mem[n].key), cur);
        InsertedFirst(tb, tb', b, prev, n, Some(tb.mem[n].key), cur);
      } else if prev != NextOf(m) {
        var p := tb.mem[m].next;
        InsertedFirst(tb, tb', b, prev, n, Some(tb.mem[m].key), p);
        assert tb.mem[m].key < tb.mem[n].key ==> p.Some? && prev.NextOf? && tb.mem[p.value].key <= tb.mem[prev.node].key;
      }
    }
  }

  /** `insert`'s store to `*prev`: the key enters the set and no other bucket changes. */
  lemma PublishEffect(tb: Table, b: nat, prev: Loc, cur: Option<Ref>, n: Ref, key: int)
    requires WellFormed(tb) && Stop(tb, b, prev, cur, key)
    requires cur.Some? ==> key < tb.mem[cur.value].key
    requires n < |tb.mem| && !tb.status[n].Linked? && tb.mem[n].key == key && tb.mem[n].next == cur
    ensures var tb' := Publish(tb, b, prev, n);
            && WellFormed(tb')
            && !Has(tb, b, key)
            && (forall k :: Has(tb', b, k) <==> Has(tb, b, k) || k == key)
            && (forall b': nat :: b' < |tb.heads| && b' != b ==> SameBucket(tb, tb', b'))
  {
    var tb' := Publish(tb, b, prev, n);
    PublishBucket(tb, tb', b, prev, cur, n, key);
    StoreElsewhere(tb, tb', b, prev, Some(n), n, Linked(b));
    forall b': nat | b' < |tb.heads| ensures BucketOk(tb', b') {
      if b' != b {
        SameBucketKeeps(tb, tb', b');
      }
    }
    forall k ensures Has(tb', b, k) <==> Has(tb, b, k) || k == key {
      if Has(tb, b, k) {
        var m: Ref :| LinkedIn(tb, b, m) && tb.mem[m].key == k;
        assert LinkedIn(tb', b, m) && tb'.mem[m].key == k;
      }
      assert LinkedIn(tb', b, n) && tb'.mem[n].key == key;
      if Has(tb', b, k) {
        var m: Ref :| LinkedIn(tb', b, m) && tb'.mem[m].key == k;
        assert m == n || (LinkedIn(tb, b, m) && tb.mem[m].key == k);
      }
    }
  }
}
