/** `insert` and `delete` of list_writer.c as a program counter and one step per
    shared store.  Every scheme runs these steps; they differ in what surrounds
    them (locks) and in what `free_node_later` does with the unlinked node.

    A writer is the only one that stores to its bucket, so each of its traversal
    iterations reads memory that nobody else changes and is one step. */
module ListWriter {
  import opened Buckets

  datatype Op =
    | Idle(done: bool)                                           // about to unlock and return `done`
    | Walking(del: bool, key: int, prev: Loc, cur: Option<Ref>)  // top of the loop
    | Unlinking(key: int, prev: Loc, node: Ref)                  // *prev = cur->next
    | Reclaiming(node: Ref, stage: nat)                          // free_node_later, after `stage` of its stores
    | Allocating(key: int, prev: Loc, cur: Option<Ref>)          // new_node()
    | Keying(node: Ref, key: int, prev: Loc, cur: Option<Ref>)   // new->key = key
    | Linking(node: Ref, key: int, prev: Loc, cur: Option<Ref>)  // new->next = cur
    | Publishing(node: Ref, key: int, prev: Loc, cur: Option<Ref>) // *prev = new

  function Start(tb: Table, b: nat, del: bool, key: int): Op
    requires b < |tb.heads|
  {
    Walking(del, key, Head, tb.heads[b])
  }

  /** One iteration of the traversal loop. */
  function WalkNext(tb: Table, op: Op): Op
    requires op.Walking?
  {
    match op.cur
    case None => if op.del then Idle(false) else Allocating(op.key, op.prev, None)
    case Some(c) =>
      if c >= |tb.mem| then Idle(false)
      else if tb.mem[c].key < op.key then Walking(op.del, op.key, NextOf(c), tb.mem[c].next)
      else if tb.mem[c].key == op.key then (if op.del then Unlinking(op.key, op.prev, c) else Idle(false))
      else if op.del then Idle(false)
      else Allocating(op.key, op.prev, op.cur)
  }

  ghost predicate Gap(tb: Table, b: nat, key: int, prev: Loc, cur: Option<Ref>) {
    Stop(tb, b, prev, cur, key) && (cur.Some? ==> key < tb.mem[cur.value].key)
  }

  ghost predicate Prepared(tb: Table, who: nat, n: Ref) {
    n < |tb.mem| && n < |tb.status| && tb.status[n] == Private(who)
  }

  /** What holds at each program counter of the writer of bucket `b`. */
  ghost predicate OpOk(tb: Table, b: nat, who: nat, op: Op) {
    && b < |tb.heads|
    && match op
       case Idle(_) => true
       case Walking(_, key, prev, cur) => At(tb, b, prev, cur, key)
       case Unlinking(key, prev, n) => Stop(tb, b, prev, Some(n), key) && tb.mem[n].key == key
       case Reclaiming(n, stage) =>
         n < |tb.mem| && n < |tb.status| &&
         if stage == 0 then tb.status[n] == Unlinked(b) && Anchored(tb, b, n) else tb.status[n] == Retired(who)
       case Allocating(key, prev, cur) => Gap(tb, b, key, prev, cur)
       case Keying(n, key, prev, cur) => Gap(tb, b, key, prev, cur) && Prepared(tb, who, n)
       case Linking(n, key, prev, cur) => Gap(tb, b, key, prev, cur) && Prepared(tb, who, n) && tb.mem[n].key == key
       case Publishing(n, key, prev, cur) =>
         Gap(tb, b, key, prev, cur) && Prepared(tb, who, n) && tb.mem[n].key == key && tb.mem[n].next == cur
  }

  /** The off-list node an operation holds, and the status it must have. */
  function Held(op: Op, b: nat, who: nat): Option<(Ref, Status)> {
    match op
    case Reclaiming(n, stage) => Some((n, if stage == 0 then Unlinked(b) else Retired(who)))
    case Keying(n, _, _, _) => Some((n, Private(who)))
    case Linking(n, _, _, _) => Some((n, Private(who)))
    case Publishing(n, _, _, _) => Some((n, Private(who)))
    case _ => None
  }

  predicate Mine(s: Status, b: nat, who: nat) {
    s == Linked(b) || s == Unlinked(b) || s == Private(who) || s == Retired(who)
  }

  /** A step of the writer of `b` touches only its own nodes and free nodes. */
  ghost predicate Confined(tb: Table, tb': Table, b: nat, who: nat) {
    && |tb.mem| == |tb'.mem| == |tb.status| == |tb'.status|
    && b < |tb.heads| == |tb'.heads|
    && (forall b': nat :: b' < |tb.heads| && b' != b ==> tb'.heads[b'] == tb.heads[b'])
    && (forall n: Ref :: n < |tb.mem| ==>
          if tb.status[n] == Free || Mine(tb.status[n], b, who)
          then tb'.status[n] == Free || Mine(tb'.status[n], b, who)
          else tb'.status[n] == tb.status[n] && tb'.mem[n].key == tb.mem[n].key && tb'.mem[n].next == tb.mem[n].next)
  }

  lemma ConfinedOthers(tb: Table, tb': Table, b: nat, who: nat, b': nat)
    requires Confined(tb, tb', b, who) && b' < |tb.heads| && b' != b
    ensures SameBucket(tb, tb', b')
    ensures BucketOk(tb, b') ==> BucketOk(tb', b')
  {
  }

  lemma ConfinedSelf(tb: Table, b: nat, t: nat)
    requires Shaped(tb) && b < |tb.heads|
    ensures Confined(tb, tb, b, t)
  {
  }

  lemma ConfinedOps(tb: Table, tb': Table, b: nat, who: nat, b': nat, who': nat, op: Op)
    requires Confined(tb, tb', b, who) && b' < |tb.heads| && b' != b && who' != who
    requires BucketOk(tb, b') && OpOk(tb, b', who', op)
    ensures OpOk(tb', b', who', op)
  {
    ConfinedOthers(tb, tb', b, who, b');
    SameBucketKeeps(tb, tb', b');
    SameBucketPosition(tb, tb', b', op);
    if Held(op, b', who').Some? {
      var n := Held(op, b', who').value.0;
      assert tb'.status[n] == tb.status[n];
    }
  }

  /** The link an operation stands at, what it read there, and its key. */
  function Spot(op: Op): (Loc, Option<Ref>, int) {
    match op
    case Idle(_) => (Head, None, 0)
    case Walking(_, key, prev, cur) => (prev, cur, key)
    case Unlinking(key, prev, n) => (prev, Some(n), key)
    case Reclaiming(_, _) => (Head, None, 0)
    case Allocating(key, prev, cur) => (prev, cur, key)
    case Keying(_, key, prev, cur) => (prev, cur, key)
    case Linking(_, key, prev, cur) => (prev, cur, key)
    case Publishing(_, key, prev, cur) => (prev, cur, key)
  }

  lemma SameBucketPosition(tb: Table, tb': Table, b: nat, op: Op)
    requires SameBucket(tb, tb', b) && BucketOk(tb, b)
    ensures var (prev, cur, key) := Spot(op);
            && (At(tb, b, prev, cur, key) ==> At(tb', b, prev, cur, key))
            && (Stop(tb, b, prev, cur, key) ==> Stop(tb', b, prev, cur, key))
            && (Gap(tb, b, key, prev, cur) ==> Gap(tb', b, key, prev, cur))
            && (At(tb, b, prev, cur, key) && cur.Some? ==>
                  cur.value < |tb.mem| && tb.mem[cur.value].key == tb'.mem[cur.value].key)
  {
    var (prev, cur, key) := Spot(op);
    if At(tb, b, prev, cur, key) {
      var lo := if prev.Head? then None else Some(tb.mem[prev.node].key);
      assert First(tb, b, lo, cur);
    }
  }

  /** The link a writer stands at decides its key. */
  lemma AtDecides(tb: Table, b: nat, prev: Loc, cur: Option<Ref>, key: int)
    requires WellFormed(tb) && At(tb, b, prev, cur, key)
    ensures Verdict(tb, b, key, cur)
    ensures prev.NextOf? && cur.Some? ==> tb.mem[prev.node].key < tb.mem[cur.value].key
  {
    assert BucketOk(tb, b);
    FirstDecides(tb, b, if prev.Head? then None else Some(tb.mem[prev.node].key), cur, key);
  }

  // ----- the steps keep the lists well formed

  function StoreKey(tb: Table, n: Ref, key: int): Table
    requires n < |tb.mem|
  {
    tb.(mem := tb.mem[n := tb.mem[n].(key := key)])
  }

  function StoreNext(tb: Table, n: Ref, p: Option<Ref>): Table
    requires n < |tb.mem|
  {
    tb.(mem := tb.mem[n := tb.mem[n].(next := p)])
  }

  lemma WalkStep(tb: Table, b: nat, who: nat, op: Op)
    requires WellFormed(tb) && op.Walking? && OpOk(tb, b, who, op)
    ensures OpOk(tb, b, who, WalkNext(tb, op))
  {
    assert BucketOk(tb, b);
  }

  /** A step that leaves bucket `b`'s list alone: every list stays well formed. */
  lemma OffListStep(tb: Table, tb': Table, b: nat, who: nat)
    requires WellFormed(tb) && Confined(tb, tb', b, who) && SameBucket(tb, tb', b) && PointersOk(tb')
    ensures WellFormed(tb')
  {
    forall b': nat | b' < |tb'.heads| ensures BucketOk(tb', b') {
      assert BucketOk(tb, b');
      if b' == b {
        SameBucketKeeps(tb, tb', b);
      } else {
        ConfinedOthers(tb, tb', b, who, b');
      }
    }
  }

  lemma StatusStep(tb: Table, b: nat, who: nat, n: Ref, s: Status)
    requires WellFormed(tb) && b < |tb.heads| && n < |tb.mem|
    requires (tb.status[n] == Free || Mine(tb.status[n], b, who)) && !tb.status[n].Linked?
    requires (s == Free || Mine(s, b, who)) && !s.Linked?
    ensures WellFormed(SetStatus(tb, n, s)) && Confined(tb, SetStatus(tb, n, s), b, who)
    ensures SameBucket(tb, SetStatus(tb, n, s), b)
  {
    OffListStep(tb, SetStatus(tb, n, s), b, who);
  }

  lemma KeyStep(tb: Table, b: nat, who: nat, op: Op)
    requires WellFormed(tb) && op.Keying? && OpOk(tb, b, who, op)
    ensures var tb' := StoreKey(tb, op.node, op.key);
            && WellFormed(tb') && Confined(tb, tb', b, who) && SameBucket(tb, tb', b)
            && OpOk(tb', b, who, Linking(op.node, op.key, op.prev, op.cur))
  {
    var tb' := StoreKey(tb, op.node, op.key);
    OffListStep(tb, tb', b, who);
    assert BucketOk(tb, b);
    SameBucketPosition(tb, tb', b, op);
  }

  lemma LinkStep(tb: Table, b: nat, who: nat, op: Op)
    requires WellFormed(tb) && op.Linking? && OpOk(tb, b, who, op)
    ensures var tb' := StoreNext(tb, op.node, op.cur);
            && WellFormed(tb') && Confined(tb, tb', b, who) && SameBucket(tb, tb', b)
            && OpOk(tb', b, who, Publishing(op.node, op.key, op.prev, op.cur))
  {
    var tb' := StoreNext(tb, op.node, op.cur);
    OffListStep(tb, tb', b, who);
    assert BucketOk(tb, b);
    SameBucketPosition(tb, tb', b, op);
  }

  lemma AllocStep(tb: Table, b: nat, who: nat, op: Op, n: Ref)
    requires WellFormed(tb) && op.Allocating? && OpOk(tb, b, who, op)
    requires n < |tb.mem| && tb.status[n] == Free
    ensures var tb' := SetStatus(tb, n, Private(who));
            && WellFormed(tb') && Confined(tb, tb', b, who) && SameBucket(tb, tb', b)
            && OpOk(tb', b, who, Keying(n, op.key, op.prev, op.cur))
  {
    var tb' := SetStatus(tb, n, Private(who));
    StatusStep(tb, b, who, n, Private(who));
    assert BucketOk(tb, b);
    SameBucketPosition(tb, tb', b, op);
  }

  lemma UnlinkStep(tb: Table, b: nat, who: nat, op: Op)
    requires WellFormed(tb) && op.Unlinking? && OpOk(tb, b, who, op)
    ensures var tb' := Unlink(tb, b, op.prev, op.node);
            && WellFormed(tb') && Confined(tb, tb', b, who)
            && OpOk(tb', b, who, Reclaiming(op.node, 0))
  {
    UnlinkEffect(tb, b, op.prev, op.node, op.key);
    assert BucketOk(tb, b);
    UnlinkBucket(tb, Unlink(tb, b, op.prev, op.node), b, op.prev, op.node, op.key);
  }

  lemma PublishStep(tb: Table, b: nat, who: nat, op: Op)
    requires WellFormed(tb) && op.Publishing? && OpOk(tb, b, who, op)
    ensures var tb' := Publish(tb, b, op.prev, op.node);
            WellFormed(tb') && Confined(tb, tb', b, who)
  {
    PublishEffect(tb, b, op.prev, op.cur, op.node, op.key);
  }
}
