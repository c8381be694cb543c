/** What the counting invariant means, in terms of the shared memory alone, and
    what follows from it for every run. */
module RefCountSafety {
  import opened Buckets
  import opened ListWriter
  import opened RefCounts
  import opened RefCountInvariants
  import opened RefCountSteps
  import opened RefCountRuns
  import opened RefCountHistory
  import opened RefCountReaders

  // ----- the count of a node, read off the memory and the local variables

  ghost function HeadsTo(w: World, n: Ref): set<nat> {
    set b: nat | b < |w.tb.heads| && w.tb.heads[b] == Some(n)
  }

  /** The counted links: from linked nodes, from unlinked nodes whose link was
      counted again, and from dying nodes. */
  ghost function LinksTo(w: World, n: Ref): set<Ref> {
    set m: Ref | m < |w.tb.mem| && m < |w.tb.status| && Counted(w.tb.status[m]) && w.tb.mem[m].next == Some(n)
  }

  ghost function HoldsOf(w: World, n: Ref): set<nat> {
    set t: nat | t < |w.threads| && w.threads[t].hold == Some(n)
  }

  ghost function GrabsOf(w: World, n: Ref): set<nat> {
    set t: nat | t < |w.threads| && w.threads[t].grab == Some(n)
  }

  ghost function DropsOf(w: World, n: Ref): set<nat> {
    set t: nat | t < |w.threads| && w.threads[t].drop == Some(n)
  }

  ghost function OwnsOf(w: World, n: Ref): set<nat> {
    set t: nat | t < |w.threads| && w.threads[t].own == Some(n)
  }

  function Kind(tok: Token): nat {
    match tok
    case HeadRef(_) => 0
    case NextRef(_) => 1
    case Hold(_) => 2
    case Grab(_) => 3
    case Drop(_) => 4
    case Own(_) => 5
  }

  function Index(tok: Token): nat {
    match tok
    case HeadRef(b) => b
    case NextRef(n) => n
    case Hold(t) => t
    case Grab(t) => t
    case Drop(t) => t
    case Own(t) => t
  }

  function Place(kind: nat, i: nat): (tok: Token)
    requires kind < 6
    ensures Kind(tok) == kind && Index(tok) == i
  {
    match kind
    case 0 => HeadRef(i)
    case 1 => NextRef(i)
    case 2 => Hold(i)
    case 3 => Grab(i)
    case 4 => Drop(i)
    case 5 => Own(i)
  }

  ghost function UnitsOf(w: World, n: Ref, kind: nat): set<Token> {
    set tok | tok in w.owns && w.owns[tok] == n && Kind(tok) == kind
  }

  /** Units of one kind, told apart by their index. */
  lemma {:induction false} SameCount(places: set<nat>, units: set<Token>, kind: nat)
    requires kind < 6 && (forall tok: Token :: tok in units ==> Kind(tok) == kind && Index(tok) in places)
    requires forall i: nat :: i in places ==> Place(kind, i) in units
    ensures |places| == |units|
  {
    if places == {} {
      assert units == {};
    } else {
      var i: nat :| i in places;
      SameCount(places - {i}, units - {Place(kind, i)}, kind);
    }
  }

  /** The units of one kind are as many as their places. */
  lemma KindCount(w: World, n: Ref, kind: nat, places: set<nat>)
    requires Agree(w) && kind < 6
    requires forall i: nat :: i in places <==> Target(w, Place(kind, i)) == Some(n)
    ensures |UnitsOf(w, n, kind)| == |places|
  {
    forall i: nat | i in places ensures Place(kind, i) in UnitsOf(w, n, kind) {
      assert Lookup(w.owns, Place(kind, i)) == Target(w, Place(kind, i));
    }
    forall tok: Token | tok in UnitsOf(w, n, kind) ensures Index(tok) in places {
      assert tok == Place(kind, Index(tok));
      assert Lookup(w.owns, tok) == Target(w, tok);
    }
    SameCount(places, UnitsOf(w, n, kind), kind);
  }

  lemma KindCounts(w: World, n: Ref)
    requires Agree(w)
    ensures |UnitsOf(w, n, 0)| == |HeadsTo(w, n)| && |UnitsOf(w, n, 1)| == |LinksTo(w, n)|
    ensures |UnitsOf(w, n, 2)| == |HoldsOf(w, n)| && |UnitsOf(w, n, 3)| == |GrabsOf(w, n)|
    ensures |UnitsOf(w, n, 4)| == |DropsOf(w, n)| && |UnitsOf(w, n, 5)| == |OwnsOf(w, n)|
  {
    KindCount(w, n, 0, HeadsTo(w, n));
    KindCount(w, n, 1, LinksTo(w, n));
    KindCount(w, n, 2, HoldsOf(w, n));
    KindCount(w, n, 3, GrabsOf(w, n));
    KindCount(w, n, 4, DropsOf(w, n));
    KindCount(w, n, 5, OwnsOf(w, n));
  }

  lemma KindsPartition(w: World, n: Ref)
    ensures |Units(w.owns, n)| == |UnitsOf(w, n, 0)| + |UnitsOf(w, n, 1)| + |UnitsOf(w, n, 2)|
                                  + |UnitsOf(w, n, 3)| + |UnitsOf(w, n, 4)| + |UnitsOf(w, n, 5)|
  {
    var u01 := UnitsOf(w, n, 0) + UnitsOf(w, n, 1);
    var u23 := UnitsOf(w, n, 2) + UnitsOf(w, n, 3);
    var u45 := UnitsOf(w, n, 4) + UnitsOf(w, n, 5);
    assert Units(w.owns, n) == u01 + (u23 + u45);
    assert u01 !! u23 + u45 && u23 !! u45;
  }

  /** The node is between its unlink and `lfrc_refcnt_inc(n->next)`, or between
      `init_new_node` and its publication: its writer keeps it alive by one unit. */
  predicate InWindow(w: World, n: Ref) {
    && n < |w.tb.status|
    && match w.tb.status[n]
       case Unlinked(_) => true
       case Private(t) => t < |w.threads| && w.threads[t].pc.Writing?
       case Free => false
       case Linked(_) => false
       case Retired(_) => false
       case Dying(_) => false
       case Dead(_) => false
  }

  lemma OwnsIsWindow(w: World, n: Ref)
    requires Inv(w) && n < |w.tb.mem|
    ensures |OwnsOf(w, n)| == if InWindow(w, n) then 1 else 0
  {
    forall t: nat | t in OwnsOf(w, n) ensures OwnerIs(w, n, t) {
      OwnerIsUnique(w, n, t);
    }
    if InWindow(w, n) {
      assert NodeOk(w, n);
      var u := if w.tb.status[n].Private? then w.tb.status[n].who else w.writer[w.tb.status[n].bucket].value;
      assert ThreadOk(w, u);
      assert OwnsOf(w, n) == {u};
    } else {
      assert OwnsOf(w, n) == {};
    }
  }

  predicate OwnerIs(w: World, n: Ref, t: nat) {
    && n < |w.tb.status| && InWindow(w, n)
    && match w.tb.status[n]
       case Unlinked(b) => b < |w.writer| && w.writer[b] == Some(t)
       case Private(u) => u == t
       case Free => false
       case Linked(_) => false
       case Retired(_) => false
       case Dying(_) => false
       case Dead(_) => false
  }

  lemma OwnerIsUnique(w: World, n: Ref, t: nat)
    requires Inv(w) && n < |w.tb.mem| && t in OwnsOf(w, n)
    ensures OwnerIs(w, n, t)
  {
  }

  /** The counting invariant: a node's `rc` is the number of links that point to
      it plus the number of references threads hold, and exactly one more in the
      two windows. */
  lemma CountIsExact(w: World, n: Ref)
    requires Inv(w) && n < |w.tb.mem|
    ensures w.tb.mem[n].rc == |HeadsTo(w, n)| + |LinksTo(w, n)| + |HoldsOf(w, n)| + |GrabsOf(w, n)| + |DropsOf(w, n)|
                              + if InWindow(w, n) then 1 else 0
  {
    assert w.tb.mem[n].rc == |Units(w.owns, n)|;
    KindsPartition(w, n);
    KindCounts(w, n);
    OwnsIsWindow(w, n);
  }

  /** The links that are not counted: those of nodes between unlink and recount. */
  ghost function UncountedTo(w: World, n: Ref): set<Ref> {
    set m: Ref | m < |w.tb.mem| && m < |w.tb.status| && w.tb.status[m].Unlinked? && w.tb.mem[m].next == Some(n)
  }

  /** The slack is one unit at most: at most one uncounted link points to a node,
      and only while that node is linked, so that it cannot be freed meanwhile. */
  lemma SlackIsOne(w: World, n: Ref)
    requires Inv(w) && n < |w.tb.mem|
    ensures |UncountedTo(w, n)| <= 1
    ensures UncountedTo(w, n) != {} ==> w.tb.status[n].Linked? && w.tb.mem[n].rc > 0
  {
    if m: Ref :| m in UncountedTo(w, n) {
      SuccessorOfUnlinked(w, m);
      assert NodeOk(w, m);
      forall k: Ref | k in UncountedTo(w, n) ensures k == m {
        SuccessorOfUnlinked(w, k);
        assert NodeOk(w, k);
        assert ThreadOk(w, w.writer[w.tb.status[n].bucket].value);
      }
      assert UncountedTo(w, n) == {m};
      ZeroIff(w, n);
    } else {
      assert UncountedTo(w, n) == {};
    }
  }

  /** `rc` is 0 exactly for nodes that are free, dying, or allocated but not yet
      initialised. */
  lemma ZeroIff(w: World, n: Ref)
    requires Inv(w) && n < |w.tb.mem|
    ensures w.tb.mem[n].rc == 0 <==>
            (var s := w.tb.status[n];
             s == Free || s.Dying? || s.Dead? || (s.Private? && s.who < |w.threads| && w.threads[s.who].pc.Initialising?))
  {
    assert NodeOk(w, n);
    if w.tb.status[n].Linked? {
      LinkedCounted(w, n);
    } else if InWindow(w, n) {
      WindowCounted(w, n);
    }
  }

  lemma LinkedCounted(w: World, n: Ref)
    requires Inv(w) && n < |w.tb.mem| && w.tb.status[n].Linked?
    ensures w.tb.mem[n].rc > 0
  {
    assert NodeOk(w, n);
    var loc := HasPredecessor(w.tb, w.tb.status[n].bucket, n);
    UnitsPositive(w, LinkToken(w.tb.status[n].bucket, loc), n);
  }

  lemma WindowCounted(w: World, n: Ref)
    requires Inv(w) && n < |w.tb.mem| && InWindow(w, n)
    ensures w.tb.mem[n].rc > 0
  {
    assert NodeOk(w, n);
    var u := if w.tb.status[n].Private? then w.tb.status[n].who else w.writer[w.tb.status[n].bucket].value;
    assert ThreadOk(w, u);
    UnitsPositive(w, Own(u), n);
  }

  // ----- every run

  /** The assertion of `lfrc_refcnt_dec` never fails. */
  lemma AssertionHolds(run: seq<World>, j: nat, t: nat)
    requires Legal(run) && j < |run| && t < |run[j].threads|
    requires (run[j].threads[t].pc.Asserting? || run[j].threads[t].pc.Lowering?)
    ensures var th := run[j].threads[t];
            th.drop.Some? && th.drop.value < |run[j].tb.mem| && run[j].tb.mem[th.drop.value].rc > 0
  {
    RunInv(run, j);
    DropPositive(run[j], t);
  }

  /** The node a search holds is linked in its bucket, or was unlinked from it
      during the call and is not being reclaimed: it is never free. */
  lemma HeldIsNeverFree(run: seq<World>, j: nat, t: nat, n: Ref)
    requires Legal(run) && j < |run| && t < |run[j].threads| && run[j].threads[t].hold == Some(n)
    ensures n < |run[j].tb.mem| && run[j].tb.mem[n].rc > 0
    ensures InOrWas(run[j], n, run[j].threads[t].b, run[j].threads[t].start)
  {
    RunInv(run, j);
    RunReaders(run, j);
    assert ThreadOk(run[j], t) && ReaderOk(run, run[j], run[j].threads[t]);
    UnitsPositive(run[j], Hold(t), n);
  }

  /** No thread is ever stuck: each has a next step in every reachable state,
      except an insert that needs a node while none is free. */
  lemma NeverStuck(w: World, t: nat, c: Choice)
    requires Inv(w) && t < |w.threads|
    requires w.threads[t].pc.Resting? ==> c.b < |w.writer| && (c.search || w.writer[c.b] == None)
    requires w.threads[t].pc.Writing? && w.threads[t].pc.op.Allocating? ==>
               c.node < |w.tb.mem| && w.tb.status[c.node] == Free
    ensures Enabled(w, t, c)
  {
    assert ThreadOk(w, t);
    var th := w.threads[t];
    if th.pc.Writing? && th.pc.op.Reclaiming? {
      assert OptOk(w, w.tb.mem[th.pc.op.node].next);
    }
    if th.pc.Writing? && (th.pc.op.Unlinking? || th.pc.op.Publishing?) {
      assert BucketOk(w.tb, th.b);
    }
    if th.pc.Lowering? {
      DropPositive(w, t);
    }
  }

  // ----- the set

  function Stepping(w: World, t: nat, b: nat): Op {
    if t < |w.threads| && w.threads[t].b == b && w.threads[t].pc.Writing? then w.threads[t].pc.op else Idle(false)
  }

  /** The set of a bucket changes only at its writer's two stores to `*prev`, by
      exactly the key the writer looked for: searches, decrements, recounts and
      frees never change it. */
  lemma StepChangesSet(w: World, t: nat, c: Choice, b: nat)
    requires Inv(w) && Enabled(w, t, c) && b < |w.tb.heads|
    ensures var op, tb' := Stepping(w, t, b), Act(w, t, c).tb;
            if op.Unlinking? then Removes(w.tb, tb', b, op.key)
            else if op.Publishing? then Adds(w.tb, tb', b, op.key)
            else SameKeys(w.tb, tb', b)
  {
    assert ThreadOk(w, t);
    var th := w.threads[t];
    if th.pc.Writing? && th.pc.op.Unlinking? {
      UnlinkEffect(w.tb, th.b, th.pc.op.prev, th.pc.op.node, th.pc.op.key);
    } else if th.pc.Writing? && th.pc.op.Publishing? {
      PublishEffect(w.tb, th.b, th.pc.op.prev, th.pc.op.cur, th.pc.op.node, th.pc.op.key);
    } else {
      OffListSame(w, t, c, b);
    }
    if b != th.b || !th.pc.Writing? || !(th.pc.op.Unlinking? || th.pc.op.Publishing?) {
      SameBucketKeeps(w.tb, Act(w, t, c).tb, b);
    }
  }

  lemma OffListSame(w: World, t: nat, c: Choice, b: nat)
    requires Inv(w) && Enabled(w, t, c) && b < |w.tb.heads|
    requires w.threads[t].pc.Writing? ==> !w.threads[t].pc.op.Unlinking? && !w.threads[t].pc.op.Publishing?
    ensures SameBucket(w.tb, Act(w, t, c).tb, b)
  {
    var tb' := Act(w, t, c).tb;
    SameShape(w, t, c);
    SameSize(w, t, c);
    forall n: Ref ensures LinkedIn(w.tb, b, n) <==> LinkedIn(tb', b, n) {
      if n < |w.tb.mem| {
        OffListNode(w, t, c, n);
      }
    }
    forall n: Ref | LinkedIn(w.tb, b, n)
      ensures tb'.mem[n].key == w.tb.mem[n].key && tb'.mem[n].next == w.tb.mem[n].next
    {
      OffListNode(w, t, c, n);
    }
    assert tb'.heads == w.tb.heads;
  }

  lemma OffListNode(w: World, t: nat, c: Choice, n: Ref)
    requires Inv(w) && Enabled(w, t, c) && n < |w.tb.mem|
    requires w.threads[t].pc.Writing? ==> !w.threads[t].pc.op.Unlinking? && !w.threads[t].pc.op.Publishing?
    ensures var tb' := Act(w, t, c).tb;
            && n < |tb'.mem| && |tb'.status| == |tb'.mem|
            && (tb'.status[n].Linked? || w.tb.status[n].Linked? ==>
                  tb'.status[n] == w.tb.status[n] && tb'.mem[n].key == w.tb.mem[n].key
                      && tb'.mem[n].next == w.tb.mem[n].next)
  {
    if w.threads[t].pc.Writing? {
      assert ThreadOk(w, t);
      OffListWrite(w, t, c, n);
    } else if InDec(w.threads[t].pc) {
      StepMoves(w, t, c, n);
      OffListDec(w, t, c, n);
    } else {
      OffListSearch(w, t, c, n);
    }
  }

  lemma OffListSearch(w: World, t: nat, c: Choice, n: Ref)
    requires Enabled(w, t, c) && n < |w.tb.mem| && !InDec(w.threads[t].pc) && !w.threads[t].pc.Writing?
    ensures var tb' := Act(w, t, c).tb;
            && |tb'.mem| == |w.tb.mem| && tb'.status == w.tb.status
            && tb'.mem[n].key == w.tb.mem[n].key && tb'.mem[n].next == w.tb.mem[n].next
  {
  }

  lemma OffListWrite(w: World, t: nat, c: Choice, n: Ref)
    requires Enabled(w, t, c) && n < |w.tb.mem| && w.threads[t].pc.Writing?
    requires OpOk(w.tb, w.threads[t].b, t, w.threads[t].pc.op)
    requires w.threads[t].pc.op.Reclaiming? ==> w.threads[t].pc.op.stage == 0
    requires !w.threads[t].pc.op.Unlinking? && !w.threads[t].pc.op.Publishing?
    ensures var tb' := Act(w, t, c).tb;
            && n < |tb'.mem| && |tb'.status| == |tb'.mem|
            && (tb'.status[n].Linked? || w.tb.status[n].Linked? ==>
                  && tb'.status[n] == w.tb.status[n]
                  && tb'.mem[n].key == w.tb.mem[n].key && tb'.mem[n].next == w.tb.mem[n].next)
  {
  }

  lemma OffListDec(w: World, t: nat, c: Choice, n: Ref)
    requires Enabled(w, t, c) && n < |w.tb.mem| && InDec(w.threads[t].pc)
    ensures var tb' := Act(w, t, c).tb;
            && n < |tb'.mem| && |tb'.status| == |tb'.mem|
            && (tb'.status[n].Linked? ==> w.tb.status[n].Linked?)
            && tb'.mem[n].key == w.tb.mem[n].key && tb'.mem[n].next == w.tb.mem[n].next
  {
  }

  // ----- the life of a node over a run

  /** Allocation, unlink and free, by the stage they end. */
  datatype Stage = LeftFree | LeftLinked | LeftDead

  predicate In(s: Status, stage: Stage) {
    match stage
    case LeftFree => s.Free?
    case LeftLinked => s.Linked?
    case LeftDead => s.Dead?
  }

  /** How often the node left the stage. */
  ghost function Times(run: seq<World>, n: Ref, from: Stage, j: nat): nat
    requires j < |run|
    decreases j
  {
    if j == 0 then 0
    else Times(run, n, from, j - 1) + if Leaves(run[j - 1], run[j], n, from) then 1 else 0
  }

  predicate Leaves(w: World, w': World, n: Ref, from: Stage) {
    n < |w.tb.status| && n < |w'.tb.status| && In(w.tb.status[n], from) && w'.tb.status[n] != w.tb.status[n]
  }

  lemma TakenMoves(w: World, w': World, n: Ref)
    requires Inv(w) && Step(w, w') && n < |w.tb.mem|
    ensures Moves(w, w', n)
  {
    var t: nat, c: Choice :| Taken(w, t, c, w');
    StepMoves(w, t, c, n);
    MovesTick(w, Act(w, t, c), w', n);
  }

  lemma MovesTick(w: World, v: World, w': World, n: Ref)
    requires Moves(w, v, n) && w' == v.(now := w.now + 1)
    ensures Moves(w, w', n)
  {
  }

  /** What one step adds to the counts. */
  lemma RunMoves(run: seq<World>, j: nat, n: Ref)
    requires Legal(run) && 0 < j < |run| && n < |run[j].tb.mem|
    ensures Inv(run[j - 1]) && n < |run[j - 1].tb.mem| && Moves(run[j - 1], run[j], n)
  {
    RunInv(run, j - 1);
    assert StepAt(run, j - 1);
    TakenShape(run[j - 1], run[j]);
    TakenMoves(run[j - 1], run[j], n);
  }

  /** Thread `t` runs `rc_free_node(n)`. */
  predicate Frees(w: World, w': World, t: nat, n: Ref) {
    && t < |w.threads| == |w'.threads| && w'.threads[t] != w.threads[t]
    && w.threads[t].pc.Unwinding? && |w.threads[t].dying| > 0 && Last(w.threads[t].dying) == n
  }

  ghost predicate Freeing(w: World, w': World, n: Ref) {
    exists t: nat :: Frees(w, w', t, n)
  }

  /** How often `rc_free_node(n)` was called. */
  ghost function FreeCalls(run: seq<World>, n: Ref, j: nat): nat
    requires j < |run|
  {
    if j == 0 then 0 else FreeCalls(run, n, j - 1) + if Freeing(run[j - 1], run[j], n) then 1 else 0
  }

  /** `rc_free_node` is only ever called on a node whose count is 0, that is being
      destroyed and not free yet; and it is what frees the node. */
  lemma FreeIsOfDead(w: World, w': World, n: Ref)
    requires Inv(w) && Step(w, w') && n < |w.tb.mem|
    ensures Freeing(w, w', n) <==> n < |w'.tb.status| && w.tb.status[n].Dead? && w'.tb.status[n].Free?
    ensures Freeing(w, w', n) ==> w.tb.mem[n].rc == 0
  {
    var t: nat, c: Choice :| Taken(w, t, c, w');
    SameShape(w, t, c);
    assert NodeOk(w, n);
    if Freeing(w, w', n) {
      var u: nat :| Frees(w, w', u, n);
      assert ThreadOk(w, u);
    }
    if n < |w'.tb.status| && w.tb.status[n].Dead? && w'.tb.status[n].Free? {
      OnlyUnwindFrees(w, t, c, n);
      assert Frees(w, w', t, n);
    }
  }

  lemma OnlyUnwindFrees(w: World, t: nat, c: Choice, n: Ref)
    requires Inv(w) && Enabled(w, t, c) && n < |w.tb.mem| && n < |Act(w, t, c).tb.status|
    requires w.tb.status[n].Dead? && Act(w, t, c).tb.status[n].Free?
    ensures w.threads[t].pc.Unwinding? && |w.threads[t].dying| > 0 && Last(w.threads[t].dying) == n
    ensures Act(w, t, c).threads[t] != w.threads[t]
  {
    assert ThreadOk(w, t);
    if w.threads[t].pc.Unwinding? {
      UnwindMoves(w, t, n);
    } else if InDec(w.threads[t].pc) {
      OtherDecFreesNothing(w, t, c, n);
    } else {
      OthersFreeNothing(w, t, c, n);
    }
  }

  lemma OtherDecFreesNothing(w: World, t: nat, c: Choice, n: Ref)
    requires Enabled(w, t, c) && n < |w.tb.mem| && InDec(w.threads[t].pc) && !w.threads[t].pc.Unwinding?
    ensures n < |Act(w, t, c).tb.status| && (Act(w, t, c).tb.status[n].Free? ==> w.tb.status[n].Free?)
  {
  }

  lemma OthersFreeNothing(w: World, t: nat, c: Choice, n: Ref)
    requires Enabled(w, t, c) && n < |w.tb.mem| && !InDec(w.threads[t].pc)
    ensures n < |Act(w, t, c).tb.status| && (Act(w, t, c).tb.status[n].Free? ==> w.tb.status[n].Free?)
  {
  }

  /** The account of a node's lives. */
  ghost predicate Lives(run: seq<World>, n: Ref, j: nat) {
    && j < |run| && n < |run[j].tb.status|
    && var s := run[j].tb.status[n];
       && Times(run, n, LeftFree, j) == FreeCalls(run, n, j) + (if s.Free? then 0 else 1)
       && Times(run, n, LeftLinked, j) == FreeCalls(run, n, j) + (if s.Free? || s.Private? || s.Linked? then 0 else 1)
       && Times(run, n, LeftDead, j) == FreeCalls(run, n, j)
  }

  lemma LivesStep(run: seq<World>, n: Ref, j: nat)
    requires 0 < j < |run| && Moves(run[j - 1], run[j], n) && Lives(run, n, j - 1)
    requires Freeing(run[j - 1], run[j], n) <==> run[j - 1].tb.status[n].Dead? && run[j].tb.status[n].Free?
    ensures Lives(run, n, j)
  {
    LeavesOnce(run[j - 1], run[j], n);
  }

  /** Every incarnation of a node is unlinked once and freed by one call of
      `rc_free_node`, in this order: up to any instant, a node that is in use was
      allocated once more than it was freed, and a node that is off the lists was
      unlinked once more. */
  lemma {:induction false} FreedOncePerIncarnation(run: seq<World>, j: nat, n: Ref)
    requires Legal(run) && j < |run| && n < |run[j].tb.mem|
    ensures Lives(run, n, j)
    decreases j
  {
    if j > 0 {
      RunMoves(run, j, n);
      assert StepAt(run, j - 1);
      FreeIsOfDead(run[j - 1], run[j], n);
      FreedOncePerIncarnation(run, j - 1, n);
      LivesStep(run, n, j);
    }
  }

  lemma LeavesOnce(w: World, w': World, n: Ref)
    requires Moves(w, w', n)
    ensures var s, s' := w.tb.status[n], w'.tb.status[n];
            && (Leaves(w, w', n, LeftFree) <==> s.Free? && !s'.Free?)
            && (Leaves(w, w', n, LeftDead) <==> s.Dead? && !s'.Dead?)
            && (Leaves(w, w', n, LeftLinked) <==> s.Linked? && !s'.Linked?)
  {
  }

  // ----- p->gc++

  /** The generation of a node that is being freed is already raised. */
  function Raised(w: World, n: Ref): nat
    requires n < |w.tb.status|
  {
    match w.tb.status[n]
    case Dead(_) => 1
    case Dying(t) => if t < |w.threads| && w.threads[t].pc.Following? then 1 else 0
    case Free => 0
    case Private(_) => 0
    case Linked(_) => 0
    case Unlinked(_) => 0
    case Retired(_) => 0
  }

  ghost predicate RaisedOnce(w: World, w': World, n: Ref) {
    && n < |w.tb.mem| == |w'.tb.mem| && |w.tb.status| == |w'.tb.status| == |w.tb.mem|
    && w'.tb.mem[n].gc - Raised(w', n) ==
       w.tb.mem[n].gc - Raised(w, n) + if w.tb.status[n].Dead? && w'.tb.status[n].Free? then 1 else 0
  }

  lemma DecRaises(w: World, t: nat, c: Choice, n: Ref)
    requires Inv(w) && Enabled(w, t, c) && n < |w.tb.mem| && InDec(w.threads[t].pc)
    ensures RaisedOnce(w, Act(w, t, c), n)
  {
    assert ThreadOk(w, t) && NodeOk(w, n);
    match w.threads[t].pc {
      case Lowering => LowerRaises(w, t, w.threads[t].drop.value, n);
      case Bumping => BumpRaises(w, t, n);
      case Following => FollowRaises(w, t, n);
      case Unwinding => UnwindRaises(w, t, n);
      case _ =>
    }
  }

  lemma LowerRaises(w: World, t: nat, p: Ref, n: Ref)
    requires Inv(w) && t < |w.threads| && w.threads[t].pc.Lowering? && w.threads[t].drop == Some(p) && p < |w.tb.mem|
    requires w.tb.mem[p].rc > 0 && n < |w.tb.mem|
    ensures RaisedOnce(w, LowerNext(w, t, p), n)
  {
    assert NodeOk(w, n);
    if w.tb.mem[p].rc == 1 {
      LastUnitRetired(w, t, p);
    }
  }

  lemma BumpRaises(w: World, t: nat, n: Ref)
    requires Inv(w) && t < |w.threads| && w.threads[t].pc.Bumping? && n < |w.tb.mem|
    requires |w.threads[t].dying| > 0 && Last(w.threads[t].dying) < |w.tb.mem|
    ensures RaisedOnce(w, BumpNext(w, t, Last(w.threads[t].dying)), n)
  {
    assert ThreadOk(w, t) && NodeOk(w, n);
  }

  lemma FollowRaises(w: World, t: nat, n: Ref)
    requires Inv(w) && t < |w.threads| && w.threads[t].pc.Following? && n < |w.tb.mem|
    requires |w.threads[t].dying| > 0 && Last(w.threads[t].dying) < |w.tb.mem|
    ensures RaisedOnce(w, FollowNext(w, t, Last(w.threads[t].dying)), n)
  {
    assert ThreadOk(w, t) && NodeOk(w, n);
  }

  lemma UnwindRaises(w: World, t: nat, n: Ref)
    requires Inv(w) && t < |w.threads| && w.threads[t].pc.Unwinding? && n < |w.tb.mem| && w.threads[t].b < |w.writer|
    requires |w.threads[t].dying| > 0 ==> Last(w.threads[t].dying) < |w.tb.status|
    ensures RaisedOnce(w, UnwindNext(w, t), n)
  {
    assert ThreadOk(w, t) && NodeOk(w, n);
  }

  /** No other step touches a generation. */
  lemma OthersRaiseNothing(w: World, t: nat, c: Choice, n: Ref)
    requires Inv(w) && Enabled(w, t, c) && n < |w.tb.mem| && !InDec(w.threads[t].pc)
    ensures RaisedOnce(w, Act(w, t, c), n)
  {
    assert ThreadOk(w, t) && NodeOk(w, n);
    StepMoves(w, t, c, n);
    NotDecided(w, t, c, n);
  }

  lemma NotDecided(w: World, t: nat, c: Choice, n: Ref)
    requires Inv(w) && Enabled(w, t, c) && n < |w.tb.mem| && !InDec(w.threads[t].pc)
    ensures |Act(w, t, c).threads| == |w.threads| && |Act(w, t, c).tb.mem| == |w.tb.mem|
    ensures Act(w, t, c).tb.mem[n].gc == w.tb.mem[n].gc && !Act(w, t, c).threads[t].pc.Following?
    ensures forall u: nat :: u < |w.threads| && u != t ==> Act(w, t, c).threads[u] == w.threads[u]
  {
    SameShape(w, t, c);
    SameSize(w, t, c);
    PcCases(w.threads[t].pc);
    if w.threads[t].pc.Writing? {
      WriteRaisesNothing(w, t, c, n);
    }
  }

  lemma WriteRaisesNothing(w: World, t: nat, c: Choice, n: Ref)
    requires Enabled(w, t, c) && n < |w.tb.mem| && w.threads[t].pc.Writing?
    ensures t < |Act(w, t, c).threads| && n < |Act(w, t, c).tb.mem|
    ensures Act(w, t, c).tb.mem[n].gc == w.tb.mem[n].gc && !Act(w, t, c).threads[t].pc.Following?
  {
  }

  lemma TakenRaises(w: World, w': World, n: Ref)
    requires Inv(w) && Step(w, w') && n < |w.tb.mem|
    ensures RaisedOnce(w, w', n)
  {
    var t: nat, c: Choice :| Taken(w, t, c, w');
    if InDec(w.threads[t].pc) {
      DecRaises(w, t, c, n);
    } else {
      OthersRaiseNothing(w, t, c, n);
    }
    RaisedTick(w, Act(w, t, c), w', n);
  }

  lemma RaisedTick(w: World, v: World, w': World, n: Ref)
    requires RaisedOnce(w, v, n) && w' == v.(now := w.now + 1)
    ensures RaisedOnce(w, w', n)
  {
  }

  lemma RunRaises(run: seq<World>, j: nat, n: Ref)
    requires Legal(run) && 0 < j < |run| && n < |run[j].tb.mem|
    ensures RaisedOnce(run[j - 1], run[j], n)
  {
    RunMoves(run, j, n);
    assert StepAt(run, j - 1);
    TakenRaises(run[j - 1], run[j], n);
  }

  ghost predicate Aged(run: seq<World>, n: Ref, j: nat) {
    && j < |run| && n < |run[j].tb.status| && n < |run[j].tb.mem|
    && run[j].tb.mem[n].gc == Times(run, n, LeftDead, j) + Raised(run[j], n)
  }

  lemma AgedStep(run: seq<World>, n: Ref, j: nat)
    requires 0 < j < |run| && Moves(run[j - 1], run[j], n) && RaisedOnce(run[j - 1], run[j], n) && Aged(run, n, j - 1)
    ensures Aged(run, n, j)
  {
    LeavesOnce(run[j - 1], run[j], n);
  }

  /** The generation of a node counts its past lives: `p->gc++` ran exactly once
      for every time the node was freed, and before it was. */
  lemma {:induction false} GenerationCountsFrees(run: seq<World>, j: nat, n: Ref)
    requires Legal(run) && j < |run| && n < |run[j].tb.mem|
    ensures Aged(run, n, j)
    decreases j
  {
    if j > 0 {
      RunMoves(run, j, n);
      RunRaises(run, j, n);
      GenerationCountsFrees(run, j - 1, n);
      AgedStep(run, n, j);
    }
  }
}
