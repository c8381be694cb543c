/** The shared world of the four optimistic schemes: type-stable nodes that
    writers unlink, free and reinsert in any bucket while readers stand on them.

    - Gecos: a delete bumps the node's generation between unlink and free.
    - Sgecos: a delete bumps the bucket's counter between unlink and free.
    - SeqLock: writers compete by CAS for a word that is odd while one of them
      holds it; a delete frees before it unlocks.
    - GcLock: the same word, bit 0 being the lock and the rest a generation; a
      delete unlocks before it frees.

    Gecos and Sgecos allow one active writer per bucket (ONE_WRITER).  A step is
    one shared store, CAS or load of one writer thread, so a run is any
    interleaving of all the writers.  Readers never store: they are not threads
    of the world but pick the instants of a run at which they load. */
module Worlds {
  import opened Buckets
  import opened ListWriter

  datatype Scheme = Gecos | Sgecos | SeqLock | GcLock

  datatype Thread =
    | Resting
    | Probing(b: nat, key: int)                      // delete: *head == NULL?
    | Spinning(b: nat, del: bool, key: int)          // lock_wlock: load the word
    | Trying(b: nat, del: bool, key: int, seen: nat) // lock_wlock: CAS
    | Entered(b: nat, del: bool, key: int)           // lock_wlock: assert(*sl & 1)
    | Inside(b: nat, op: Op)                         // holds the bucket; Idle: about to unlock
    | Freeing(b: nat, node: Ref)                     // GcLock: unlocked, about to free

  /** `holder` is history: the thread that holds each bucket. */
  datatype World = World(scheme: Scheme, tb: Table, count: seq<nat>, threads: seq<Thread>, holder: seq<Option<nat>>)

  predicate Locked(s: Scheme) {
    s == SeqLock || s == GcLock
  }

  ghost predicate InitialTable(tb: Table) {
    && Shaped(tb)
    && (forall b: nat :: b < |tb.heads| ==> tb.heads[b] == None)
    && (forall n: Ref :: n < |tb.mem| ==> tb.status[n] == Free && tb.mem[n] == Node(0, None, 0, 0))
  }

  ghost predicate Initial(w: World) {
    && InitialTable(w.tb)
    && |w.holder| == |w.count| == |w.tb.heads|
    && (forall b: nat :: b < |w.holder| ==> w.holder[b] == None && w.count[b] == 0)
    && (forall t: nat :: t < |w.threads| ==> w.threads[t] == Resting)
  }

  /** What a step leaves open: the operation a resting thread starts, and the
      free node the allocator hands out. */
  datatype Choice = Choice(b: nat, del: bool, key: int, node: Ref)

  function SetThread(w: World, t: nat, th: Thread): World
    requires t < |w.threads|
  {
    w.(threads := w.threads[t := th])
  }

  function Hold(w: World, b: nat, h: Option<nat>, count: nat): World
    requires b < |w.holder| && b < |w.count|
  {
    w.(holder := w.holder[b := h], count := w.count[b := count])
  }

  function BumpNode(tb: Table, n: Ref): Table
    requires n < |tb.mem|
  {
    tb.(mem := tb.mem[n := tb.mem[n].(gc := tb.mem[n].gc + 1)])
  }

  predicate InsideEnabled(w: World, b: nat, op: Op, c: Choice) {
    && b < |w.tb.heads| && Shaped(w.tb)
    && match op
       case Idle(_) => true
       case Walking(_, _, _, _) => true
       case Unlinking(_, prev, n) => LocOk(w.tb, b, prev) && n < |w.tb.mem|
       case Reclaiming(n, _) => n < |w.tb.mem|
       case Allocating(_, _, _) => c.node < |w.tb.mem| && w.tb.status[c.node] == Free
       case Keying(n, _, _, _) => n < |w.tb.mem|
       case Linking(n, _, _, _) => n < |w.tb.mem|
       case Publishing(n, _, prev, _) => LocOk(w.tb, b, prev) && n < |w.tb.mem|
  }

  predicate Enabled(w: World, t: nat, c: Choice) {
    && t < |w.threads| && |w.holder| == |w.count| == |w.tb.heads| && Shaped(w.tb)
    && match w.threads[t]
       case Resting => c.b < |w.holder| && (Locked(w.scheme) || w.holder[c.b] == None)
       case Probing(b, _) => b < |w.holder|
       case Spinning(b, _, _) => b < |w.holder|
       case Trying(b, _, _, _) => b < |w.holder|
       case Entered(b, _, _) => b < |w.holder|
       case Inside(b, op) => InsideEnabled(w, b, op, c)
       case Freeing(_, n) => n < |w.tb.mem|
  }

  /** The step of a thread that holds bucket `b`. */
  function InsideNext(w: World, t: nat, b: nat, op: Op, c: Choice): World
    requires Enabled(w, t, c) && w.threads[t] == Inside(b, op)
  {
    match op
    case Idle(_) =>  // lock_wunlock
      SetThread(Hold(w, b, None, w.count[b] + if Locked(w.scheme) then 1 else 0), t, Resting)
    case Walking(_, _, _, _) =>
      SetThread(w, t, Inside(b, WalkNext(w.tb, op)))
    case Unlinking(_, prev, n) =>
      SetThread(w.(tb := Unlink(w.tb, b, prev, n)), t, Inside(b, Reclaiming(n, 0)))
    case Reclaiming(n, stage) =>
      if w.scheme == SeqLock || stage > 0 then  // free_node
        SetThread(w.(tb := SetStatus(w.tb, n, Free)), t, Inside(b, Idle(true)))
      else if w.scheme == GcLock then           // lock_wunlock before free_node
        SetThread(Hold(w.(tb := SetStatus(w.tb, n, Retired(t))), b, None, w.count[b] + 1), t, Freeing(b, n))
      else if w.scheme == Gecos then            // n->gc++
        SetThread(w.(tb := SetStatus(BumpNode(w.tb, n), n, Retired(t))), t, Inside(b, Reclaiming(n, 1)))
      else                                      // (*lock)++
        SetThread(Hold(w.(tb := SetStatus(w.tb, n, Retired(t))), b, Some(t), w.count[b] + 1), t,
                  Inside(b, Reclaiming(n, 1)))
    case Allocating(key, prev, cur) =>
      SetThread(w.(tb := SetStatus(w.tb, c.node, Private(t))), t, Inside(b, Keying(c.node, key, prev, cur)))
    case Keying(n, key, prev, cur) =>
      SetThread(w.(tb := StoreKey(w.tb, n, key)), t, Inside(b, Linking(n, key, prev, cur)))
    case Linking(n, key, prev, cur) =>
      SetThread(w.(tb := StoreNext(w.tb, n, cur)), t, Inside(b, Publishing(n, key, prev, cur)))
    case Publishing(n, _, prev, _) =>
      SetThread(w.(tb := Publish(w.tb, b, prev, n)), t, Inside(b, Idle(true)))
  }

  function Next(w: World, t: nat, c: Choice): World
    requires Enabled(w, t, c)
  {
    match w.threads[t]
    case Resting =>
      if !Locked(w.scheme) then
        SetThread(Hold(w, c.b, Some(t), w.count[c.b]), t, Inside(c.b, Start(w.tb, c.b, c.del, c.key)))
      else if c.del then SetThread(w, t, Probing(c.b, c.key))
      else SetThread(w, t, Spinning(c.b, false, c.key))
    case Probing(b, key) =>
      SetThread(w, t, if w.tb.heads[b] == None then Resting else Spinning(b, true, key))
    case Spinning(b, del, key) =>
      if w.count[b] % 2 == 1 then w else SetThread(w, t, Trying(b, del, key, w.count[b]))
    case Trying(b, del, key, seen) =>
      if w.count[b] == seen then SetThread(Hold(w, b, Some(t), seen + 1), t, Entered(b, del, key))
      else SetThread(w, t, Spinning(b, del, key))
    case Entered(b, del, key) =>
      SetThread(w, t, Inside(b, Start(w.tb, b, del, key)))
    case Inside(b, op) => InsideNext(w, t, b, op, c)
    case Freeing(_, n) =>
      SetThread(w.(tb := SetStatus(w.tb, n, Free)), t, Resting)
  }

  predicate WriterStep(w: World, t: nat, c: Choice, w': World) {
    Enabled(w, t, c) && w' == Next(w, t, c)
  }

  ghost predicate Step(w: World, w': World) {
    exists t: nat, c: Choice :: WriterStep(w, t, c, w')
  }

  ghost predicate StepAt(run: seq<World>, i: nat) {
    i + 1 < |run| ==> Step(run[i], run[i + 1])
  }

  ghost predicate Legal(run: seq<World>) {
    |run| > 0 && Initial(run[0]) && forall i: nat :: StepAt(run, i)
  }

  // ----- the invariant

  predicate Holds(w: World, t: nat, b: nat) {
    b < |w.holder| && w.holder[b] == Some(t)
  }

  /** The thread is between a lock and its unlock. */
  predicate InSection(th: Thread, b: nat) {
    (th.Entered? || th.Inside?) && th.b == b
  }

  ghost predicate ThreadOk(w: World, t: nat)
    requires t < |w.threads|
  {
    match w.threads[t]
    case Resting => true
    case Probing(b, _) => b < |w.holder| && Locked(w.scheme)
    case Spinning(b, _, _) => b < |w.holder| && Locked(w.scheme)
    case Trying(b, _, _, seen) => b < |w.holder| && Locked(w.scheme) && seen % 2 == 0
    case Entered(b, _, _) => Holds(w, t, b)
    case Inside(b, op) => Holds(w, t, b) && OpOk(w.tb, b, t, op)
    case Freeing(b, n) => b < |w.holder| && n < |w.tb.status| && w.tb.status[n] == Retired(t)
  }

  /** Mutual exclusion: the holder is the one thread in its section, and bit 0 of
      the lock word says whether there is one. */
  ghost predicate HolderOk(w: World, b: nat)
    requires b < |w.holder| == |w.count|
  {
    && (w.holder[b].Some? ==> w.holder[b].value < |w.threads| && InSection(w.threads[w.holder[b].value], b))
    && (Locked(w.scheme) ==> (w.count[b] % 2 == 1 <==> w.holder[b].Some?))
  }

  /** Thread `t` accounts for node `n`, which is off the lists with status `s`. */
  predicate Keeps(th: Thread, t: nat, n: Ref, s: Status) {
    match th
    case Inside(b, op) => Held(op, b, t) == Some((n, s))
    case Freeing(_, m) => m == n && s == Retired(t)
    case _ => false
  }

  ghost predicate Accounted(w: World, n: Ref)
    requires n < |w.tb.status|
  {
    match w.tb.status[n]
    case Free => true
    case Linked(b) => true
    case Private(t) => t < |w.threads| && Keeps(w.threads[t], t, n, Private(t))
    case Unlinked(b) =>
      && b < |w.holder| && w.holder[b].Some? && w.holder[b].value < |w.threads|
      && Keeps(w.threads[w.holder[b].value], w.holder[b].value, n, Unlinked(b))
    case Retired(t) => t < |w.threads| && Keeps(w.threads[t], t, n, Retired(t))
    case Dying(_) => false
    case Dead(_) => false
  }

  ghost predicate Inv(w: World) {
    && WellFormed(w.tb)
    && |w.holder| == |w.count| == |w.tb.heads|
    && (forall t: nat {:trigger w.threads[t]} {:trigger ThreadOk(w, t)} :: t < |w.threads| ==> ThreadOk(w, t))
    && (forall b: nat {:trigger w.holder[b]} {:trigger HolderOk(w, b)} :: b < |w.holder| ==> HolderOk(w, b))
    && (forall n: Ref {:trigger w.tb.status[n]} {:trigger Accounted(w, n)} :: n < |w.tb.status| ==> Accounted(w, n))
  }

  lemma InitialInv(w: World)
    requires Initial(w)
    ensures Inv(w)
  {
  }

  /** Only thread `t` moved, and only bucket `b` may have changed hands. */
  ghost predicate OnlyThread(w: World, t: nat, b: nat, w': World) {
    && |w'.threads| == |w.threads| && t < |w.threads| && w'.scheme == w.scheme
    && |w'.holder| == |w.holder| == |w'.count| == |w.count| && b < |w.holder|
    && (forall u: nat :: u < |w.threads| && u != t ==> w'.threads[u] == w.threads[u])
    && (forall b': nat :: b' < |w.holder| && b' != b ==> w'.holder[b'] == w.holder[b'] && w'.count[b'] == w.count[b'])
  }

  /** A step inside the section of `b` preserves what it does not touch. */
  lemma SectionFrame(w: World, t: nat, b: nat, w': World)
    requires Inv(w) && OnlyThread(w, t, b, w') && Holds(w, t, b)
    requires Confined(w.tb, w'.tb, b, t) && WellFormed(w'.tb)
    requires ThreadOk(w', t) && HolderOk(w', b) && (w'.holder[b] == Some(t) || w'.holder[b] == None)
    requires forall n: Ref :: n < |w.tb.status| && Mine(w'.tb.status[n], b, t) ==> Accounted(w', n)
    requires !InSection(w'.threads[t], b) ==> w'.threads[t].Resting? || w'.threads[t].Freeing?
    requires InSection(w'.threads[t], b) ==> w'.holder[b] == Some(t)
    ensures Inv(w')
  {
    forall u: nat | u < |w'.threads| ensures ThreadOk(w', u) {
      if u != t {
        SectionThread(w, t, b, w', u);
      }
    }
    forall b': nat | b' < |w'.holder| ensures HolderOk(w', b') {
      assert HolderOk(w, b');
      assert HolderOk(w, b);
    }
    forall n: Ref | n < |w'.tb.status| ensures Accounted(w', n) {
      assert Accounted(w, n);
      assert HolderOk(w, b);
    }
  }

  lemma SectionThread(w: World, t: nat, b: nat, w': World, u: nat)
    requires Inv(w) && OnlyThread(w, t, b, w') && Holds(w, t, b)
    requires Confined(w.tb, w'.tb, b, t)
    requires u < |w.threads| && u != t
    ensures ThreadOk(w', u)
  {
    assert ThreadOk(w, u);
    match w.threads[u] {
      case Inside(b', op) =>
        assert BucketOk(w.tb, b');
        ConfinedOps(w.tb, w'.tb, b, t, b', u, op);
      case _ =>
    }
  }

  // ----- steps outside a section

  lemma FreeInv(w: World, t: nat, c: Choice, w': World)
    requires Inv(w) && WriterStep(w, t, c, w') && w.threads[t].Freeing?
    ensures Inv(w') && forall b: nat :: b < |w.tb.heads| ==> SameBucket(w.tb, w'.tb, b)
  {
    var b, n := w.threads[t].b, w.threads[t].node;
    assert ThreadOk(w, t);
    StatusStep(w.tb, b, t, n, Free);
    forall b': nat | b' < |w.tb.heads| ensures SameBucket(w.tb, w'.tb, b') {
      if b' != b {
        ConfinedOthers(w.tb, w'.tb, b, t, b');
      }
    }
    forall u: nat | u < |w'.threads| ensures ThreadOk(w', u) {
      assert ThreadOk(w, u);
      if u != t && w.threads[u].Inside? {
        FreeOp(w.tb, w.threads[u].b, u, w.threads[u].op, t, n);
      }
    }
    forall b': nat | b' < |w'.holder| ensures HolderOk(w', b') {
      assert HolderOk(w, b');
    }
    forall m: Ref | m < |w'.tb.status| ensures Accounted(w', m) {
      assert Accounted(w, m);
    }
  }

  lemma FreeOp(tb: Table, b: nat, u: nat, op: Op, t: nat, n: Ref)
    requires WellFormed(tb) && OpOk(tb, b, u, op) && u != t
    requires n < |tb.status| && tb.status[n] == Retired(t)
    ensures OpOk(SetStatus(tb, n, Free), b, u, op)
  {
    var tb' := SetStatus(tb, n, Free);
    assert BucketOk(tb, b);
    assert SameBucket(tb, tb', b);
    SameBucketKeeps(tb, tb', b);
    SameBucketPosition(tb, tb', b, op);
  }

  lemma OutsideInv(w: World, t: nat, c: Choice, w': World)
    requires Inv(w) && WriterStep(w, t, c, w') && !w.threads[t].Inside? && !w.threads[t].Freeing?
    ensures Inv(w') && w'.tb == w.tb
  {
    assert ThreadOk(w, t);
    match w.threads[t] {
      case Resting => StartInv(w, t, c, w');
      case Spinning(b, del, key) => SpinInv(w, t, c, w');
      case Probing(b, key) => SpinInv(w, t, c, w');
      case Trying(b, del, key, seen) => TryInv(w, t, c, w');
      case Entered(b, del, key) => SpinInv(w, t, c, w');
    }
  }

  lemma StartInv(w: World, t: nat, c: Choice, w': World)
    requires Inv(w) && WriterStep(w, t, c, w') && w.threads[t].Resting?
    ensures Inv(w') && w'.tb == w.tb
  {
  }

  lemma SpinInv(w: World, t: nat, c: Choice, w': World)
    requires Inv(w) && WriterStep(w, t, c, w')
    requires w.threads[t].Spinning? || w.threads[t].Probing? || w.threads[t].Entered?
    ensures Inv(w') && w'.tb == w.tb
  {
  }

  lemma TryInv(w: World, t: nat, c: Choice, w': World)
    requires Inv(w) && WriterStep(w, t, c, w') && w.threads[t].Trying?
    ensures Inv(w') && w'.tb == w.tb
  {
  }

  // ----- steps inside a section

  lemma InsideInv(w: World, t: nat, c: Choice, w': World)
    requires Inv(w) && WriterStep(w, t, c, w') && w.threads[t].Inside?
    ensures Inv(w') && Confined(w.tb, w'.tb, w.threads[t].b, t)
  {
    match w.threads[t].op {
      case Idle(_) => IdleInv(w, t, c, w');
      case Walking(_, _, _, _) => IdleInv(w, t, c, w');
      case Unlinking(_, _, _) => UnlinkInv(w, t, c, w');
      case Reclaiming(_, _) => ReclaimInv(w, t, c, w');
      case Allocating(_, _, _) => AllocInv(w, t, c, w');
      case Keying(_, _, _, _) => KeyInv(w, t, c, w');
      case Linking(_, _, _, _) => LinkInv(w, t, c, w');
      case Publishing(_, _, _, _) => PublishInv(w, t, c, w');
    }
  }

  lemma IdleInv(w: World, t: nat, c: Choice, w': World)
    requires Inv(w) && WriterStep(w, t, c, w') && w.threads[t].Inside?
    requires (w.threads[t].op.Idle? || w.threads[t].op.Walking?)
    ensures Inv(w') && Confined(w.tb, w'.tb, w.threads[t].b, t)
  {
    var b, op := w.threads[t].b, w.threads[t].op;
    assert ThreadOk(w, t) && HolderOk(w, b);
    if op.Walking? {
      WalkStep(w.tb, b, t, op);
    }
    SectionFrame(w, t, b, w');
  }

  lemma UnlinkInv(w: World, t: nat, c: Choice, w': World)
    requires Inv(w) && WriterStep(w, t, c, w') && w.threads[t].Inside? && w.threads[t].op.Unlinking?
    ensures Inv(w') && Confined(w.tb, w'.tb, w.threads[t].b, t)
  {
    var b, op := w.threads[t].b, w.threads[t].op;
    assert ThreadOk(w, t) && HolderOk(w, b);
    UnlinkStep(w.tb, b, t, op);
    SectionFrame(w, t, b, w');
  }

  lemma AllocInv(w: World, t: nat, c: Choice, w': World)
    requires Inv(w) && WriterStep(w, t, c, w') && w.threads[t].Inside? && w.threads[t].op.Allocating?
    ensures Inv(w') && Confined(w.tb, w'.tb, w.threads[t].b, t)
  {
    var b, op := w.threads[t].b, w.threads[t].op;
    assert ThreadOk(w, t) && HolderOk(w, b);
    AllocStep(w.tb, b, t, op, c.node);
    SectionFrame(w, t, b, w');
  }

  lemma KeyInv(w: World, t: nat, c: Choice, w': World)
    requires Inv(w) && WriterStep(w, t, c, w') && w.threads[t].Inside? && w.threads[t].op.Keying?
    ensures Inv(w') && Confined(w.tb, w'.tb, w.threads[t].b, t)
  {
    var b, op := w.threads[t].b, w.threads[t].op;
    assert ThreadOk(w, t) && HolderOk(w, b);
    KeyStep(w.tb, b, t, op);
    SectionFrame(w, t, b, w');
  }

  lemma LinkInv(w: World, t: nat, c: Choice, w': World)
    requires Inv(w) && WriterStep(w, t, c, w') && w.threads[t].Inside? && w.threads[t].op.Linking?
    ensures Inv(w') && Confined(w.tb, w'.tb, w.threads[t].b, t)
  {
    var b, op := w.threads[t].b, w.threads[t].op;
    assert ThreadOk(w, t) && HolderOk(w, b);
    LinkStep(w.tb, b, t, op);
    SectionFrame(w, t, b, w');
  }

  lemma PublishInv(w: World, t: nat, c: Choice, w': World)
    requires Inv(w) && WriterStep(w, t, c, w') && w.threads[t].Inside? && w.threads[t].op.Publishing?
    ensures Inv(w') && Confined(w.tb, w'.tb, w.threads[t].b, t)
  {
    var b, op := w.threads[t].b, w.threads[t].op;
    assert ThreadOk(w, t) && HolderOk(w, b);
    PublishStep(w.tb, b, t, op);
    SectionFrame(w, t, b, w');
  }

  lemma ReclaimInv(w: World, t: nat, c: Choice, w': World)
    requires Inv(w) && WriterStep(w, t, c, w') && w.threads[t].Inside? && w.threads[t].op.Reclaiming?
    ensures Inv(w') && Confined(w.tb, w'.tb, w.threads[t].b, t)
  {
    var b, op := w.threads[t].b, w.threads[t].op;
    if w.scheme == SeqLock || op.stage > 0 {
      assert ThreadOk(w, t) && HolderOk(w, b);
      StatusStep(w.tb, b, t, op.node, Free);
      SectionFrame(w, t, b, w');
    } else if w.scheme == GcLock {
      UnlockFirstInv(w, t, c, w');
    } else {
      BumpInv(w, t, c, w');
    }
  }

  lemma UnlockFirstInv(w: World, t: nat, c: Choice, w': World)
    requires Inv(w) && WriterStep(w, t, c, w') && w.threads[t].Inside? && w.threads[t].op.Reclaiming?
    requires w.scheme == GcLock && w.threads[t].op.stage == 0
    ensures Inv(w') && Confined(w.tb, w'.tb, w.threads[t].b, t)
  {
    var b, op := w.threads[t].b, w.threads[t].op;
    assert ThreadOk(w, t) && HolderOk(w, b);
    StatusStep(w.tb, b, t, op.node, Retired(t));
    SectionFrame(w, t, b, w');
  }

  lemma BumpInv(w: World, t: nat, c: Choice, w': World)
    requires Inv(w) && WriterStep(w, t, c, w') && w.threads[t].Inside? && w.threads[t].op.Reclaiming?
    requires !Locked(w.scheme) && w.threads[t].op.stage == 0
    ensures Inv(w') && Confined(w.tb, w'.tb, w.threads[t].b, t)
  {
    var b, op := w.threads[t].b, w.threads[t].op;
    assert ThreadOk(w, t) && HolderOk(w, b);
    if w.scheme == Gecos {
      BumpNodeStep(w.tb, b, t, op.node);
    } else {
      StatusStep(w.tb, b, t, op.node, Retired(t));
    }
    SectionFrame(w, t, b, w');
  }

  lemma BumpNodeStep(tb: Table, b: nat, t: nat, n: Ref)
    requires WellFormed(tb) && b < |tb.heads| && n < |tb.mem| && tb.status[n] == Unlinked(b)
    ensures var tb' := SetStatus(BumpNode(tb, n), n, Retired(t)); WellFormed(tb') && Confined(tb, tb', b, t)
  {
    OffListStep(tb, BumpNode(tb, n), b, t);
    StatusStep(BumpNode(tb, n), b, t, n, Retired(t));
  }

  lemma StepInv(w: World, t: nat, c: Choice, w': World)
    requires Inv(w) && WriterStep(w, t, c, w')
    ensures Inv(w') && w'.scheme == w.scheme
    ensures |w'.tb.mem| == |w.tb.mem| && |w'.tb.heads| == |w.tb.heads| && |w'.threads| == |w.threads|
  {
    if w.threads[t].Inside? {
      InsideInv(w, t, c, w');
    } else if w.threads[t].Freeing? {
      FreeInv(w, t, c, w');
    } else {
      OutsideInv(w, t, c, w');
    }
  }

  lemma {:induction false} RunInv(run: seq<World>, i: nat)
    requires Legal(run) && i < |run|
    ensures Inv(run[i])
    ensures run[i].scheme == run[0].scheme
    ensures |run[i].tb.mem| == |run[0].tb.mem| && |run[i].tb.heads| == |run[0].tb.heads|
  {
    if i == 0 {
      InitialInv(run[0]);
    } else {
      RunInv(run, i - 1);
      assert StepAt(run, i - 1);
      var t: nat, c: Choice :| WriterStep(run[i - 1], t, c, run[i]);
      StepInv(run[i - 1], t, c, run[i]);
    }
  }
}
