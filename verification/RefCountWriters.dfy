/** Every step of an insert or a delete keeps the counting invariant. */
module RefCountWriters {
  import opened Buckets
  import opened ListWriter
  import opened RefCounts
  import opened RefCountInvariants
  import opened RefCountSteps

  /** Everything but the writer `t` of bucket `b` and the nodes `touched` is as before. */
  ghost predicate WriterTouches(w: World, t: nat, b: nat, touched: set<Ref>, w': World) {
    && t < |w.threads| == |w'.threads| && b < |w.writer| == |w'.writer| && |w'.removed| == |w.removed|
    && Confined(w.tb, w'.tb, b, t) && WellFormed(w'.tb)
    && (forall u: nat :: u < |w.threads| && u != t ==> w'.threads[u] == w.threads[u])
    && (forall b': nat :: b' < |w.writer| && b' != b ==> w'.writer[b'] == w.writer[b'])
    && (forall n: Ref :: n < |w.tb.mem| && n !in touched ==>
          w'.tb.mem[n].rc == w.tb.mem[n].rc && w'.tb.status[n] == w.tb.status[n])
  }

  /** The thread may write bucket `b`: it is its writer, or nobody is. */
  ghost predicate MayWrite(w: World, t: nat, b: nat) {
    && t < |w.threads| && b < |w.writer|
    && (if IsWriter(w.threads[t]) then w.threads[t].b == b else w.writer[b] == None && w.threads[t] == IDLE)
  }

  lemma WriterFrame(w: World, t: nat, b: nat, touched: set<Ref>, w': World)
    requires Inv(w) && MayWrite(w, t, b) && WriterTouches(w, t, b, touched, w')
    requires w.threads[t].dying == [] && !InDec(w.threads[t].pc)
    requires Agree(w') && Exact(w') && ThreadOk(w', t) && WriterOk(w', b)
    requires forall n: Ref :: n in touched && n < |w.tb.mem| ==> NodeOk(w', n)
    requires forall n: Ref :: n < |w.tb.mem| && OwnNode(PcOp(w.threads[t].pc)) == Some(n) ==> n in touched
    ensures Inv(w')
  {
    forall u: nat | u < |w'.threads| ensures ThreadOk(w', u) {
      if u != t {
        WriterOther(w, t, b, touched, w', u);
      }
    }
    forall n: Ref | n < |w'.tb.mem| ensures NodeOk(w', n) {
      if n !in touched {
        WriterNode(w, t, b, touched, w', n);
      }
    }
    forall b': nat | b' < |w'.writer| ensures WriterOk(w', b') {
      assert WriterOk(w, b');
      assert ThreadOk(w, t);
    }
  }

  function PcOp(pc: Pc): Op {
    if pc.Writing? || pc.Initialising? then pc.op else Idle(false)
  }

  lemma WriterOther(w: World, t: nat, b: nat, touched: set<Ref>, w': World, u: nat)
    requires Inv(w) && MayWrite(w, t, b) && WriterTouches(w, t, b, touched, w') && u < |w.threads| && u != t
    ensures ThreadOk(w', u)
  {
    var th := w.threads[u];
    assert ThreadOk(w, u) && ThreadOk(w, t);
    if th.pc.Writing? || th.pc.Initialising? {
      assert BucketOk(w.tb, th.b);
      ConfinedOps(w.tb, w'.tb, b, t, th.b, u, th.pc.op);
    }
  }

  lemma WriterNode(w: World, t: nat, b: nat, touched: set<Ref>, w': World, n: Ref)
    requires Inv(w) && MayWrite(w, t, b) && WriterTouches(w, t, b, touched, w') && n < |w.tb.mem| && n !in touched
    requires w.threads[t].dying == [] && !InDec(w.threads[t].pc)
    requires OwnNode(PcOp(w.threads[t].pc)) != Some(n)
    ensures NodeOk(w', n)
  {
    assert NodeOk(w, n) && ThreadOk(w, t);
    if w.tb.status[n].Unlinked? {
      assert ThreadOk(w, w.writer[w.tb.status[n].bucket].value);
    }
  }

  /** Units change at most at two links and in the thread's own variables. */
  lemma WriterAgree(w: World, t: nat, a: Token, c: Token, w': World)
    requires Agree(w) && t < |w'.threads|
    requires forall tok: Token :: !OfThread(tok, t) && tok != a && tok != c ==>
               Lookup(w'.owns, tok) == Lookup(w.owns, tok) && Target(w', tok) == Target(w, tok)
    requires Lookup(w'.owns, a) == Target(w', a) && Lookup(w'.owns, c) == Target(w', c)
    requires var th := w'.threads[t];
             && Lookup(w'.owns, Hold(t)) == th.hold && Lookup(w'.owns, Grab(t)) == th.grab
             && Lookup(w'.owns, Drop(t)) == th.drop && Lookup(w'.owns, Own(t)) == th.own
    ensures Agree(w')
  {
  }

  // ----- steps without units

  /** No unit appears, disappears or moves. */
  ghost predicate SameUnits(w: World, t: nat, w': World) {
    && t < |w.threads| == |w'.threads| && w'.owns == w.owns && w'.tb.heads == w.tb.heads
    && |w'.tb.mem| == |w.tb.mem| && |w'.tb.status| == |w.tb.status|
    && (forall n: Ref :: n < |w.tb.mem| ==> w'.tb.mem[n].rc == w.tb.mem[n].rc)
    && (forall n: Ref :: n < |w.tb.status| ==> (Counted(w'.tb.status[n]) <==> Counted(w.tb.status[n])))
    && (forall n: Ref :: n < |w.tb.mem| && n < |w.tb.status| && Counted(w.tb.status[n]) ==>
        w'.tb.mem[n].next == w.tb.mem[n].next)
    && (forall u: nat :: u < |w.threads| && u != t ==> w'.threads[u] == w.threads[u])
    && var was, th := w.threads[t], w'.threads[t];
       th.hold == was.hold && th.grab == was.grab && th.drop == was.drop && th.own == was.own
  }

  lemma SameUnitsKeep(w: World, t: nat, w': World)
    requires Agree(w) && Exact(w) && SameUnits(w, t, w')
    ensures Agree(w') && Exact(w')
  {
    forall tok: Token ensures Lookup(w'.owns, tok) == Target(w', tok) {
      assert Lookup(w.owns, tok) == Target(w, tok);
      SameTarget(w, t, w', tok);
    }
    forall n: Ref | n < |w'.tb.mem| ensures w'.tb.mem[n].rc == |Units(w'.owns, n)| {
      assert w.tb.mem[n].rc == |Units(w.owns, n)|;
    }
  }

  lemma SameTarget(w: World, t: nat, w': World, tok: Token)
    requires SameUnits(w, t, w')
    ensures Target(w', tok) == Target(w, tok)
  {
  }

  lemma WalkInv(w: World, t: nat)
    requires Inv(w) && t < |w.threads| && w.threads[t].pc.Writing? && w.threads[t].pc.op.Walking?
    ensures Inv(SetThread(w, t, w.threads[t].(pc := Writing(WalkNext(w.tb, w.threads[t].pc.op)))))
  {
    var th := w.threads[t];
    var w' := SetThread(w, t, th.(pc := Writing(WalkNext(w.tb, th.pc.op))));
    assert ThreadOk(w, t) && WriterOk(w, th.b);
    WalkStep(w.tb, th.b, t, th.pc.op);
    SameUnitsKeep(w, t, w');
    WriterFrame(w, t, th.b, {}, w');
  }

  /** A step of a writer that prepares node `n`: no unit moves. */
  lemma PrepareFrame(w: World, t: nat, n: Ref, w': World)
    requires Inv(w) && t < |w.threads| && w.threads[t].pc.Writing? && w.threads[t].b < |w.writer|
    requires OwnNode(w.threads[t].pc.op) == None || OwnNode(w.threads[t].pc.op) == Some(n)
    requires WriterTouches(w, t, w.threads[t].b, {n}, w') && SameUnits(w, t, w') && w'.writer == w.writer
    requires ThreadOk(w', t) && IsWriter(w'.threads[t]) && w'.threads[t].b == w.threads[t].b
    requires n < |w.tb.mem| ==> NodeOk(w', n)
    ensures Inv(w')
  {
    assert ThreadOk(w, t) && WriterOk(w, w.threads[t].b);
    SameUnitsKeep(w, t, w');
    WriterFrame(w, t, w.threads[t].b, {n}, w');
  }

  lemma AllocInv(w: World, t: nat, n: Ref)
    requires Inv(w) && t < |w.threads| && w.threads[t].pc.Writing? && w.threads[t].pc.op.Allocating?
    requires n < |w.tb.mem| && w.tb.status[n] == Free
    ensures var op := w.threads[t].pc.op;
            Inv(SetThread(w, t, w.threads[t].(pc := Initialising(Keying(n, op.key, op.prev, op.cur))))
                  .(tb := SetStatus(w.tb, n, Private(t))))
  {
    var th, op := w.threads[t], w.threads[t].pc.op;
    var w' := SetThread(w, t, th.(pc := Initialising(Keying(n, op.key, op.prev, op.cur))))
        .(tb := SetStatus(w.tb, n, Private(t)));
    assert ThreadOk(w, t) && NodeOk(w, n);
    AllocStep(w.tb, th.b, t, op, n);
    PrepareFrame(w, t, n, w');
  }

  lemma KeyInv(w: World, t: nat)
    requires Inv(w) && t < |w.threads| && w.threads[t].pc.Writing? && w.threads[t].pc.op.Keying?
    ensures var op := w.threads[t].pc.op;
            op.node < |w.tb.mem| &&
            Inv(SetThread(w, t, w.threads[t].(pc := Writing(Linking(op.node, op.key, op.prev, op.cur))))
                  .(tb := StoreKey(w.tb, op.node, op.key)))
  {
    var th, op := w.threads[t], w.threads[t].pc.op;
    assert ThreadOk(w, t) && NodeOk(w, op.node);
    var w' := SetThread(w, t, th.(pc := Writing(Linking(op.node, op.key, op.prev, op.cur))))
        .(tb := StoreKey(w.tb, op.node, op.key));
    KeyStep(w.tb, th.b, t, op);
    PrepareFrame(w, t, op.node, w');
  }

  lemma LinkInv(w: World, t: nat)
    requires Inv(w) && t < |w.threads| && w.threads[t].pc.Writing? && w.threads[t].pc.op.Linking?
    ensures var op := w.threads[t].pc.op;
            op.node < |w.tb.mem| &&
            Inv(SetThread(w, t, w.threads[t].(pc := Writing(Publishing(op.node, op.key, op.prev, op.cur))))
                  .(tb := StoreNext(w.tb, op.node, op.cur)))
  {
    var th, op := w.threads[t], w.threads[t].pc.op;
    assert ThreadOk(w, t) && NodeOk(w, op.node);
    var w' := SetThread(w, t, th.(pc := Writing(Publishing(op.node, op.key, op.prev, op.cur))))
        .(tb := StoreNext(w.tb, op.node, op.cur));
    LinkStep(w.tb, th.b, t, op);
    PrepareFrame(w, t, op.node, w');
  }

  /** A call begins. */
  lemma StartInv(w: World, t: nat, c: Choice)
    requires Inv(w) && t < |w.threads| && w.threads[t].pc.Resting? && Enabled(w, t, c)
    ensures Inv(Act(w, t, c))
  {
    var w' := Act(w, t, c);
    assert ThreadOk(w, t);
    SameUnitsKeep(w, t, w');
    if c.search {
      StartSearchInv(w, t, c);
    } else {
      assert WriterOk(w, c.b) && BucketOk(w.tb, c.b);
      ConfinedSelf(w.tb, c.b, t);
      WriterFrame(w, t, c.b, {}, w');
    }
  }

  lemma StartSearchInv(w: World, t: nat, c: Choice)
    requires Inv(w) && t < |w.threads| && w.threads[t].pc.Resting? && Enabled(w, t, c) && c.search
    ensures Inv(Act(w, t, c))
  {
    assert ThreadOk(w, t);
    SelfTokens(w, t);
    MoveInv(w, t, IDLE.(pc := Reading, b := c.b, key := c.key, start := w.now), w.owns);
  }

  /** A search has returned. */
  lemma ReturnInv(w: World, t: nat)
    requires Inv(w) && t < |w.threads| && w.threads[t].pc.Returned?
    ensures Inv(SetThread(w, t, IDLE))
  {
    assert ThreadOk(w, t);
    SelfTokens(w, t);
    MoveInv(w, t, IDLE, w.owns);
    assert SetThread(w, t, IDLE).(owns := w.owns) == SetThread(w, t, IDLE);
  }

  /** A write operation returns: the bucket is free for another writer. */
  lemma ReleaseInv(w: World, t: nat)
    requires Inv(w) && t < |w.threads| && IsWriter(w.threads[t])
    requires (w.threads[t].pc.Writing? && w.threads[t].pc.op.Idle?) || (w.threads[t].pc.Unwinding?
        && w.threads[t].dying == [])
    ensures w.threads[t].b < |w.writer|
    ensures Inv(SetThread(w, t, IDLE).(writer := w.writer[w.threads[t].b := None]))
  {
    var th := w.threads[t];
    assert ThreadOk(w, t) && WriterOk(w, th.b);
    var w' := SetThread(w, t, IDLE).(writer := w.writer[th.b := None]);
    SameUnitsKeep(w, t, w');
    ConfinedSelf(w.tb, th.b, t);
    ReleaseFrame(w, t, w');
  }

  lemma ReleaseFrame(w: World, t: nat, w': World)
    requires Inv(w) && t < |w.threads| && IsWriter(w.threads[t]) && w.threads[t].b < |w.writer|
    requires (w.threads[t].pc.Writing? && w.threads[t].pc.op.Idle?) || (w.threads[t].pc.Unwinding?
        && w.threads[t].dying == [])
    requires w' == SetThread(w, t, IDLE).(writer := w.writer[w.threads[t].b := None])
    requires Agree(w') && Exact(w')
    ensures Inv(w')
  {
    var b := w.threads[t].b;
    assert ThreadOk(w, t);
    forall u: nat | u < |w'.threads| ensures ThreadOk(w', u) {
      assert ThreadOk(w, u);
    }
    forall n: Ref | n < |w'.tb.mem| ensures NodeOk(w', n) {
      assert NodeOk(w, n);
    }
    forall b': nat | b' < |w'.writer| ensures WriterOk(w', b') {
      assert WriterOk(w, b');
    }
  }
}
