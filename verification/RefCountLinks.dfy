/** The four writer steps that move units: counting a new node, publishing it,
    unlinking a node and counting its link again. */
module RefCountLinks {
  import opened Buckets
  import opened ListWriter
  import opened RefCounts
  import opened RefCountInvariants
  import opened RefCountSteps
  import opened RefCountWriters

  // ----- init_new_node

  lemma InitInv(w: World, t: nat, n: Ref)
    requires Inv(w) && t < |w.threads| && w.threads[t].pc.Initialising?
    requires w.threads[t].pc.op.Keying? && w.threads[t].pc.op.node == n
    ensures n < |w.tb.mem| && Inv(InitNext(w, t, n))
  {
    assert ThreadOk(w, t) && NodeOk(w, n) && WriterOk(w, w.threads[t].b);
    InitShape(w, t, n);
    InitUnits(w, t, n);
    WriterFrame(w, t, w.threads[t].b, {n}, InitNext(w, t, n));
  }

  lemma InitShape(w: World, t: nat, n: Ref)
    requires Inv(w) && t < |w.threads| && w.threads[t].pc.Initialising?
    requires w.threads[t].pc.op.Keying? && w.threads[t].pc.op.node == n
    ensures n < |w.tb.mem| && WriterTouches(w, t, w.threads[t].b, {n}, InitNext(w, t, n))
    ensures ThreadOk(InitNext(w, t, n), t) && NodeOk(InitNext(w, t, n), n)
  {
    var b, op := w.threads[t].b, w.threads[t].pc.op;
    assert ThreadOk(w, t) && NodeOk(w, n);
    var w' := InitNext(w, t, n);
    assert SameBucket(w.tb, w'.tb, b);
    OffListStep(w.tb, w'.tb, b, t);
    assert BucketOk(w.tb, b);
    SameBucketPosition(w.tb, w'.tb, b, op);
  }

  lemma InitUnits(w: World, t: nat, n: Ref)
    requires Inv(w) && t < |w.threads| && w.threads[t].pc.Initialising? && w.threads[t].own.None? && n < |w.tb.mem|
    ensures Agree(InitNext(w, t, n)) && Exact(InitNext(w, t, n))
  {
    var w' := InitNext(w, t, n);
    SelfTokens(w, t);
    UnitsGain(w.owns, Own(t), n);
    assert Lookup(w.owns, NextRef(n)) == Target(w, NextRef(n));
    WriterAgree(w, t, NextRef(n), NextRef(n), w');
    forall m: Ref | m < |w'.tb.mem| ensures w'.tb.mem[m].rc == |Units(w'.owns, m)| {
      assert w.tb.mem[m].rc == |Units(w.owns, m)|;
    }
  }

  // ----- the unlink

  lemma UnlinkInv(w: World, t: nat)
    requires Inv(w) && t < |w.threads| && w.threads[t].pc.Writing? && w.threads[t].pc.op.Unlinking?
    ensures var op := w.threads[t].pc.op;
            && LocOk(w.tb, w.threads[t].b, op.prev) && op.node < |w.tb.mem| == |w.removed|
            && Inv(UnlinkNext(w, t, w.threads[t].b, op.prev, op.node))
  {
    var b, op := w.threads[t].b, w.threads[t].pc.op;
    assert ThreadOk(w, t) && WriterOk(w, b);
    var w' := UnlinkNext(w, t, b, op.prev, op.node);
    UnlinkShape(w, t);
    UnlinkUnits(w, t);
    WriterFrame(w, t, b, {op.node}, w');
  }

  lemma UnlinkShape(w: World, t: nat)
    requires Inv(w) && t < |w.threads| && w.threads[t].pc.Writing? && w.threads[t].pc.op.Unlinking?
    ensures var b, op := w.threads[t].b, w.threads[t].pc.op;
            && LocOk(w.tb, b, op.prev) && op.node < |w.tb.mem| == |w.removed|
            && var w' := UnlinkNext(w, t, b, op.prev, op.node);
               && WriterTouches(w, t, b, {op.node}, w')
               && ThreadOk(w', t) && NodeOk(w', op.node) && WriterOk(w', b)
  {
    var b, op := w.threads[t].b, w.threads[t].pc.op;
    assert ThreadOk(w, t) && WriterOk(w, b);
    UnlinkStep(w.tb, b, t, op);
  }

  lemma UnlinkUnits(w: World, t: nat)
    requires Inv(w) && t < |w.threads| && w.threads[t].pc.Writing? && w.threads[t].pc.op.Unlinking?
    requires var op := w.threads[t].pc.op; LocOk(w.tb, w.threads[t].b, op.prev) && op.node < |w.tb.mem| == |w.removed|
    ensures var op := w.threads[t].pc.op;
            var w' := UnlinkNext(w, t, w.threads[t].b, op.prev, op.node);
            Agree(w') && Exact(w')
  {
    var b, op := w.threads[t].b, w.threads[t].pc.op;
    var n := op.node;
    assert ThreadOk(w, t) && BucketOk(w.tb, b);
    var link := LinkToken(b, op.prev);
    UnlinkTargets(w, t, b, op.prev, n, op.key);
    assert Lookup(w.owns, link) == Target(w, link) && Lookup(w.owns, NextRef(n)) == Target(w, NextRef(n));
    SelfTokens(w, t);
    UnitsRename(w.owns, link, Own(t));
    UnitsRename(Rename(w.owns, link, Own(t)), NextRef(n), link);
    var w' := UnlinkNext(w, t, b, op.prev, n);
    WriterAgree(w, t, link, NextRef(n), w');
    forall m: Ref | m < |w'.tb.mem| ensures w'.tb.mem[m].rc == |Units(w'.owns, m)| {
      assert w.tb.mem[m].rc == |Units(w.owns, m)|;
    }
  }

  lemma UnlinkTargets(w: World, t: nat, b: nat, prev: Loc, n: Ref, key: int)
    requires WellFormed(w.tb) && t < |w.threads| && |w.removed| == |w.tb.mem| && LocOk(w.tb, b, prev)
    requires Stop(w.tb, b, prev, Some(n), key) && BucketOk(w.tb, b) && w.tb.mem[n].key == key
    ensures var w' := UnlinkNext(w, t, b, prev, n);
            && prev != NextOf(n)
            && Target(w, LinkToken(b, prev)) == Some(n) && Target(w, NextRef(n)) == w.tb.mem[n].next
            && Target(w', LinkToken(b, prev)) == w.tb.mem[n].next && Target(w', NextRef(n)) == None
            && forall tok: Token :: !OfThread(tok, t) && tok != LinkToken(b, prev) && tok != NextRef(n) ==>
                Target(w', tok) == Target(w, tok)
  {
  }

  // ----- the publication

  lemma PublishInv(w: World, t: nat)
    requires Inv(w) && t < |w.threads| && w.threads[t].pc.Writing? && w.threads[t].pc.op.Publishing?
    ensures var op := w.threads[t].pc.op;
            && LocOk(w.tb, w.threads[t].b, op.prev) && op.node < |w.tb.mem| && w.threads[t].b < |w.writer|
            && Inv(PublishNext(w, t, w.threads[t].b, op.prev, op.node))
  {
    var b, op := w.threads[t].b, w.threads[t].pc.op;
    assert ThreadOk(w, t) && WriterOk(w, b);
    PublishShape(w, t);
    PublishUnits(w, t);
    WriterFrame(w, t, b, {op.node}, PublishNext(w, t, b, op.prev, op.node));
  }

  lemma PublishShape(w: World, t: nat)
    requires Inv(w) && t < |w.threads| && w.threads[t].pc.Writing? && w.threads[t].pc.op.Publishing?
    ensures var b, op := w.threads[t].b, w.threads[t].pc.op;
            && LocOk(w.tb, b, op.prev) && op.node < |w.tb.mem| && b < |w.writer|
            && var w' := PublishNext(w, t, b, op.prev, op.node);
               && WriterTouches(w, t, b, {op.node}, w')
               && ThreadOk(w', t) && NodeOk(w', op.node) && WriterOk(w', b)
  {
    var b, op := w.threads[t].b, w.threads[t].pc.op;
    assert ThreadOk(w, t) && WriterOk(w, b);
    PublishStep(w.tb, b, t, op);
  }

  lemma PublishUnits(w: World, t: nat)
    requires Inv(w) && t < |w.threads| && w.threads[t].pc.Writing? && w.threads[t].pc.op.Publishing?
    requires var op := w.threads[t].pc.op;
             LocOk(w.tb, w.threads[t].b, op.prev) && op.node < |w.tb.mem| && w.threads[t].b < |w.writer|
    ensures var op := w.threads[t].pc.op;
            var w' := PublishNext(w, t, w.threads[t].b, op.prev, op.node);
            Agree(w') && Exact(w')
  {
    var b, op := w.threads[t].b, w.threads[t].pc.op;
    var n := op.node;
    assert ThreadOk(w, t);
    var link := LinkToken(b, op.prev);
    PublishTargets(w, t, b, op.prev, n, op.cur);
    assert Lookup(w.owns, link) == Target(w, link) && Lookup(w.owns, NextRef(n)) == Target(w, NextRef(n));
    SelfTokens(w, t);
    UnitsRename(w.owns, link, NextRef(n));
    UnitsRename(Rename(w.owns, link, NextRef(n)), Own(t), link);
    var w' := PublishNext(w, t, b, op.prev, n);
    WriterAgree(w, t, link, NextRef(n), w');
    forall m: Ref | m < |w'.tb.mem| ensures w'.tb.mem[m].rc == |Units(w'.owns, m)| {
      assert w.tb.mem[m].rc == |Units(w.owns, m)|;
    }
  }

  lemma PublishTargets(w: World, t: nat, b: nat, prev: Loc, n: Ref, cur: Option<Ref>)
    requires WellFormed(w.tb) && t < |w.threads| && LocOk(w.tb, b, prev) && b < |w.writer| && n < |w.tb.mem|
    requires Load(w.tb, b, prev) == cur && (prev.NextOf? ==> LinkedIn(w.tb, b, prev.node))
    requires w.tb.status[n].Private? && w.tb.mem[n].next == cur
    ensures var w' := PublishNext(w, t, b, prev, n);
            && prev != NextOf(n)
            && Target(w, LinkToken(b, prev)) == cur && Target(w, NextRef(n)) == None
            && Target(w', LinkToken(b, prev)) == Some(n) && Target(w', NextRef(n)) == cur
            && forall tok: Token :: !OfThread(tok, t) && tok != LinkToken(b, prev) && tok != NextRef(n) ==>
                Target(w', tok) == Target(w, tok)
  {
  }

  // ----- lfrc_refcnt_inc(n->next)

  lemma RecountInv(w: World, t: nat)
    requires Inv(w) && t < |w.threads| && w.threads[t].pc.Writing? && w.threads[t].pc.op.Reclaiming?
    ensures var n := w.threads[t].pc.op.node;
            n < |w.tb.mem| && OptOk(w, w.tb.mem[n].next) && Inv(RecountNext(w, t, n))
  {
    var b, n := w.threads[t].b, w.threads[t].pc.op.node;
    assert ThreadOk(w, t) && WriterOk(w, b) && NodeOk(w, n);
    var w' := RecountNext(w, t, n);
    RecountUnits(w, t);
    var touched := if w.tb.mem[n].next.Some? then {n, w.tb.mem[n].next.value} else {n};
    RecountShape(w, t, touched);
    WriterFrame(w, t, b, touched, w');
  }

  /** The successor of the unlinked node is linked: it cannot disappear before
      the unlinked node's link is counted again. */
  lemma SuccessorLinked(w: World, t: nat)
    requires Inv(w) && t < |w.threads| && w.threads[t].pc.Writing? && w.threads[t].pc.op.Reclaiming?
    ensures var n := w.threads[t].pc.op.node;
            n < |w.tb.mem| && (w.tb.mem[n].next.Some? ==> LinkedIn(w.tb, w.threads[t].b, w.tb.mem[n].next.value))
  {
  }

  lemma RecountShape(w: World, t: nat, touched: set<Ref>)
    requires Inv(w) && t < |w.threads| && w.threads[t].pc.Writing? && w.threads[t].pc.op.Reclaiming?
    requires w.threads[t].pc.op.node < |w.tb.mem| && OptOk(w, w.tb.mem[w.threads[t].pc.op.node].next)
    requires var n := w.threads[t].pc.op.node;
             touched == if w.tb.mem[n].next.Some? then {n, w.tb.mem[n].next.value} else {n}
    requires Agree(RecountNext(w, t, w.threads[t].pc.op.node)) && Exact(RecountNext(w, t, w.threads[t].pc.op.node))
    ensures var b, n := w.threads[t].b, w.threads[t].pc.op.node;
            var w' := RecountNext(w, t, n);
            && WriterTouches(w, t, b, touched, w') && ThreadOk(w', t) && WriterOk(w', b)
            && forall m: Ref :: m in touched ==> NodeOk(w', m)
  {
    var b, n := w.threads[t].b, w.threads[t].pc.op.node;
    assert ThreadOk(w, t) && WriterOk(w, b) && NodeOk(w, n);
    SuccessorLinked(w, t);
    RecountTable(w, t, b, n);
    RecountNodes(w, t, touched);
  }

  lemma RecountNodes(w: World, t: nat, touched: set<Ref>)
    requires Inv(w) && t < |w.threads| && w.threads[t].pc.Writing? && w.threads[t].pc.op.Reclaiming?
    requires w.threads[t].pc.op.node < |w.tb.mem| && OptOk(w, w.tb.mem[w.threads[t].pc.op.node].next)
    requires var n := w.threads[t].pc.op.node;
             touched == if w.tb.mem[n].next.Some? then {n, w.tb.mem[n].next.value} else {n}
    requires Agree(RecountNext(w, t, w.threads[t].pc.op.node)) && Exact(RecountNext(w, t, w.threads[t].pc.op.node))
    ensures var w' := RecountNext(w, t, w.threads[t].pc.op.node);
            forall m: Ref :: m in touched ==> m < |w'.tb.mem| && NodeOk(w', m)
  {
    var n := w.threads[t].pc.op.node;
    assert ThreadOk(w, t) && NodeOk(w, n);
    SuccessorLinked(w, t);
    UnitsPositive(RecountNext(w, t, n), Drop(t), n);
    if w.tb.mem[n].next.Some? {
      assert NodeOk(w, w.tb.mem[n].next.value);
    }
  }

  lemma RecountTable(w: World, t: nat, b: nat, n: Ref)
    requires WellFormed(w.tb) && t < |w.threads| && b < |w.tb.heads| && n < |w.tb.mem| && w.tb.status[n] == Unlinked(b)
    requires OptOk(w, w.tb.mem[n].next)
    requires w.tb.mem[n].next.Some? ==> LinkedIn(w.tb, b, w.tb.mem[n].next.value)
    ensures var w' := RecountNext(w, t, n); WellFormed(w'.tb) && Confined(w.tb, w'.tb, b, t)
  {
    var w' := RecountNext(w, t, n);
    assert SameBucket(w.tb, w'.tb, b);
    OffListStep(w.tb, w'.tb, b, t);
  }

  lemma RecountUnits(w: World, t: nat)
    requires Inv(w) && t < |w.threads| && w.threads[t].pc.Writing? && w.threads[t].pc.op.Reclaiming?
    requires w.threads[t].pc.op.node < |w.tb.mem| && OptOk(w, w.tb.mem[w.threads[t].pc.op.node].next)
    ensures var w' := RecountNext(w, t, w.threads[t].pc.op.node); Agree(w') && Exact(w')
  {
    var n := w.threads[t].pc.op.node;
    assert ThreadOk(w, t);
    SuccessorLinked(w, t);
    assert Lookup(w.owns, NextRef(n)) == Target(w, NextRef(n));
    SelfTokens(w, t);
    var w' := RecountNext(w, t, n);
    var next := w.tb.mem[n].next;
    var owns := if next.Some? then w.owns[NextRef(n) := next.value] else w.owns;
    if next.Some? {
      UnitsGain(w.owns, NextRef(n), next.value);
    }
    UnitsRename(owns, Own(t), Drop(t));
    WriterAgree(w, t, NextRef(n), NextRef(n), w');
    forall m: Ref | m < |w'.tb.mem| ensures w'.tb.mem[m].rc == |Units(w'.owns, m)| {
      assert w.tb.mem[m].rc == |Units(w.owns, m)|;
    }
  }
}
