/** Following next links always ends, from any node, on the lists or off: also from
    nodes that are free, being recycled or unlinked.  A reader that checks nothing
    on its way depends on it. */
module Acyclic {
  import opened Buckets
  import opened ListWriter
  import opened Worlds
  import opened Chains

  lemma StepKeepsNoCycle(w: World, t: nat, c: Choice, w': World)
    requires Inv(w) && WriterStep(w, t, c, w') && NoCycle(w.tb.mem)
    ensures NoCycle(w'.tb.mem)
  {
    assert ThreadOk(w, t);
    if w.threads[t].Inside? && w.threads[t].op.Linking? {
      LinkKeeps(w.tb, w.threads[t].b, t, w.threads[t].op);
    } else if w.threads[t].Inside? && w.threads[t].op.Unlinking? {
      UnlinkKeeps(w.tb, w.threads[t].b, t, w.threads[t].op);
    } else if w.threads[t].Inside? && w.threads[t].op.Publishing? {
      PublishKeeps(w.tb, w.threads[t].b, t, w.threads[t].op);
    } else {
      OtherSteps(w, t, c, w');
      SameNoCycle(w.tb.mem, w'.tb.mem);
    }
  }

  lemma OtherSteps(w: World, t: nat, c: Choice, w': World)
    requires WriterStep(w, t, c, w')
    requires w.threads[t].Inside? ==>
               var op := w.threads[t].op; !op.Linking? && !op.Unlinking? && !op.Publishing?
    ensures SameNexts(w.tb.mem, w'.tb.mem)
  {
  }

  /** In every reachable state of every scheme, following next links ends, from any
      node of the pool. */
  lemma {:induction false} NeverCyclic(run: seq<World>, i: nat)
    requires Legal(run) && i < |run|
    ensures NoCycle(run[i].tb.mem)
  {
    if i == 0 {
      forall n: Ref | n < |run[0].tb.mem| ensures Finite(run[0].tb.mem, n) {
        assert Ends(run[0].tb.mem, None, 0);
        assert Ends(run[0].tb.mem, Some(n), 1);
      }
    } else {
      NeverCyclic(run, i - 1);
      RunInv(run, i - 1);
      assert StepAt(run, i - 1);
      var t: nat, c: Choice :| WriterStep(run[i - 1], t, c, run[i]);
      StepKeepsNoCycle(run[i - 1], t, c, run[i]);
    }
  }

  /** The nodes still ahead of a reader at pointer `p`. */
  lemma NodesAhead(run: seq<World>, i: nat, p: Option<Ref>) returns (k: nat)
    requires Legal(run) && i < |run| && (p.Some? ==> p.value < |run[0].tb.mem|)
    ensures Ends(run[i].tb.mem, p, k) && k <= |run[0].tb.mem|
  {
    NeverCyclic(run, i);
    RunInv(run, i);
    k := 0;
    if p.Some? {
      assert Finite(run[i].tb.mem, p.value);
      k :| Ends(run[i].tb.mem, p, k);
    }
    WalkIsShort(run[i].tb.mem, p, k);
  }
}
