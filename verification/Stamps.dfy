/** What the stamps count that the optimistic readers compare: under GECOS a node's
    generation counts its deletions, under SGECOS a bucket's counter counts the
    deletions from it. */
module Stamps {
  import opened Buckets
  import opened ListWriter
  import opened Worlds

  /** Node `n` is unlinked by the step from `w` to `w'`. */
  predicate UnlinkedBy(w: World, w': World, n: Ref) {
    n < |w.tb.status| && n < |w'.tb.status| && w.tb.status[n].Linked? && w'.tb.status[n].Unlinked?
  }

  /** How often node `n` was unlinked before instant `i`. */
  ghost function Unlinks(run: seq<World>, i: nat, n: Ref): nat
    requires i < |run|
  {
    if i == 0 then 0 else Unlinks(run, i - 1, n) + if UnlinkedBy(run[i - 1], run[i], n) then 1 else 0
  }

  /** A node is between its unlink and `n->gc++`. */
  function Pending(w: World, n: Ref): nat
    requires n < |w.tb.status|
  {
    if w.tb.status[n].Unlinked? then 1 else 0
  }

  lemma GenerationStep(w: World, t: nat, c: Choice, w': World, n: Ref)
    requires Inv(w) && WriterStep(w, t, c, w') && w.scheme == Gecos && n < |w.tb.mem|
    ensures n < |w'.tb.mem| && n < |w'.tb.status|
    ensures w'.tb.mem[n].gc + Pending(w', n) ==
            w.tb.mem[n].gc + Pending(w, n) + if UnlinkedBy(w, w', n) then 1 else 0
  {
    assert ThreadOk(w, t) && Accounted(w, n);
    if w.threads[t].Inside? && w.threads[t].op.Unlinking? {
      UnlinkingLinked(w.tb, w.threads[t].b, t, w.threads[t].op);
    }
  }

  lemma UnlinkingLinked(tb: Table, b: nat, who: nat, op: Op)
    requires WellFormed(tb) && op.Unlinking? && OpOk(tb, b, who, op)
    ensures LinkedIn(tb, b, op.node)
  {
    AtDecides(tb, b, op.prev, Some(op.node), op.key);
  }

  /** GECOS: a node's generation is the number of times it was deleted. */
  lemma {:induction false} GenerationCountsDeletes(run: seq<World>, i: nat, n: Ref)
    requires Legal(run) && run[0].scheme == Gecos && i < |run| && n < |run[i].tb.mem|
    ensures n < |run[i].tb.status| && run[i].tb.mem[n].gc + Pending(run[i], n) == Unlinks(run, i, n)
  {
    RunInv(run, i);
    if i > 0 {
      RunInv(run, i - 1);
      assert StepAt(run, i - 1);
      var t: nat, c: Choice :| WriterStep(run[i - 1], t, c, run[i]);
      GenerationCountsDeletes(run, i - 1, n);
      GenerationStep(run[i - 1], t, c, run[i], n);
    }
  }

  /** A node of bucket `b` is unlinked by the step from `w` to `w'`. */
  ghost predicate DeletedFrom(w: World, w': World, b: nat) {
    exists n: Ref :: LinkedIn(w.tb, b, n) && n < |w'.tb.status| && w'.tb.status[n] == Unlinked(b)
  }

  /** How many nodes were unlinked from bucket `b` before instant `i`. */
  ghost function Deletes(run: seq<World>, i: nat, b: nat): nat
    requires i < |run|
  {
    if i == 0 then 0 else Deletes(run, i - 1, b) + if DeletedFrom(run[i - 1], run[i], b) then 1 else 0
  }

  /** The writer of bucket `b` is between its unlink and `(*lock)++`. */
  function Owing(w: World, b: nat): nat {
    if b < |w.holder| && w.holder[b].Some? && w.holder[b].value < |w.threads|
         && w.threads[w.holder[b].value].Inside? && w.threads[w.holder[b].value].op.Reclaiming?
         && w.threads[w.holder[b].value].op.stage == 0 then 1 else 0
  }

  lemma CounterStep(w: World, t: nat, c: Choice, w': World, b: nat)
    requires Inv(w) && WriterStep(w, t, c, w') && w.scheme == Sgecos && b < |w.count|
    ensures b < |w'.count|
    ensures w'.count[b] + Owing(w', b) == w.count[b] + Owing(w, b) + if DeletedFrom(w, w', b) then 1 else 0
  {
    assert ThreadOk(w, t) && HolderOk(w, b);
    if w.threads[t].Inside? && w.threads[t].op.Unlinking? {
      UnlinkingLinked(w.tb, w.threads[t].b, t, w.threads[t].op);
      if w.threads[t].b == b {
        assert w'.tb.status[w.threads[t].op.node] == Unlinked(b);
      }
    } else {
      OtherCounterStep(w, t, c, w', b);
    }
  }

  lemma OtherCounterStep(w: World, t: nat, c: Choice, w': World, b: nat)
    requires Inv(w) && WriterStep(w, t, c, w') && w.scheme == Sgecos && b < |w.count|
    requires !(w.threads[t].Inside? && w.threads[t].op.Unlinking?)
    ensures b < |w'.count| && !DeletedFrom(w, w', b)
    ensures w'.count[b] + Owing(w', b) == w.count[b] + Owing(w, b)
  {
    assert ThreadOk(w, t) && HolderOk(w, b);
  }

  lemma CounterAt(run: seq<World>, i: nat, b: nat)
    requires Legal(run) && run[0].scheme == Sgecos && i + 1 < |run| && b < |run[i].count|
    ensures b < |run[i + 1].count|
    ensures run[i + 1].count[b] + Owing(run[i + 1], b) ==
            run[i].count[b] + Owing(run[i], b) + if DeletedFrom(run[i], run[i + 1], b) then 1 else 0
  {
    RunInv(run, i);
    assert StepAt(run, i);
    var t: nat, c: Choice :| WriterStep(run[i], t, c, run[i + 1]);
    CounterStep(run[i], t, c, run[i + 1], b);
  }

  /** SGECOS: a bucket's counter is the number of deletions from it. */
  lemma {:induction false} CounterCountsDeletes(run: seq<World>, i: nat, b: nat)
    requires Legal(run) && run[0].scheme == Sgecos && i < |run| && b < |run[0].count|
    ensures b < |run[i].count| && run[i].count[b] + Owing(run[i], b) == Deletes(run, i, b)
  {
    if i > 0 {
      CounterCountsDeletes(run, i - 1, b);
      CounterAt(run, i - 1, b);
    }
  }
}
