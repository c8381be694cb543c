/** The writer side of the SEQLOCK and GCLOCK macros of lock.h: competing writers,
    one compare-and-swap per acquisition. */
module Locks {
  import opened Buckets
  import opened Worlds

  /** At most one writer is between the lock and the unlock of a bucket. */
  lemma MutualExclusion(run: seq<World>, i: nat, b: nat, t: nat, u: nat)
    requires Legal(run) && i < |run| && t < |run[i].threads| && u < |run[i].threads|
    requires InSection(run[i].threads[t], b) && InSection(run[i].threads[u], b)
    ensures t == u
  {
    RunInv(run, i);
    assert ThreadOk(run[i], t) && ThreadOk(run[i], u);
  }

  /** The assertion after the compare-and-swap loop of `lock_wlock` never fails. */
  lemma LockAssertHolds(run: seq<World>, i: nat, t: nat)
    requires Legal(run) && Locked(run[0].scheme) && i < |run| && t < |run[i].threads| && run[i].threads[t].Entered?
    ensures run[i].threads[t].b < |run[i].count| && run[i].count[run[i].threads[t].b] % 2 == 1
  {
    RunInv(run, i);
    assert ThreadOk(run[i], t) && HolderOk(run[i], run[i].threads[t].b);
  }

  /** The compare-and-swap takes the lock exactly if the word is what was loaded; then
      nobody held the bucket, and the word grows by 1.  Otherwise the thread loads the
      word again. */
  lemma SwapTakesLock(w: World, t: nat, c: Choice, w': World)
    requires Inv(w) && WriterStep(w, t, c, w') && w.threads[t].Trying?
    ensures var b, th' := w.threads[t].b, w'.threads[t];
            && b < |w.count| == |w'.count| && |w'.holder| == |w.holder| == |w.count|
            && if w.count[b] == w.threads[t].seen
               then InSection(th', b) && Holds(w', t, b) && w.holder[b] == None && w'.count[b] == w.count[b] + 1
               else th' == Spinning(b, w.threads[t].del, w.threads[t].key) && w'.count == w.count && w'.holder == w.holder
  {
    assert ThreadOk(w, t) && HolderOk(w, w.threads[t].b);
  }

  /** A delete begins with a load of the head, without the lock. */
  lemma DeleteProbes(w: World, t: nat, c: Choice, w': World)
    requires WriterStep(w, t, c, w') && Locked(w.scheme) && w.threads[t].Resting?
    ensures w'.threads[t].Probing? <==> c.del
    ensures w'.count == w.count && w'.holder == w.holder && w'.tb == w.tb
  {
  }

  /** If the bucket is empty then, it returns, whoever holds the lock; otherwise it goes
      for the lock. */
  lemma ProbeSkipsLock(w: World, t: nat, c: Choice, w': World)
    requires Inv(w) && WriterStep(w, t, c, w') && w.threads[t].Probing?
    ensures w'.threads[t] == Resting || w'.threads[t] == Spinning(w.threads[t].b, true, w.threads[t].key)
    ensures w'.threads[t] == Resting <==> forall key: int :: !Has(w.tb, w.threads[t].b, key)
    ensures w'.count == w.count && w'.holder == w.holder && w'.tb == w.tb
  {
    var b := w.threads[t].b;
    assert ThreadOk(w, t) && BucketOk(w.tb, b);
    if w.tb.heads[b].Some? {
      assert Has(w.tb, b, w.tb.mem[w.tb.heads[b].value].key);
    }
  }

  /** The stages of `free_node_later` that a scheme has. */
  predicate Staged(s: Scheme, th: Thread) {
    && (th.Inside? && th.op.Reclaiming? && th.op.stage > 0 ==> !Locked(s))
    && (th.Freeing? ==> s == GcLock)
  }

  lemma StagedStep(w: World, t: nat, c: Choice, w': World, u: nat)
    requires WriterStep(w, t, c, w') && u < |w.threads| && Staged(w.scheme, w.threads[u])
    ensures u < |w'.threads| && w'.scheme == w.scheme && Staged(w'.scheme, w'.threads[u])
  {
  }

  lemma {:induction false} RunStaged(run: seq<World>, i: nat, u: nat)
    requires Legal(run) && i < |run| && u < |run[i].threads|
    ensures Staged(run[i].scheme, run[i].threads[u])
  {
    if i > 0 {
      RunInv(run, i - 1);
      assert StepAt(run, i - 1);
      var t: nat, c: Choice :| WriterStep(run[i - 1], t, c, run[i]);
      StepInv(run[i - 1], t, c, run[i]);
      RunStaged(run, i - 1, u);
      StagedStep(run[i - 1], t, c, run[i], u);
    }
  }

  /** When a deleted node is freed: under SEQLOCK before the unlock, under GCLOCK after
      it, and without locks after the increment that follows the unlink. */
  lemma FreesInOrder(run: seq<World>, i: nat, t: nat, c: Choice, n: Ref)
    requires Legal(run) && i + 1 < |run| && WriterStep(run[i], t, c, run[i + 1])
    requires n < |run[i].tb.status| && run[i].tb.status[n] != Free
    requires n < |run[i + 1].tb.status| && run[i + 1].tb.status[n] == Free
    ensures var w, th := run[i], run[i].threads[t];
            && (th.Inside? || th.Freeing?) && th.b < |w.holder|
            && (w.scheme == GcLock <==> !Holds(w, t, th.b))
            && w.tb.status[n] == if w.scheme == SeqLock then Unlinked(th.b) else Retired(t)
  {
    RunInv(run, i);
    RunStaged(run, i, t);
    assert ThreadOk(run[i], t);
  }

  /** How many times bucket `b` has been unlocked by instant `i`. */
  ghost function Unlocks(run: seq<World>, i: nat, b: nat): nat
    requires i < |run|
  {
    if i == 0 then 0
    else
      Unlocks(run, i - 1, b) +
      if && b < |run[i - 1].holder| && b < |run[i].holder|
         && run[i - 1].holder[b].Some? && run[i].holder[b].None? then 1 else 0
  }

  /** The lock word of every reachable state: bit 0 says whether the bucket is
      held, and the rest counts the completed lock/unlock pairs. */
  lemma {:induction false} WordCountsSections(run: seq<World>, i: nat, b: nat)
    requires Legal(run) && Locked(run[0].scheme) && i < |run| && b < |run[0].tb.heads|
    ensures b < |run[i].count| == |run[i].holder|
    ensures run[i].count[b] == 2 * Unlocks(run, i, b) + if run[i].holder[b].Some? then 1 else 0
  {
    RunInv(run, i);
    if i > 0 {
      WordCountsSections(run, i - 1, b);
      RunInv(run, i - 1);
      assert StepAt(run, i - 1);
      var t: nat, c: Choice :| WriterStep(run[i - 1], t, c, run[i]);
      WordStep(run[i - 1], t, c, run[i], b);
    }
  }

  lemma WordStep(w: World, t: nat, c: Choice, w': World, b: nat)
    requires Inv(w) && WriterStep(w, t, c, w') && Locked(w.scheme) && b < |w.count|
    ensures b < |w'.count| == |w'.holder|
    ensures w'.count[b] - w.count[b] ==
            if w.holder[b].Some? && w'.holder[b].None? then 1
            else if w.holder[b].None? && w'.holder[b].Some? then 1 else 0
  {
  }

  /** One lock/unlock pair raises `word >> 1` by exactly one. */
  lemma SectionRaisesGeneration(run: seq<World>, i: nat, j: nat, b: nat)
    requires Legal(run) && Locked(run[0].scheme) && i < j && j + 1 < |run| && b < |run[0].tb.heads|
    requires |run[i].holder| > b && run[i].holder[b].None?
    requires forall m: nat :: i < m <= j ==> b < |run[m].holder| && run[m].holder[b].Some?
    requires |run[j + 1].holder| > b && run[j + 1].holder[b].None?
    ensures b < |run[i].count| && b < |run[j + 1].count|
    ensures run[j + 1].count[b] / 2 == run[i].count[b] / 2 + 1
  {
    WordCountsSections(run, i, b);
    WordCountsSections(run, j + 1, b);
    HeldUnlocks(run, i, j, b);
  }

  lemma {:induction false} HeldUnlocks(run: seq<World>, i: nat, j: nat, b: nat)
    requires i <= j < |run| && b < |run[i].holder| && run[i].holder[b].None?
    requires forall m: nat :: i < m <= j ==> b < |run[m].holder| && run[m].holder[b].Some?
    ensures Unlocks(run, j, b) == Unlocks(run, i, b)
  {
    if i < j {
      HeldUnlocks(run, i, j - 1, b);
    }
  }
}
