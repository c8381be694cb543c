/** Hazard safety across non-atomic scans: a node that a slot has held ever since
    it was linked is not freed, whatever the scans and the readers interleave. */
module HazardSafety {
  import opened Buckets
  import opened HazardParameters
  import opened HazardPointers
  import opened HazardSteps

  predicate NotFreed(s: Status) {
    s.Linked? || s.Unlinked? || s.Retired?
  }

  /** A scan that has node `p` among its zombies has not read slot `s` yet, or has
      collected `p`. */
  predicate Covered(th: Thread, s: nat, p: Ref) {
    && (th.pc.Scanning? && th.pc.i > s && p in th.zombies ==> p in th.pc.plist)
    && (th.pc.Sweeping? && p in th.pc.rest ==> p in th.pc.plist)
  }

  ghost predicate Shield(w: World, s: nat, p: Ref) {
    && s < |w.slots| && p < |w.tb.mem| && p < |w.tb.status| && w.slots[s] == Some(p) && NotFreed(w.tb.status[p])
    && forall t: nat {:trigger w.threads[t]} :: t < |w.threads| ==> Covered(w.threads[t], s, p)
  }

  /** While a node is linked, it is among nobody's zombies. */
  lemma ShieldBegins(w: World, s: nat, b: nat, p: Ref)
    requires Inv(w) && LinkedIn(w.tb, b, p) && s < H && w.slots[s] == Some(p)
    ensures Shield(w, s, p)
  {
    forall t: nat | t < |w.threads| ensures Covered(w.threads[t], s, p) {
      assert ThreadOk(w, t);
      if p in Pending(w.threads[t]) {
        assert false;
      }
    }
  }

  /** A step keeps the key of a node that is or was linked; only a sweep frees,
      and it frees no node that its scan collected. */
  lemma StepStatus(w: World, t: nat, c: Choice, w': World, p: Ref)
    requires Inv(w) && Taken(w, t, c, w') && p < |w.tb.mem| && NotFreed(w.tb.status[p])
    ensures |w'.tb.mem| == |w.tb.mem| && |w'.tb.status| == |w.tb.status| && w'.tb.mem[p].key == w.tb.mem[p].key
    ensures NotFreed(w'.tb.status[p]) ||
            (w.threads[t].pc.Sweeping? && p in w.threads[t].pc.rest && p !in w.threads[t].pc.plist)
  {
    assert ThreadOk(w, t);
  }

  lemma CoveredStep(w: World, t: nat, c: Choice, w': World, s: nat, p: Ref)
    requires Inv(w) && Taken(w, t, c, w') && Shield(w, s, p) && s < |w'.slots| && w'.slots[s] == Some(p) && s < H
    ensures |w'.threads| == |w.threads| && Covered(w'.threads[t], s, p)
  {
    assert Covered(w.threads[t], s, p);
    if w.threads[t].pc.Scanning? || w.threads[t].pc.Sweeping? {
      CoveredScan(w, t, c, w', s, p);
    } else {
      NoScanYet(w, t, c, w');
    }
  }

  lemma CoveredScan(w: World, t: nat, c: Choice, w': World, s: nat, p: Ref)
    requires Taken(w, t, c, w') && s < H && w.slots[s] == Some(p) && Covered(w.threads[t], s, p)
    requires w.threads[t].pc.Scanning? || w.threads[t].pc.Sweeping?
    ensures |w'.threads| == |w.threads| && Covered(w'.threads[t], s, p)
  {
  }

  lemma NoScanYet(w: World, t: nat, c: Choice, w': World)
    requires Taken(w, t, c, w') && !w.threads[t].pc.Scanning? && !w.threads[t].pc.Sweeping?
    ensures |w'.threads| == |w.threads|
    ensures var pc := w'.threads[t].pc; !pc.Sweeping? && (pc.Scanning? ==> pc.i == 0)
  {
  }

  lemma ShieldStep(w: World, t: nat, c: Choice, w': World, s: nat, p: Ref)
    requires Inv(w) && Taken(w, t, c, w') && Shield(w, s, p) && s < |w'.slots| && w'.slots[s] == Some(p) && s < H
    ensures Shield(w', s, p) && w'.tb.mem[p].key == w.tb.mem[p].key
  {
    assert Covered(w.threads[t], s, p);
    StepStatus(w, t, c, w', p);
    CoveredStep(w, t, c, w', s, p);
    OthersSame(w, t, c, w');
  }

  lemma OthersSame(w: World, t: nat, c: Choice, w': World)
    requires Taken(w, t, c, w')
    ensures |w'.threads| == |w.threads| && |w'.slots| == |w.slots|
    ensures forall u: nat :: u < |w.threads| && u != t ==> w'.threads[u] == w.threads[u]
    ensures forall i: nat :: i < H && i / K != t ==> w'.slots[i] == w.slots[i]
  {
  }

  /** No scan by any writer frees a node that a slot has held continuously since
      an instant at which the node was linked. */
  lemma {:induction false} ScanSparesProtected(run: seq<World>, i: nat, j: nat, s: nat, b: nat, p: Ref)
    requires Legal(run) && i <= j < |run| && s < H && LinkedIn(run[i].tb, b, p)
    requires forall k: nat :: i <= k <= j ==> s < |run[k].slots| && run[k].slots[s] == Some(p)
    ensures Shield(run[j], s, p) && p < |run[j].tb.mem| && run[j].tb.mem[p].key == run[i].tb.mem[p].key
    ensures run[j].tb.status[p] != Free
    decreases j
  {
    RunInv(run, i);
    if i == j {
      ShieldBegins(run[i], s, b, p);
    } else {
      ScanSparesProtected(run, i, j - 1, s, b, p);
      RunInv(run, j - 1);
      assert StepAt(run, j - 1);
      var t: nat, c: Choice :| Taken(run[j - 1], t, c, run[j]);
      ShieldStep(run[j - 1], t, c, run[j], s, p);
    }
  }

  // ----- the search of list_hp.c

  /** The premise and its effect together: from a successful re-check at the head or
      at a linked predecessor on, the node is not freed and keeps its key for as
      long as the slot names it. */
  lemma RecheckProtects(run: seq<World>, i: nat, j: nat, t: nat, cur: Ref)
    requires Legal(run) && i <= j < |run| && t < |run[i].threads| && run[i].threads[t].pc == Rechecking(cur)
    requires var w, th := run[i], run[i].threads[t];
             && LocOk(w.tb, th.b, th.prev) && Load(w.tb, th.b, th.prev) == Some(cur)
             && (th.prev.Head? || LinkedIn(w.tb, th.b, th.prev.node))
    requires forall k: nat :: i <= k <= j ==> Slot(t, run[i].threads[t].off) < |run[k].slots|
                                               && run[k].slots[Slot(t, run[i].threads[t].off)] == Some(cur)
    ensures cur < |run[i].tb.mem| && cur < |run[j].tb.mem| && cur < |run[j].tb.status|
    ensures NotFreed(run[j].tb.status[cur]) && run[j].tb.mem[cur].key == run[i].tb.mem[cur].key
  {
    RunInv(run, i);
    RecheckLinked(run[i], t, cur);
    ScanSparesProtected(run, i, j, Slot(t, run[i].threads[t].off), run[i].threads[t].b, cur);
  }

  predicate Traversing(pc: Pc) {
    pc.Posting? || pc.Rechecking? || pc.Hopping? || pc.Comparing?
  }

  /** The current node is protected once its link was rechecked at the head or at
      a linked predecessor, and the previous node stays protected by the other
      slot until the next hop is rechecked. */
  ghost predicate Guarded(w: World, t: nat) {
    t < |w.threads| && CurGuarded(w, t, w.threads[t]) && PrevGuarded(w, t, w.threads[t])
  }

  ghost predicate CurGuarded(w: World, t: nat, th: Thread) {
    th.pc.Hopping? || th.pc.Comparing? ==> th.off < 2 && (th.known ==> Shield(w, Slot(t, th.off), th.pc.cur))
  }

  ghost predicate PrevGuarded(w: World, t: nat, th: Thread) {
    Traversing(th.pc) && th.prev.NextOf? ==> th.off < 2 && (th.prevKnown ==> Shield(w, Slot(t, 1 - th.off), th.prev.node))
  }

  ghost predicate AllGuarded(w: World) {
    forall t: nat {:trigger w.threads[t]} {:trigger Guarded(w, t)} :: t < |w.threads| ==> Guarded(w, t)
  }

  /** A step of another thread leaves a reader's slots and shields alone. */
  lemma GuardedOther(w: World, t: nat, c: Choice, w': World, u: nat)
    requires Inv(w) && Taken(w, t, c, w') && u < |w.threads| && u != t && Guarded(w, u)
    ensures u < |w'.threads| && Guarded(w', u)
  {
    OthersSame(w, t, c, w');
    var th := w.threads[u];
    assert ThreadOk(w, u);
    if (th.pc.Hopping? || th.pc.Comparing?) && th.known {
      ShieldStep(w, t, c, w', Slot(u, th.off), th.pc.cur);
    }
    if Traversing(th.pc) && th.prev.NextOf? && th.prevKnown {
      ShieldStep(w, t, c, w', Slot(u, 1 - th.off), th.prev.node);
    }
  }

  /** The recheck at the head or at a linked predecessor finds `cur` linked. */
  lemma RecheckLinked(w: World, t: nat, cur: Ref)
    requires Inv(w) && t < |w.threads| && w.threads[t].pc == Rechecking(cur)
    requires LocOk(w.tb, w.threads[t].b, w.threads[t].prev) && Load(w.tb, w.threads[t].b, w.threads[t].prev) == Some(cur)
    requires w.threads[t].prev.Head? || LinkedIn(w.tb, w.threads[t].b, w.threads[t].prev.node)
    ensures w.threads[t].off < 2 && LinkedIn(w.tb, w.threads[t].b, cur) && Shield(w, Slot(t, w.threads[t].off), cur)
  {
    var th := w.threads[t];
    assert ThreadOk(w, t) && BucketOk(w.tb, th.b);
    var low := if th.prev.Head? then None else Some(w.tb.mem[th.prev.node].key);
    assert First(w.tb, th.b, low, Some(cur));
    ShieldBegins(w, Slot(t, th.off), th.b, cur);
  }

  lemma CurGuardedSelf(w: World, t: nat, c: Choice, w': World)
    requires Inv(w) && Taken(w, t, c, w') && Guarded(w, t)
    ensures t < |w'.threads| && CurGuarded(w', t, w'.threads[t])
  {
    OthersSame(w, t, c, w');
    var th := w.threads[t];
    assert ThreadOk(w, t);
    if th.pc.Hopping? && th.known {
      ShieldStep(w, t, c, w', Slot(t, th.off), th.pc.cur);
    } else if th.pc.Rechecking? && w'.threads[t].known && w'.threads[t].pc.Hopping? {
      RecheckLinked(w, t, th.pc.cur);
      ShieldStep(w, t, c, w', Slot(t, th.off), th.pc.cur);
    }
  }

  /** A hop: the current node becomes the previous one, and its slot stays. */
  lemma PrevAdvances(w: World, t: nat, c: Choice, w': World)
    requires Inv(w) && Taken(w, t, c, w') && Guarded(w, t) && w.threads[t].pc.Comparing?
    ensures t < |w'.threads| && PrevGuarded(w', t, w'.threads[t])
  {
    var th := w.threads[t];
    assert ThreadOk(w, t);
    if th.known {
      ShieldStep(w, t, c, w', Slot(t, th.off), th.pc.cur);
    }
  }

  lemma PrevStays(w: World, t: nat, c: Choice, w': World)
    requires Inv(w) && Taken(w, t, c, w') && Guarded(w, t) && !w.threads[t].pc.Comparing?
    ensures t < |w'.threads| && PrevGuarded(w', t, w'.threads[t])
  {
    OthersSame(w, t, c, w');
    var th := w.threads[t];
    PrevSame(w, t, c, w');
    if Traversing(th.pc) && th.prev.NextOf? && th.prevKnown {
      OtherSlotKept(w, t, c, w');
      ShieldStep(w, t, c, w', Slot(t, 1 - th.off), th.prev.node);
    }
  }

  lemma PrevSame(w: World, t: nat, c: Choice, w': World)
    requires Taken(w, t, c, w') && !w.threads[t].pc.Comparing?
    ensures t < |w'.threads|
    ensures var th, th' := w.threads[t], w'.threads[t];
            Traversing(th'.pc) && th'.prev.NextOf? ==>
              Traversing(th.pc) && th'.prev == th.prev && th'.prevKnown == th.prevKnown && th'.off == th.off
  {
    if IsWriter(w.threads[t].pc) {
      WriterStaysOut(w, t, c, w');
    }
  }

  lemma WriterStaysOut(w: World, t: nat, c: Choice, w': World)
    requires Taken(w, t, c, w') && IsWriter(w.threads[t].pc)
    ensures t < |w'.threads| && !Traversing(w'.threads[t].pc)
  {
  }

  lemma OtherSlotKept(w: World, t: nat, c: Choice, w': World)
    requires Inv(w) && Taken(w, t, c, w') && Traversing(w.threads[t].pc)
    ensures w.threads[t].off < 2 && |w'.slots| == H
    ensures w'.slots[Slot(t, 1 - w.threads[t].off)] == w.slots[Slot(t, 1 - w.threads[t].off)]
  {
  }

  lemma GuardedStep(w: World, t: nat, c: Choice, w': World)
    requires Inv(w) && Taken(w, t, c, w') && AllGuarded(w)
    ensures AllGuarded(w')
  {
    OthersSame(w, t, c, w');
    forall u: nat | u < |w'.threads| ensures Guarded(w', u) {
      if u == t {
        CurGuardedSelf(w, t, c, w');
        if w.threads[t].pc.Comparing? {
          PrevAdvances(w, t, c, w');
        } else {
          PrevStays(w, t, c, w');
        }
      } else {
        GuardedOther(w, t, c, w', u);
      }
    }
  }

  lemma {:induction false} RunGuarded(run: seq<World>, j: nat)
    requires Legal(run) && j < |run|
    ensures AllGuarded(run[j])
  {
    if j == 0 {
      forall t: nat | t < |run[0].threads| ensures Guarded(run[0], t) {}
    } else {
      RunGuarded(run, j - 1);
      RunInv(run, j - 1);
      assert StepAt(run, j - 1);
      var t: nat, c: Choice :| Taken(run[j - 1], t, c, run[j]);
      GuardedStep(run[j - 1], t, c, run[j]);
    }
  }
}
