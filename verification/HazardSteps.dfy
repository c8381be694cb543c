/** Every step of the hazard-pointer machine keeps its invariant: the lists stay
    well formed, no retired node is lost, and the garbage stays bounded. */
module HazardSteps {
  import opened Buckets
  import opened ListWriter
  import opened HazardParameters
  import opened HazardPointers
  import opened Sequences

  lemma InitialInv(w: World)
    requires Initial(w)
    ensures Inv(w)
  {
  }

  /** A reader's step: it stores at most to its own slot. */
  lemma ReaderFrame(w: World, t: nat, w': World)
    requires Inv(w) && t < |w.threads| == |w'.threads| && !IsWriter(w.threads[t].pc)
    requires w'.tb == w.tb && w'.writer == w.writer && |w'.slots| == H
    requires forall u: nat :: u < |w.threads| && u != t ==> w'.threads[u] == w.threads[u]
    requires forall i: nat :: i < H && i != Slot(t, 0) && i != Slot(t, 1) ==> w'.slots[i] == w.slots[i]
    requires ThreadOk(w', t) && Pending(w'.threads[t]) == Pending(w.threads[t])
    ensures Inv(w')
  {
    forall u: nat | u < |w'.threads| ensures ThreadOk(w', u) {
      assert ThreadOk(w, u);
      if u != t {
        ReaderOther(w, t, w', u);
      }
    }
    forall n: Ref | n < |w'.tb.mem| ensures NodeOk(w', n) {
      assert NodeOk(w, n);
    }
    forall i: nat | i < |w'.slots| ensures SlotOk(w', i) {
      assert SlotOk(w, i);
      ReaderSlot(w, t, w', i);
    }
  }

  lemma ReaderOther(w: World, t: nat, w': World, u: nat)
    requires Shape(w) && Shape(w') && t < |w.threads| == |w'.threads| && u < |w.threads| && u != t && ThreadOk(w, u)
    requires w'.tb == w.tb && w'.writer == w.writer && w'.threads[u] == w.threads[u]
    requires forall i: nat :: i < H && i != Slot(t, 0) && i != Slot(t, 1) ==> w'.slots[i] == w.slots[i]
    ensures ThreadOk(w', u)
  {
  }

  lemma ReaderSlot(w: World, t: nat, w': World, i: nat)
    requires |w.slots| == |w'.slots| == H && i < H && t < |w.threads| == |w'.threads| && SlotOk(w, i)
    requires i != Slot(t, 0) && i != Slot(t, 1) ==> w'.slots[i] == w.slots[i]
    ensures SlotOk(w', i)
  {
    if i == Slot(t, 0) {
      assert i % K == 0 && i / K == t;
    } else if i == Slot(t, 1) {
      assert i % K == 1 && i / K == t;
    }
  }

  /** A writer's step: it touches only its bucket, its own nodes and free nodes. */
  lemma WriterFrame(w: World, t: nat, b: nat, w': World)
    requires Inv(w) && t < |w.threads| == |w'.threads| && b < |w.writer| == |w'.writer| && w'.slots == w.slots
    requires if IsWriter(w.threads[t].pc) then w.threads[t].b == b else w.writer[b] == None
    requires Confined(w.tb, w'.tb, b, t) && WellFormed(w'.tb)
    requires forall u: nat :: u < |w.threads| && u != t ==> w'.threads[u] == w.threads[u]
    requires forall b': nat :: b' < |w.writer| && b' != b ==> w'.writer[b'] == w.writer[b']
    requires ThreadOk(w', t)
    requires forall n: Ref :: n < |w.tb.mem| && w'.tb.status[n] == Retired(t) ==> n in Pending(w'.threads[t])
    requires forall n: Ref :: n < |w.tb.mem| && w'.tb.status[n] == Unlinked(b) ==>
               w'.writer[b] == Some(t) && w'.threads[t].pc == Writing(Reclaiming(n, 0))
    ensures Inv(w')
  {
    forall u: nat | u < |w'.threads| ensures ThreadOk(w', u) {
      if u != t {
        WriterOther(w, t, b, w', u);
      }
    }
    forall n: Ref | n < |w'.tb.mem| ensures NodeOk(w', n) {
      assert NodeOk(w, n) && ThreadOk(w, t);
    }
    forall i: nat | i < |w'.slots| ensures SlotOk(w', i) {
      assert SlotOk(w, i);
    }
  }

  lemma WriterOther(w: World, t: nat, b: nat, w': World, u: nat)
    requires Inv(w) && t < |w.threads| == |w'.threads| && b < |w.writer| == |w'.writer| && w'.slots == w.slots
    requires if IsWriter(w.threads[t].pc) then w.threads[t].b == b else w.writer[b] == None
    requires Confined(w.tb, w'.tb, b, t) && Shape(w')
    requires forall b': nat :: b' < |w.writer| && b' != b ==> w'.writer[b'] == w.writer[b']
    requires u < |w.threads| && u != t && w'.threads[u] == w.threads[u]
    ensures ThreadOk(w', u)
  {
    var th := w.threads[u];
    assert ThreadOk(w, u) && ThreadOk(w, t);
    if th.pc.Writing? {
      assert BucketOk(w.tb, th.b);
      ConfinedOps(w.tb, w'.tb, b, t, th.b, u, th.pc.op);
    }
  }

  // ----- readers

  /** A step that changes only a reader's own variables. */
  lemma LocalInv(w: World, t: nat, th: Thread)
    requires Inv(w) && t < |w.threads| && !IsWriter(w.threads[t].pc) && !w.threads[t].pc.Resting? && !IsWriter(th.pc)
    requires var was := w.threads[t];
             && th.b == was.b && th.off < 2 && th.zombies == was.zombies && th.retired == was.retired
             && th.freed == was.freed && th.scans == was.scans
    requires PcOk(SetThread(w, t, th), t, th)
    ensures Inv(SetThread(w, t, th))
  {
  }

  lemma ReaderInv(w: World, t: nat, c: Choice, w': World)
    requires Inv(w) && Taken(w, t, c, w') && !IsWriter(w.threads[t].pc) && !w.threads[t].pc.Resting?
    ensures Inv(w')
  {
    if w.threads[t].pc.Posting? {
      PostInv(w, t, c, w');
    } else {
      ReaderPc(w, t, c, w');
      LocalInv(w, t, w'.threads[t]);
    }
  }

  lemma ReaderPc(w: World, t: nat, c: Choice, w': World)
    requires Inv(w) && Taken(w, t, c, w') && !IsWriter(w.threads[t].pc)
    requires !w.threads[t].pc.Resting? && !w.threads[t].pc.Posting?
    ensures |w'.threads| == |w.threads|
    ensures var was, th := w.threads[t], w'.threads[t];
            && w' == SetThread(w, t, th) && !IsWriter(th.pc)
            && th.b == was.b && th.off < 2 && th.zombies == was.zombies && th.retired == was.retired
            && th.freed == was.freed && th.scans == was.scans && PcOk(w', t, th)
  {
    assert ThreadOk(w, t) && BucketOk(w.tb, w.threads[t].b);
  }

  lemma PostInv(w: World, t: nat, c: Choice, w': World)
    requires Inv(w) && Taken(w, t, c, w') && w.threads[t].pc.Posting?
    ensures Inv(w')
  {
    assert ThreadOk(w, t);
    ReaderFrame(w, t, w') by {
      forall i: nat | i < |w'.slots| ensures SlotOk(w', i) {
        assert SlotOk(w, i);
      }
    }
  }

  // ----- writers

  /** A bucket has an unlinked node only while its writer is about to retire it. */
  lemma NoneUnlinked(w: World, t: nat, b: nat)
    requires Inv(w) && t < |w.threads| && b < |w.writer| && (w.writer[b] == Some(t) || w.writer[b] == None)
    requires !(w.threads[t].pc.Writing? && w.threads[t].pc.op.Reclaiming?)
    ensures forall n: Ref :: n < |w.tb.mem| ==> w.tb.status[n] != Unlinked(b)
  {
    forall n: Ref | n < |w.tb.mem| ensures w.tb.status[n] != Unlinked(b) {
      assert NodeOk(w, n);
    }
  }

  /** A call begins. */
  lemma StartInv(w: World, t: nat, c: Choice, w': World)
    requires Inv(w) && Taken(w, t, c, w') && w.threads[t].pc.Resting?
    ensures Inv(w')
  {
    assert ThreadOk(w, t);
    if c.search {
      ReaderFrame(w, t, w');
    } else {
      assert BucketOk(w.tb, c.b);
      NoneUnlinked(w, t, c.b);
      PendingStays(w, t, w');
      WriterFrame(w, t, c.b, w');
    }
  }

  lemma PendingStays(w: World, t: nat, w': World)
    requires Inv(w) && t < |w.threads| && t < |w'.threads| && Pending(w'.threads[t]) == Pending(w.threads[t])
    requires |w'.tb.status| == |w.tb.status|
    requires forall n: Ref :: n < |w.tb.mem| && w'.tb.status[n] == Retired(t) ==> w.tb.status[n] == Retired(t)
    ensures forall n: Ref :: n < |w.tb.mem| && w'.tb.status[n] == Retired(t) ==> n in Pending(w'.threads[t])
  {
  }

  /** A write step that retires and frees nothing. */
  lemma WriteFrame(w: World, t: nat, w': World, op: Op)
    requires Inv(w) && t < |w.threads| && w.threads[t].pc.Writing? && w.threads[t].b < |w.writer|
    requires w' == SetThread(w, t, w.threads[t].(pc := Writing(op))).(tb := w'.tb) && !w.threads[t].pc.op.Reclaiming?
    requires Confined(w.tb, w'.tb, w.threads[t].b, t) && WellFormed(w'.tb)
    requires forall n: Ref :: n < |w.tb.mem| && w'.tb.status[n] == Unlinked(w.threads[t].b) ==>
               op == Reclaiming(n, 0) || w.tb.status[n] == Unlinked(w.threads[t].b)
    requires OpOk(w'.tb, w.threads[t].b, t, op) && (op.Reclaiming? ==> op.stage == 0)
    requires forall n: Ref :: n < |w.tb.mem| ==> (w'.tb.status[n] == Retired(t) <==> w.tb.status[n] == Retired(t))
    ensures Inv(w')
  {
    assert ThreadOk(w, t);
    PendingStays(w, t, w');
    NoneUnlinked(w, t, w.threads[t].b);
    WriterFrame(w, t, w.threads[t].b, w');
  }

  lemma WriteInv(w: World, t: nat, c: Choice, w': World)
    requires Inv(w) && Taken(w, t, c, w') && w.threads[t].pc.Writing?
    ensures Inv(w')
  {
    assert ThreadOk(w, t);
    match w.threads[t].pc.op {
      case Idle(_) => ReleaseInv(w, t, c, w');
      case Reclaiming(n, _) => PushInv(w, t, n, w');
      case Walking(_, _, _, _) => ListInv(w, t, c, w');
      case Unlinking(_, _, _) => ListInv(w, t, c, w');
      case _ => InsertInv(w, t, c, w');
    }
  }

  lemma ListInv(w: World, t: nat, c: Choice, w': World)
    requires Inv(w) && Taken(w, t, c, w') && w.threads[t].pc.Writing?
    requires (w.threads[t].pc.op.Walking? || w.threads[t].pc.op.Unlinking?)
    ensures Inv(w')
  {
    assert ThreadOk(w, t);
    var b, op := w.threads[t].b, w.threads[t].pc.op;
    if op.Walking? {
      WalkStep(w.tb, b, t, op);
      ConfinedSelf(w.tb, b, t);
      WriteFrame(w, t, w', WalkNext(w.tb, op));
    } else {
      UnlinkStep(w.tb, b, t, op);
      UnlinkStatus(w.tb, b, op, t);
      WriteFrame(w, t, w', Reclaiming(op.node, 0));
    }
  }

  lemma InsertInv(w: World, t: nat, c: Choice, w': World)
    requires Inv(w) && Taken(w, t, c, w') && w.threads[t].pc.Writing?
    requires var op := w.threads[t].pc.op; op.Allocating? || op.Keying? || op.Linking? || op.Publishing?
    ensures Inv(w')
  {
    if w.threads[t].pc.op.Allocating? {
      TakeInv(w, t, c, w');
    } else if w.threads[t].pc.op.Publishing? {
      PublishInv(w, t, c, w');
    } else {
      PrepareInv(w, t, c, w');
    }
  }

  /** `new = new_node()` */
  lemma TakeInv(w: World, t: nat, c: Choice, w': World)
    requires Inv(w) && Taken(w, t, c, w') && w.threads[t].pc.Writing? && w.threads[t].pc.op.Allocating?
    ensures Inv(w')
  {
    assert ThreadOk(w, t);
    var b, op := w.threads[t].b, w.threads[t].pc.op;
    AllocStep(w.tb, b, t, op, c.node);
    WriteFrame(w, t, w', Keying(c.node, op.key, op.prev, op.cur));
  }

  /** `*prev = new` */
  lemma PublishInv(w: World, t: nat, c: Choice, w': World)
    requires Inv(w) && Taken(w, t, c, w') && w.threads[t].pc.Writing? && w.threads[t].pc.op.Publishing?
    ensures Inv(w')
  {
    assert ThreadOk(w, t);
    PublishStep(w.tb, w.threads[t].b, t, w.threads[t].pc.op);
    WriteFrame(w, t, w', Idle(true));
  }

  /** `new->key = key` and `new->next = cur` */
  lemma PrepareInv(w: World, t: nat, c: Choice, w': World)
    requires Inv(w) && Taken(w, t, c, w') && w.threads[t].pc.Writing?
    requires w.threads[t].pc.op.Keying? || w.threads[t].pc.op.Linking?
    ensures Inv(w')
  {
    assert ThreadOk(w, t);
    var b, op := w.threads[t].b, w.threads[t].pc.op;
    if op.Keying? {
      KeyStep(w.tb, b, t, op);
      WriteFrame(w, t, w', Linking(op.node, op.key, op.prev, op.cur));
    } else {
      LinkStep(w.tb, b, t, op);
      WriteFrame(w, t, w', Publishing(op.node, op.key, op.prev, op.cur));
    }
  }

  lemma UnlinkStatus(tb: Table, b: nat, op: Op, t: nat)
    requires WellFormed(tb) && op.Unlinking? && OpOk(tb, b, t, op)
    ensures tb.status[op.node] == Linked(b)
  {
  }

  lemma ReleaseInv(w: World, t: nat, c: Choice, w': World)
    requires Inv(w) && Taken(w, t, c, w') && w.threads[t].pc.Writing? && w.threads[t].pc.op.Idle?
    ensures Inv(w')
  {
    assert ThreadOk(w, t);
    ConfinedSelf(w.tb, w.threads[t].b, t);
    PendingStays(w, t, w');
    NoneUnlinked(w, t, w.threads[t].b);
    WriterFrame(w, t, w.threads[t].b, w');
  }

  // ----- free_node_later

  lemma PushInv(w: World, t: nat, n: Ref, w': World)
    requires Inv(w) && t < |w.threads| && w.threads[t].pc == Writing(Reclaiming(n, 0))
    requires n < |w.tb.status| && w' == PushNext(w, t, n)
    ensures Inv(w')
  {
    var b := w.threads[t].b;
    assert ThreadOk(w, t);
    StatusStep(w.tb, b, t, n, Retired(t));
    PushThread(w, t, n, w');
    forall m: Ref | m < |w.tb.mem| && w'.tb.status[m] == Retired(t) ensures m in Pending(w'.threads[t]) {
      assert NodeOk(w, m);
    }
    forall m: Ref | m < |w.tb.mem| ensures w'.tb.status[m] != Unlinked(b) {
      assert NodeOk(w, m);
    }
    WriterFrame(w, t, b, w');
  }

  lemma PushThread(w: World, t: nat, n: Ref, w': World)
    requires Inv(w) && t < |w.threads| && w.threads[t].pc == Writing(Reclaiming(n, 0))
    requires n < |w.tb.status| && w' == PushNext(w, t, n)
    ensures ThreadOk(w', t) && Pending(w'.threads[t]) == [n] + Pending(w.threads[t])
  {
    var th := w.threads[t];
    assert ThreadOk(w, t);
    assert w.tb.status[n] == Unlinked(th.b);
    assert Pending(th) == th.zombies && Pending(w'.threads[t]) == [n] + th.zombies;
    DistinctPush(n, th.zombies);
  }

  lemma DistinctPush(n: Ref, s: seq<Ref>)
    requires Distinct(s) && n !in s
    ensures Distinct([n] + s)
  {
  }

  // ----- scan

  lemma ScanInv(w: World, t: nat, c: Choice, w': World)
    requires Inv(w) && Taken(w, t, c, w') && w.threads[t].pc.Scanning?
    ensures Inv(w')
  {
    var b := w.threads[t].b;
    assert ThreadOk(w, t);
    ConfinedSelf(w.tb, b, t);
    ScanThread(w, t, w');
    PendingStays(w, t, w');
    NoneUnlinked(w, t, b);
    WriterFrame(w, t, b, w');
  }

  lemma ScanThread(w: World, t: nat, w': World)
    requires Inv(w) && t < |w.threads| && w.threads[t].pc.Scanning?
    requires w' == ScanNext(w, t, w.threads[t].pc.i, w.threads[t].pc.plist)
    ensures ThreadOk(w', t) && Pending(w'.threads[t]) == Pending(w.threads[t])
  {
    if w.threads[t].pc.i < H {
      CollectThread(w, t, w');
    } else {
      CollectedThread(w, t, w');
    }
  }

  lemma CollectThread(w: World, t: nat, w': World)
    requires Inv(w) && t < |w.threads| && w.threads[t].pc.Scanning? && w.threads[t].pc.i < H
    requires w' == ScanNext(w, t, w.threads[t].pc.i, w.threads[t].pc.plist)
    ensures ThreadOk(w', t) && Pending(w'.threads[t]) == Pending(w.threads[t])
  {
  }

  lemma CollectedThread(w: World, t: nat, w': World)
    requires Inv(w) && t < |w.threads| && w.threads[t].pc.Scanning? && w.threads[t].pc.i >= H
    requires w' == ScanNext(w, t, w.threads[t].pc.i, w.threads[t].pc.plist)
    ensures ThreadOk(w', t) && Pending(w'.threads[t]) == Pending(w.threads[t])
  {
    assert ThreadOk(w, t);
    UsableGrows(w.threads[t].pc.i, |w.threads|, false);
    assert Pending(w'.threads[t]) == w.threads[t].zombies == Pending(w.threads[t]);
  }

  /** A slot that holds a node is one of the two that its thread uses, so the
      nodes collected never outgrow `plist`. */
  lemma UsableGrows(i: nat, n: nat, some: bool)
    requires some ==> i % K < 2 && i / K < n
    ensures Usable(i, n) + (if some then 1 else 0) <= Usable(i + 1, n)
    ensures i >= H && n <= MAX_THREAD ==> Usable(i, n) == 2 * n
    ensures Usable(i, n) <= K * n
  {
    var q, r := i / K, i % K;
    assert i == 3 * q + r && 0 <= r < 3;
    if r == 2 {
      assert (i + 1) / K == q + 1 && (i + 1) % K == 0;
    } else {
      assert (i + 1) / K == q && (i + 1) % K == r + 1;
    }
  }

  lemma SweepInv(w: World, t: nat, c: Choice, w': World)
    requires Inv(w) && Taken(w, t, c, w') && w.threads[t].pc.Sweeping?
    ensures Inv(w')
  {
    var b, rest := w.threads[t].b, w.threads[t].pc.rest;
    assert ThreadOk(w, t);
    if rest == [] {
      ConfinedSelf(w.tb, b, t);
      ScanDone(w, t, w');
      PendingStays(w, t, w');
    } else if rest[0] in w.threads[t].pc.plist {
      ConfinedSelf(w.tb, b, t);
      SweepKeeps(w, t, w');
    } else {
      SweepFrees(w, t, w');
    }
    NoneUnlinked(w, t, b);
    WriterFrame(w, t, b, w');
  }

  /** The zombies a scan keeps are distinct and collected: at most two for each
      thread.  So it freed at least its quota. */
  lemma ScanDone(w: World, t: nat, w': World)
    requires Inv(w) && t < |w.threads| && w.threads[t].pc.Sweeping? && w.threads[t].pc.rest == []
    requires w' == SweepNext(w, t, [], w.threads[t].pc.plist)
    ensures ThreadOk(w', t) && Pending(w'.threads[t]) == Pending(w.threads[t])
  {
    var th, n := w.threads[t], |w.threads|;
    assert ThreadOk(w, t);
    assert Pending(th) == th.zombies;
    DistinctWithin(th.zombies, th.pc.plist);
    QuotaAdds(th.scans, n);
  }

  lemma QuotaAdds(scans: nat, n: nat)
    ensures (scans + 1) * Quota(n) == scans * Quota(n) + Quota(n)
    ensures R(n) + 1 == Quota(n) + K * n
  {
  }

  lemma SweepKeeps(w: World, t: nat, w': World)
    requires Inv(w) && t < |w.threads| && w.threads[t].pc.Sweeping? && w.threads[t].pc.rest != []
    requires w.threads[t].pc.rest[0] in w.threads[t].pc.plist && w.threads[t].pc.rest[0] < |w.tb.status|
    requires w' == SweepNext(w, t, w.threads[t].pc.rest, w.threads[t].pc.plist)
    ensures ThreadOk(w', t)
    ensures forall n: Ref :: n < |w.tb.mem| && w'.tb.status[n] == Retired(t) ==> n in Pending(w'.threads[t])
  {
    var th, rest := w.threads[t], w.threads[t].pc.rest;
    assert ThreadOk(w, t);
    var was, now := Pending(th), Pending(w'.threads[t]);
    assert was == th.zombies + [rest[0]] + rest[1..] && now == [rest[0]] + th.zombies + rest[1..];
    Rotate(th.zombies, rest[0], rest[1..]);
    forall n: Ref | n < |w.tb.mem| && w'.tb.status[n] == Retired(t) ensures n in now {
      assert NodeOk(w, n);
    }
  }

  /** Moving an element to the front loses and repeats nothing. */
  lemma Rotate(a: seq<Ref>, x: Ref, b: seq<Ref>)
    requires Distinct(a + [x] + b)
    ensures Distinct([x] + a + b)
    ensures forall n :: n in [x] + a + b <==> n in a + [x] + b
  {
    var s, r := a + [x] + b, [x] + a + b;
    forall i, j | 0 <= i < j < |r| ensures r[i] != r[j] {
      var i' := if i == 0 then |a| else if i <= |a| then i - 1 else i;
      var j' := if j <= |a| then j - 1 else j;
      assert r[i] == s[i'] && r[j] == s[j'] && i' != j';
    }
  }

  lemma DistinctWithout(a: seq<Ref>, x: Ref, b: seq<Ref>)
    requires Distinct(a + [x] + b)
    ensures Distinct(a + b) && x !in a + b
    ensures forall n :: n in a + [x] + b <==> n in a + b || n == x
  {
    var s, r := a + [x] + b, a + b;
    assert s[|a|] == x;
    forall i | 0 <= i < |r| ensures r[i] == s[if i < |a| then i else i + 1] {}
    forall n ensures n in s <==> n in r || n == x {}
  }

  lemma SweepFrees(w: World, t: nat, w': World)
    requires Inv(w) && t < |w.threads| && w.threads[t].pc.Sweeping? && w.threads[t].pc.rest != []
    requires w.threads[t].pc.rest[0] !in w.threads[t].pc.plist && w.threads[t].pc.rest[0] < |w.tb.status|
    requires w' == SweepNext(w, t, w.threads[t].pc.rest, w.threads[t].pc.plist)
    ensures ThreadOk(w', t) && WellFormed(w'.tb) && Confined(w.tb, w'.tb, w.threads[t].b, t)
    ensures forall n: Ref :: n < |w.tb.mem| && w'.tb.status[n] == Retired(t) ==> n in Pending(w'.threads[t])
  {
    var th, rest := w.threads[t], w.threads[t].pc.rest;
    assert ThreadOk(w, t);
    assert Pending(th) == th.zombies + [rest[0]] + rest[1..];
    assert Pending(w'.threads[t]) == th.zombies + rest[1..];
    DistinctWithout(th.zombies, rest[0], rest[1..]);
    StatusStep(w.tb, th.b, t, rest[0], Free);
    forall n: Ref | n < |w.tb.mem| && w'.tb.status[n] == Retired(t) ensures n in Pending(w'.threads[t]) {
      assert NodeOk(w, n);
    }
  }

  // ----- every run

  lemma StepInv(w: World, t: nat, c: Choice, w': World)
    requires Inv(w) && Taken(w, t, c, w')
    ensures Inv(w')
  {
    match w.threads[t].pc {
      case Resting => StartInv(w, t, c, w');
      case Writing(_) => WriteInv(w, t, c, w');
      case Scanning(_, _) => ScanInv(w, t, c, w');
      case Sweeping(_, _) => SweepInv(w, t, c, w');
      case _ => ReaderInv(w, t, c, w');
    }
  }

  lemma {:induction false} RunInv(run: seq<World>, j: nat)
    requires Legal(run) && j < |run|
    ensures Inv(run[j])
  {
    if j == 0 {
      InitialInv(run[0]);
    } else {
      RunInv(run, j - 1);
      assert StepAt(run, j - 1);
      var t: nat, c: Choice :| Taken(run[j - 1], t, c, run[j]);
      StepInv(run[j - 1], t, c, run[j]);
    }
  }

  /** The scans a thread has begun. */
  function Begun(th: Thread): nat {
    th.scans + if th.pc.Scanning? || th.pc.Sweeping? then 1 else 0
  }

  /** Between the calls of `free_node_later`, and at all times but during a scan,
      a zombie list has at most R nodes; during a scan at most R + 1.  No retired
      node is lost.  After n retirements a thread has begun at most
      n / (101 + K * nbthreads) scans, the one in progress included. */
  lemma GarbageBounded(run: seq<World>, j: nat, t: nat)
    requires Legal(run) && j < |run| && t < |run[j].threads|
    ensures var th, n := run[j].threads[t], |run[j].threads|;
            && th.retired == th.freed + |Pending(th)|
            && |Pending(th)| <= R(n) + 1
            && (!th.pc.Scanning? && !th.pc.Sweeping? ==> |th.zombies| <= R(n))
            && th.scans * Quota(n) <= th.freed
            && Begun(th) * Quota(n) <= th.retired
            && Begun(th) <= th.retired / Quota(n)
  {
    RunInv(run, j);
    assert ThreadOk(run[j], t);
    var th, n := run[j].threads[t], |run[j].threads|;
    QuotaAdds(th.scans, n);
    Divides(Begun(th), Quota(n), th.retired);
  }

  lemma Divides(a: nat, b: nat, c: nat)
    requires b > 0 && a * b <= c
    ensures a <= c / b
  {
    if a > c / b {
      TimesKeepsOrder(c / b + 1, a, b);
    }
  }

  lemma TimesKeepsOrder(x: nat, y: nat, b: nat)
    requires x <= y
    ensures x * b <= y * b
  {
    assert y * b - x * b == (y - x) * b;
  }

  /** What a scan collects fits `plist`, which has room for K * nbthreads nodes. */
  lemma CollectedFits(run: seq<World>, j: nat, t: nat)
    requires Legal(run) && j < |run| && t < |run[j].threads|
    requires (run[j].threads[t].pc.Scanning? || run[j].threads[t].pc.Sweeping?)
    ensures |run[j].threads[t].pc.plist| <= K * |run[j].threads|
  {
    RunInv(run, j);
    assert ThreadOk(run[j], t);
    if run[j].threads[t].pc.Scanning? {
      UsableGrows(run[j].threads[t].pc.i, |run[j].threads|, false);
    }
  }
}
