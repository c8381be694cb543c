/** The answer of list_hp.c's search: it held at an instant of the call, whenever
    the last two links that the search followed were re-checked at the head or at
    a node that was linked at that instant. */
module HazardReaders {
  import opened Buckets
  import opened ListWriter
  import opened HazardParameters
  import opened HazardPointers
  import opened HazardSteps
  import opened HazardSafety
  import opened HazardChecks

  /** The last instant at which thread `t` was between two calls. */
  ghost function LastRest(run: seq<World>, j: nat, t: nat): (i: nat)
    requires j < |run|
    ensures i <= j
  {
    if j == 0 || (t < |run[j].threads| && run[j].threads[t].pc.Resting?) then j else LastRest(run, j - 1, t)
  }

  /** At some instant from `t0` to `t` the bucket's membership of `key` was `ans`. */
  ghost predicate Saw(run: seq<World>, t0: nat, t: nat, b: nat, key: int, ans: bool) {
    exists i: nat :: t0 <= i <= t && i < |run| && (Has(run[i].tb, b, key) <==> ans)
  }

  /** The node belongs to bucket `b`, or belonged to it and is not freed. */
  predicate OfBucket(s: Status, b: nat) {
    s == Linked(b) || s == Unlinked(b) || s.Retired?
  }

  /** A retired node that ended its list did so at an instant of the call. */
  ghost predicate EndSeen(run: seq<World>, w: World, t0: nat, t: nat, b: nat, key: int, n: Ref)
    requires n < |w.tb.mem| && n < |w.tb.status|
  {
    w.tb.status[n].Retired? && w.tb.mem[n].next.None? && w.tb.mem[n].key < key ==> Saw(run, t0, t, b, key, false)
  }

  /** What the search knows about the node `n` it stands on. */
  ghost predicate Stands(run: seq<World>, w: World, t0: nat, t: nat, th: Thread, n: Ref) {
    && n < |w.tb.mem| && n < |w.tb.status|
    && (th.known ==>
          && OfBucket(w.tb.status[n], th.b)
          && (w.tb.mem[n].key == th.key ==> Saw(run, t0, t, th.b, th.key, true))
          && (th.prevKnown && w.tb.mem[n].key > th.key ==> Saw(run, t0, t, th.b, th.key, false))
          && EndSeen(run, w, t0, t, th.b, th.key, n))
  }

  ghost predicate Sight(run: seq<World>, w: World, t0: nat, t: nat, th: Thread) {
    && (th.pc.Hopping? || th.pc.Comparing? ==> Stands(run, w, t0, t, th, th.pc.cur))
    && (th.pc.Comparing? && th.known && th.pc.next.None? && th.pc.cur < |w.tb.mem| && w.tb.mem[th.pc.cur].key < th.key ==>
          Saw(run, t0, t, th.b, th.key, false))
    && (Traversing(th.pc) && th.prev.NextOf? && th.prevKnown && !th.pc.Hopping? && !th.pc.Comparing? ==>
          th.prev.node < |w.tb.mem| && w.tb.mem[th.prev.node].key < th.key)
    && (th.pc.Returned? && th.known && th.prevKnown ==> Saw(run, t0, t, th.b, th.key, th.pc.found))
  }

  lemma SawLater(run: seq<World>, t0: nat, t: nat, t': nat, b: nat, key: int, ans: bool)
    requires Saw(run, t0, t, b, key, ans) && t <= t'
    ensures Saw(run, t0, t', b, key, ans)
  {
  }

  lemma SawNow(run: seq<World>, t0: nat, t: nat, b: nat, key: int, ans: bool)
    requires t0 <= t < |run| && (Has(run[t].tb, b, key) <==> ans)
    ensures Saw(run, t0, t, b, key, ans)
  {
  }

  // ----- the node the search stands on, while anybody steps

  /** A step takes a node that is not freed at most from linked to unlinked to
      retired, and keeps the link of an unlinked one. */
  lemma StepBucket(w: World, t: nat, c: Choice, w': World, n: Ref, b: nat)
    requires Inv(w) && Taken(w, t, c, w') && n < |w.tb.mem| && OfBucket(w.tb.status[n], b)
    requires n < |w'.tb.status| && NotFreed(w'.tb.status[n])
    ensures |w'.tb.mem| == |w.tb.mem| && OfBucket(w'.tb.status[n], b) && w'.tb.mem[n].key == w.tb.mem[n].key
    ensures w.tb.status[n].Retired? ==> w'.tb.status[n].Retired?
    ensures w'.tb.status[n].Retired? ==> w.tb.status[n].Retired? || w.tb.status[n] == Unlinked(b)
    ensures !w.tb.status[n].Linked? ==> w'.tb.mem[n].next == w.tb.mem[n].next
  {
    assert ThreadOk(w, t);
    if w.threads[t].pc.Writing? {
      if w.threads[t].pc.op.Unlinking? {
        UnlinkStatus(w.tb, w.threads[t].b, w.threads[t].pc.op, t);
      }
      WriteBucket(w, t, c, w', n, b);
    } else {
      OffListBucket(w, t, c, w', n);
    }
  }

  lemma WriteBucket(w: World, t: nat, c: Choice, w': World, n: Ref, b: nat)
    requires Taken(w, t, c, w') && n < |w.tb.mem| && OfBucket(w.tb.status[n], b) && w.threads[t].pc.Writing?
    requires OpOk(w.tb, w.threads[t].b, t, w.threads[t].pc.op)
    requires var op := w.threads[t].pc.op; op.Unlinking? ==> w.tb.status[op.node] == Linked(w.threads[t].b)
    requires n < |w'.tb.status| && NotFreed(w'.tb.status[n])
    ensures |w'.tb.mem| == |w.tb.mem| && OfBucket(w'.tb.status[n], b) && w'.tb.mem[n].key == w.tb.mem[n].key
    ensures w.tb.status[n].Retired? ==> w'.tb.status[n].Retired?
    ensures w'.tb.status[n].Retired? ==> w.tb.status[n].Retired? || w.tb.status[n] == Unlinked(b)
    ensures !w.tb.status[n].Linked? ==> w'.tb.mem[n].next == w.tb.mem[n].next
  {
  }

  lemma OffListBucket(w: World, t: nat, c: Choice, w': World, n: Ref)
    requires Taken(w, t, c, w') && !w.threads[t].pc.Writing? && n < |w.tb.mem|
    ensures |w'.tb.mem| == |w.tb.mem| == |w'.tb.status| && w'.tb.mem == w.tb.mem
    ensures w'.tb.status[n] == w.tb.status[n] || w'.tb.status[n] == Free
  {
  }

  /** When an unlinked node is retired, its link still spans the end of the list. */
  lemma UnlinkedEnds(w: World, t: nat, c: Choice, w': World, n: Ref, b: nat, key: int)
    requires Inv(w) && Taken(w, t, c, w') && n < |w.tb.mem| && n < |w'.tb.status| && w.tb.status[n] == Unlinked(b)
    requires w'.tb.status[n].Retired? && w.tb.mem[n].next.None? && w.tb.mem[n].key < key
    ensures !Has(w.tb, b, key)
  {
    assert ThreadOk(w, t);
    assert w.threads[t].pc == Writing(Reclaiming(n, 0));
    assert Anchored(w.tb, b, n);
  }

  lemma StandsLater(run: seq<World>, w: World, t: nat, c: Choice, w': World, t0: nat, j: nat, th: Thread, n: Ref)
    requires Inv(w) && Taken(w, t, c, w') && t0 <= j && j + 1 < |run| && run[j] == w && Stands(run, w, t0, j, th, n)
    requires n < |w'.tb.status| && |w'.tb.mem| == |w.tb.mem| && (th.known ==> NotFreed(w'.tb.status[n]))
    ensures Stands(run, w', t0, j + 1, th, n)
  {
    if th.known {
      StepBucket(w, t, c, w', n, th.b);
      var k := w.tb.mem[n].key;
      if k == th.key {
        SawLater(run, t0, j, j + 1, th.b, th.key, true);
      } else if k > th.key {
        if th.prevKnown { SawLater(run, t0, j, j + 1, th.b, th.key, false); }
      } else {
        EndLater(run, w, t, c, w', t0, j, th.b, th.key, n);
      }
    }
  }

  lemma EndLater(run: seq<World>, w: World, t: nat, c: Choice, w': World, t0: nat, j: nat, b: nat, key: int, n: Ref)
    requires Inv(w) && Taken(w, t, c, w') && t0 <= j && j + 1 < |run| && run[j] == w
    requires n < |w.tb.mem| && OfBucket(w.tb.status[n], b) && EndSeen(run, w, t0, j, b, key, n)
    requires n < |w'.tb.status| && |w'.tb.mem| == |w.tb.mem| && NotFreed(w'.tb.status[n])
    ensures EndSeen(run, w', t0, j + 1, b, key, n)
  {
    StepBucket(w, t, c, w', n, b);
    if w'.tb.status[n].Retired? && w'.tb.mem[n].next.None? && w'.tb.mem[n].key < key {
      if w.tb.status[n].Retired? {
        SawLater(run, t0, j, j + 1, b, key, false);
      } else {
        UnlinkedEnds(w, t, c, w', n, b, key);
        SawNow(run, t0, j, b, key, false);
        SawLater(run, t0, j, j + 1, b, key, false);
      }
    }
  }

  lemma SameSize(w: World, t: nat, c: Choice, w': World)
    requires Inv(w) && Taken(w, t, c, w')
    ensures |w'.tb.mem| == |w.tb.mem| && |w'.tb.status| == |w.tb.status| && |w'.tb.heads| == |w.tb.heads|
  {
    assert ThreadOk(w, t);
  }

  /** The shielded nodes of a search stay what they are. */
  lemma ShieldedStays(w: World, t: nat, c: Choice, w': World, s: nat, n: Ref)
    requires Inv(w) && Taken(w, t, c, w') && Shield(w, s, n) && s < |w'.slots| && w'.slots[s] == Some(n) && s < H
    ensures n < |w'.tb.status| && NotFreed(w'.tb.status[n]) && n < |w'.tb.mem| && w'.tb.mem[n].key == w.tb.mem[n].key
  {
    ShieldStep(w, t, c, w', s, n);
  }

  /** A step of another thread. */
  lemma SightOther(run: seq<World>, w: World, t: nat, c: Choice, w': World, t0: nat, j: nat, u: nat)
    requires Inv(w) && Taken(w, t, c, w') && t0 <= j && j + 1 < |run| && run[j] == w
    requires u < |w.threads| && u != t && Guarded(w, u) && Sight(run, w, t0, j, w.threads[u])
    ensures Sight(run, w', t0, j + 1, w.threads[u])
  {
    var th := w.threads[u];
    OthersSame(w, t, c, w');
    SameSize(w, t, c, w');
    assert ThreadOk(w, u);
    if th.pc.Hopping? || th.pc.Comparing? {
      if th.known {
        ShieldedStays(w, t, c, w', Slot(u, th.off), th.pc.cur);
      }
      StandsLater(run, w, t, c, w', t0, j, th, th.pc.cur);
    } else if Traversing(th.pc) && th.prev.NextOf? && th.prevKnown {
      ShieldedStays(w, t, c, w', Slot(u, 1 - th.off), th.prev.node);
    }
    if th.pc.Comparing? && th.known && th.pc.next.None? && w.tb.mem[th.pc.cur].key < th.key {
      SawLater(run, t0, j, j + 1, th.b, th.key, false);
    }
    if th.pc.Returned? && th.known && th.prevKnown {
      SawLater(run, t0, j, j + 1, th.b, th.key, th.pc.found);
    }
  }

  // ----- the search's own steps

  ghost predicate Reader(run: seq<World>, w: World, t: nat, c: Choice, w': World, t0: nat, j: nat) {
    && Inv(w) && Taken(w, t, c, w') && t0 <= j && j + 1 < |run| && run[j] == w
    && Guarded(w, t) && Sight(run, w, t0, j, w.threads[t])
  }

  lemma FetchSight(run: seq<World>, w: World, t: nat, c: Choice, w': World, t0: nat, j: nat)
    requires Reader(run, w, t, c, w', t0, j) && w.threads[t].pc.Fetching?
    ensures t < |w'.threads| && Sight(run, w', t0, j + 1, w'.threads[t])
  {
    assert ThreadOk(w, t) && BucketOk(w.tb, w.threads[t].b);
    if w.tb.heads[w.threads[t].b].None? {
      SawNow(run, t0, j, w.threads[t].b, w.threads[t].key, false);
      SawLater(run, t0, j, j + 1, w.threads[t].b, w.threads[t].key, false);
    }
  }

  lemma PostSight(run: seq<World>, w: World, t: nat, c: Choice, w': World, t0: nat, j: nat)
    requires Reader(run, w, t, c, w', t0, j) && w.threads[t].pc.Posting?
    ensures t < |w'.threads| && Sight(run, w', t0, j + 1, w'.threads[t])
  {
    assert ThreadOk(w, t);
  }

  /** The re-check: at this instant the node is linked behind a smaller key. */
  lemma RecheckSight(run: seq<World>, w: World, t: nat, c: Choice, w': World, t0: nat, j: nat)
    requires Reader(run, w, t, c, w', t0, j) && w.threads[t].pc.Rechecking?
    ensures t < |w'.threads| && Sight(run, w', t0, j + 1, w'.threads[t])
  {
    var th, cur := w.threads[t], w.threads[t].pc.cur;
    assert ThreadOk(w, t) && BucketOk(w.tb, th.b);
    if w'.threads[t].pc.Hopping? && w'.threads[t].known {
      RecheckLinked(w, t, cur);
      if w.tb.mem[cur].key == th.key {
        assert LinkedIn(w.tb, th.b, cur);
        SawNow(run, t0, j, th.b, th.key, true);
        SawLater(run, t0, j, j + 1, th.b, th.key, true);
      } else if w.tb.mem[cur].key > th.key && th.prevKnown {
        var low := if th.prev.Head? then None else Some(w.tb.mem[th.prev.node].key);
        FirstDecides(w.tb, th.b, low, Some(cur), th.key);
        SawNow(run, t0, j, th.b, th.key, false);
        SawLater(run, t0, j, j + 1, th.b, th.key, false);
      }
    }
  }

  lemma HopSight(run: seq<World>, w: World, t: nat, c: Choice, w': World, t0: nat, j: nat)
    requires Reader(run, w, t, c, w', t0, j) && w.threads[t].pc.Hopping?
    ensures t < |w'.threads| && Sight(run, w', t0, j + 1, w'.threads[t])
  {
    var th, cur := w.threads[t], w.threads[t].pc.cur;
    assert ThreadOk(w, t);
    StandsLater(run, w, t, c, w', t0, j, th, cur);
    if th.known && w.tb.mem[cur].next.None? && w.tb.mem[cur].key < th.key {
      EndAbsent(run, w, t0, j, th.b, th.key, cur);
      SawLater(run, t0, j, j + 1, th.b, th.key, false);
    }
  }

  /** A node that ends its list, or ended it when it was unlinked. */
  lemma EndAbsent(run: seq<World>, w: World, t0: nat, j: nat, b: nat, key: int, n: Ref)
    requires Inv(w) && t0 <= j < |run| && run[j] == w && b < |w.tb.heads|
    requires n < |w.tb.mem| && OfBucket(w.tb.status[n], b) && EndSeen(run, w, t0, j, b, key, n)
    requires w.tb.mem[n].next.None? && w.tb.mem[n].key < key
    ensures Saw(run, t0, j, b, key, false)
  {
    if !w.tb.status[n].Retired? {
      OwnedEnds(w, b, n, key);
      SawNow(run, t0, j, b, key, false);
    }
  }

  lemma OwnedEnds(w: World, b: nat, n: Ref, key: int)
    requires Inv(w) && b < |w.tb.heads| && n < |w.tb.mem|
    requires (w.tb.status[n] == Linked(b) || w.tb.status[n] == Unlinked(b))
    requires w.tb.mem[n].next.None? && w.tb.mem[n].key < key
    ensures !Has(w.tb, b, key)
  {
    assert BucketOk(w.tb, b);
    if w.tb.status[n].Linked? {
      assert LinkedIn(w.tb, b, n);
    } else {
      assert NodeOk(w, n);
    }
  }

  lemma CompareSight(run: seq<World>, w: World, t: nat, c: Choice, w': World, t0: nat, j: nat)
    requires Reader(run, w, t, c, w', t0, j) && w.threads[t].pc.Comparing?
    ensures t < |w'.threads| && Sight(run, w', t0, j + 1, w'.threads[t])
  {
    var th, cur := w.threads[t], w.threads[t].pc.cur;
    assert ThreadOk(w, t);
    var k := w.tb.mem[cur].key;
    if th.known {
      if k == th.key {
        SawLater(run, t0, j, j + 1, th.b, th.key, true);
      } else if (k > th.key && th.prevKnown) || (k < th.key && th.pc.next.None?) {
        SawLater(run, t0, j, j + 1, th.b, th.key, false);
      }
    }
  }

  lemma SightSelf(run: seq<World>, w: World, t: nat, c: Choice, w': World, t0: nat, j: nat)
    requires Reader(run, w, t, c, w', t0, j) && !w.threads[t].pc.Resting?
    ensures t < |w'.threads| && Sight(run, w', t0, j + 1, w'.threads[t])
  {
    match w.threads[t].pc {
      case Fetching => FetchSight(run, w, t, c, w', t0, j);
      case Posting(_) => PostSight(run, w, t, c, w', t0, j);
      case Rechecking(_) => RecheckSight(run, w, t, c, w', t0, j);
      case Hopping(_) => HopSight(run, w, t, c, w', t0, j);
      case Comparing(_, _) => CompareSight(run, w, t, c, w', t0, j);
      case _ => QuietSight(run, w, t, c, w', t0, j);
    }
  }

  /** A writer, or a search that returns. */
  lemma QuietSight(run: seq<World>, w: World, t: nat, c: Choice, w': World, t0: nat, j: nat)
    requires Taken(w, t, c, w') && (IsWriter(w.threads[t].pc) || w.threads[t].pc.Returned?)
    ensures t < |w'.threads| && Sight(run, w', t0, j, w'.threads[t])
  {
    StaysOut(w, t, c, w');
  }

  lemma StaysOut(w: World, t: nat, c: Choice, w': World)
    requires Taken(w, t, c, w') && (IsWriter(w.threads[t].pc) || w.threads[t].pc.Returned?)
    ensures t < |w'.threads| && (IsWriter(w'.threads[t].pc) || w'.threads[t].pc.Resting?)
  {
  }

  lemma StartSight(run: seq<World>, w: World, t: nat, c: Choice, w': World, t0: nat, j: nat)
    requires Taken(w, t, c, w') && w.threads[t].pc.Resting?
    ensures t < |w'.threads| && Sight(run, w', t0, j, w'.threads[t])
  {
  }

  ghost predicate SightAt(run: seq<World>, j: nat, t: nat) {
    j < |run| && t < |run[j].threads| ==> Sight(run, run[j], LastRest(run, j, t), j, run[j].threads[t])
  }

  lemma NextSight(run: seq<World>, j: nat, u: nat)
    requires Legal(run) && j + 1 < |run| && u < |run[j].threads| && SightAt(run, j, u)
    ensures SightAt(run, j + 1, u)
  {
    RunInv(run, j);
    RunGuarded(run, j);
    assert StepAt(run, j);
    var t: nat, c: Choice :| Taken(run[j], t, c, run[j + 1]);
    OthersSame(run[j], t, c, run[j + 1]);
    assert Guarded(run[j], u);
    if run[j + 1].threads[u].pc.Resting? {
    } else if u != t {
      SightOther(run, run[j], t, c, run[j + 1], LastRest(run, j, u), j, u);
    } else if run[j].threads[t].pc.Resting? {
      StartSight(run, run[j], t, c, run[j + 1], j, j + 1);
    } else {
      SightSelf(run, run[j], t, c, run[j + 1], LastRest(run, j, t), j);
    }
  }

  lemma {:induction false} RunSight(run: seq<World>, j: nat, t: nat)
    requires Legal(run) && j < |run|
    ensures SightAt(run, j, t)
  {
    if j > 0 && t < |run[j].threads| {
      assert StepAt(run, j - 1);
      var u: nat, c: Choice :| Taken(run[j - 1], u, c, run[j]);
      OthersSame(run[j - 1], u, c, run[j]);
      RunSight(run, j - 1, t);
      NextSight(run, j - 1, t);
    }
  }

  lemma {:induction false} RunBuckets(run: seq<World>, i: nat, j: nat)
    requires Legal(run) && i <= j < |run|
    ensures |run[i].tb.heads| == |run[j].tb.heads|
  {
    if i < j {
      RunBuckets(run, i, j - 1);
      RunInv(run, j - 1);
      assert StepAt(run, j - 1);
      var t: nat, c: Choice :| Taken(run[j - 1], t, c, run[j]);
      SameSize(run[j - 1], t, c, run[j]);
    }
  }

  lemma FlaggedAnswer(run: seq<World>, j: nat, t: nat)
    requires Legal(run) && j < |run| && t < |run[j].threads| && run[j].threads[t].pc.Returned?
    requires run[j].threads[t].known && run[j].threads[t].prevKnown
    ensures var th := run[j].threads[t];
            exists i: nat :: LastRest(run, j, t) <= i <= j && th.b < |run[i].tb.heads|
                             && (Contains(run[i].tb, th.b, th.key) <==> th.pc.found)
  {
    RunSight(run, j, t);
    RunInv(run, j);
    var th := run[j].threads[t];
    assert ThreadOk(run[j], t);
    var i: nat :| LastRest(run, j, t) <= i <= j && i < |run| && (Has(run[i].tb, th.b, th.key) <==> th.pc.found);
    RunInv(run, i);
    RunBuckets(run, i, j);
    ContainsIsHas(run[i].tb, th.b, th.key);
  }

  // ----- the arguments of a call

  ghost predicate Busy(run: seq<World>, k: nat, t: nat) {
    k < |run| && t < |run[k].threads| && !run[k].threads[t].pc.Resting?
  }

  lemma {:induction false} LastRestIs(run: seq<World>, i: nat, j: nat, t: nat)
    requires i <= j < |run| && t < |run[i].threads| && run[i].threads[t].pc.Resting?
    requires forall k: nat :: i < k <= j ==> Busy(run, k, t)
    ensures LastRest(run, j, t) == i
  {
    if i < j {
      assert Busy(run, j, t);
      LastRestIs(run, i, j - 1, t);
    }
  }

  /** Thread `t` is in the call that it began with the choice `c`. */
  ghost predicate BegunWith(run: seq<World>, j: nat, t: nat, c: Choice) {
    && j < |run|
    && var s := LastRest(run, j, t);
       s < j && t < |run[s].threads| && run[s].threads[t].pc.Resting? && Taken(run[s], t, c, run[s + 1])
  }

  predicate InSearch(pc: Pc) {
    !pc.Resting? && !IsWriter(pc)
  }

  /** The first step of a call goes into a search if it is one, with its arguments. */
  lemma StartsSearch(w: World, t: nat, c: Choice, w': World)
    requires t < |w.threads| && w.threads[t].pc.Resting? && Taken(w, t, c, w')
    ensures t < |w'.threads| && (InSearch(w'.threads[t].pc) <==> c.search)
    ensures w'.threads[t].b == c.b && w'.threads[t].key == c.key
  {
  }

  /** No step of a search changes its arguments. */
  lemma SearchKeeps(w: World, t: nat, c: Choice, w': World)
    requires Taken(w, t, c, w') && !w.threads[t].pc.Resting?
    ensures t < |w'.threads|
    ensures var th, th' := w.threads[t], w'.threads[t];
            && (InSearch(th'.pc) ==> InSearch(th.pc))
            && (InSearch(th.pc) ==> th'.b == th.b && th'.key == th.key)
  {
    if IsWriter(w.threads[t].pc) {
      WriterKeepsOut(w, t, c, w');
    }
  }

  lemma WriterKeepsOut(w: World, t: nat, c: Choice, w': World)
    requires Taken(w, t, c, w') && IsWriter(w.threads[t].pc)
    ensures t < |w'.threads| && !InSearch(w'.threads[t].pc)
  {
  }

  /** A step into a search, from outside or from within. */
  lemma SearchOrigin(w: World, w': World, t: nat)
    requires Step(w, w') && t < |w.threads| && t < |w'.threads| && InSearch(w'.threads[t].pc)
    ensures if w.threads[t].pc.Resting? then
              exists c: Choice :: Taken(w, t, c, w') && c.search && w'.threads[t].b == c.b && w'.threads[t].key == c.key
            else
              InSearch(w.threads[t].pc) && w'.threads[t].b == w.threads[t].b && w'.threads[t].key == w.threads[t].key
  {
    var u: nat, c: Choice :| Taken(w, u, c, w');
    OthersSame(w, u, c, w');
    if u == t {
      if w.threads[t].pc.Resting? {
        StartsSearch(w, t, c, w');
      } else {
        SearchKeeps(w, t, c, w');
      }
    }
  }

  lemma SameThreads(w: World, w': World)
    requires Step(w, w')
    ensures |w'.threads| == |w.threads|
  {
    var u: nat, c: Choice :| Taken(w, u, c, w');
    OthersSame(w, u, c, w');
  }

  /** A search runs to its end with the arguments it was called with. */
  lemma {:induction false} RunArguments(run: seq<World>, j: nat, t: nat) returns (c: Choice)
    requires Legal(run) && j < |run| && t < |run[j].threads| && InSearch(run[j].threads[t].pc)
    ensures BegunWith(run, j, t, c) && c.search && run[j].threads[t].b == c.b && run[j].threads[t].key == c.key
  {
    if j > 0 {
      assert StepAt(run, j - 1);
      SameThreads(run[j - 1], run[j]);
      SearchOrigin(run[j - 1], run[j], t);
      if run[j - 1].threads[t].pc.Resting? {
        c :| Taken(run[j - 1], t, c, run[j]) && c.search && run[j].threads[t].b == c.b && run[j].threads[t].key == c.key;
      } else {
        c := RunArguments(run, j - 1, t);
      }
    }
  }

  lemma Arguments(run: seq<World>, j: nat, t: nat, c: Choice)
    requires Legal(run) && j < |run| && t < |run[j].threads| && InSearch(run[j].threads[t].pc) && BegunWith(run, j, t, c)
    ensures c.search && run[j].threads[t].b == c.b && run[j].threads[t].key == c.key
  {
    var c' := RunArguments(run, j, t);
    var s := LastRest(run, j, t);
    StartsSearch(run[s], t, c, run[s + 1]);
    StartsSearch(run[s], t, c', run[s + 1]);
  }

  /** Linearizability under the hazard premise: a search for `c.key` in bucket `c.b`
      that is about to return gives the membership of that key at an instant of the
      call, when its last two re-checks were made at the head or at a node that was
      linked at that instant. */
  lemma SearchLinearizable(run: seq<World>, j: nat, t: nat, c: Choice)
    requires Legal(run) && j < |run| && t < |run[j].threads| && run[j].threads[t].pc.Returned?
    requires BegunWith(run, j, t, c) && LastTwoTrusted(run, j, t)
    ensures c.search && exists i: nat :: LastRest(run, j, t) <= i <= j && c.b < |run[i].tb.heads|
                             && (Contains(run[i].tb, c.b, c.key) <==> run[j].threads[t].pc.found)
  {
    RunFlags(run, j, t);
    FlaggedAnswer(run, j, t);
    Arguments(run, j, t, c);
  }

  // ----- calls during which no node is unlinked

  /** No node leaves bucket `b` between the instants `i` and `j`. */
  ghost predicate NoneLeaves(run: seq<World>, i: nat, j: nat, b: nat) {
    forall k: nat :: i <= k < j ==> NoneLeavesAt(run, k, b)
  }

  ghost predicate NoneLeavesAt(run: seq<World>, k: nat, b: nat) {
    k + 1 < |run| && forall n: Ref :: LinkedIn(run[k].tb, b, n) ==> LinkedIn(run[k + 1].tb, b, n)
  }

  /** The search stands on linked nodes. */
  ghost predicate OnTheList(w: World, th: Thread) {
    (Traversing(th.pc) || th.pc.Returned? ==> th.known && th.prevKnown)
    && (Traversing(th.pc) && th.prev.NextOf? ==> LinkedIn(w.tb, th.b, th.prev.node))
    && (th.pc.Hopping? || th.pc.Comparing? ==> LinkedIn(w.tb, th.b, th.pc.cur))
  }

  lemma OnTheListStep(w: World, t: nat, c: Choice, w': World, u: nat)
    requires Inv(w) && Taken(w, t, c, w') && u < |w.threads| && OnTheList(w, w.threads[u])
    requires forall n: Ref :: LinkedIn(w.tb, w.threads[u].b, n) ==> LinkedIn(w'.tb, w.threads[u].b, n)
    ensures u < |w'.threads| && OnTheList(w', w'.threads[u])
  {
    OthersSame(w, t, c, w');
    if u == t {
      if IsWriter(w.threads[t].pc) {
        WriterKeepsOut(w, t, c, w');
      } else if w.threads[t].pc.Rechecking? {
        RecheckOnList(w, t, c, w');
      } else {
        HopOnList(w, t, c, w');
      }
    }
  }

  lemma RecheckOnList(w: World, t: nat, c: Choice, w': World)
    requires Inv(w) && Taken(w, t, c, w') && OnTheList(w, w.threads[t]) && w.threads[t].pc.Rechecking?
    ensures t < |w'.threads| && OnTheList(w', w'.threads[t])
  {
    RecheckDecides(w, t, c, w', w.threads[t].pc.cur);
    if w'.threads[t].pc.Hopping? {
      RecheckLinked(w, t, w.threads[t].pc.cur);
    }
  }

  lemma HopOnList(w: World, t: nat, c: Choice, w': World)
    requires Taken(w, t, c, w') && OnTheList(w, w.threads[t]) && !w.threads[t].pc.Rechecking?
    requires !IsWriter(w.threads[t].pc)
    requires forall n: Ref :: LinkedIn(w.tb, w.threads[t].b, n) ==> LinkedIn(w'.tb, w.threads[t].b, n)
    ensures t < |w'.threads| && OnTheList(w', w'.threads[t])
  {
  }

  lemma {:induction false} RunOnTheList(run: seq<World>, j: nat, t: nat, c: Choice)
    requires Legal(run) && j < |run| && t < |run[j].threads| && InSearch(run[j].threads[t].pc)
    requires BegunWith(run, j, t, c) && NoneLeaves(run, LastRest(run, j, t), j, c.b)
    ensures OnTheList(run[j], run[j].threads[t])
  {
    if LastRest(run, j, t) + 1 < j {
      StillInSearch(run, j, t);
      RunOnTheList(run, j - 1, t, c);
      assert NoneLeavesAt(run, j - 1, c.b);
      Arguments(run, j - 1, t, c);
      OnTheListAt(run, j, t);
    }
  }

  lemma StillInSearch(run: seq<World>, j: nat, t: nat)
    requires Legal(run) && j < |run| && t < |run[j].threads| && InSearch(run[j].threads[t].pc)
    requires LastRest(run, j, t) + 1 < j
    ensures t < |run[j - 1].threads| && InSearch(run[j - 1].threads[t].pc)
  {
    assert StepAt(run, j - 1);
    var u: nat, c: Choice :| Taken(run[j - 1], u, c, run[j]);
    OthersSame(run[j - 1], u, c, run[j]);
    if u == t && !run[j - 1].threads[t].pc.Resting? {
      SearchKeeps(run[j - 1], t, c, run[j]);
    }
  }

  lemma OnTheListAt(run: seq<World>, j: nat, t: nat)
    requires Legal(run) && 0 < j < |run| && t < |run[j - 1].threads| && OnTheList(run[j - 1], run[j - 1].threads[t])
    requires NoneLeavesAt(run, j - 1, run[j - 1].threads[t].b)
    ensures t < |run[j].threads| && OnTheList(run[j], run[j].threads[t])
  {
    RunInv(run, j - 1);
    assert StepAt(run, j - 1);
    var u: nat, c: Choice :| Taken(run[j - 1], u, c, run[j]);
    OnTheListStep(run[j - 1], u, c, run[j], t);
  }

  /** Linearizability without a premise on the re-checks: if no node of the bucket is
      unlinked during the call, the answer is the membership of the key at an instant
      of the call. */
  lemma SearchAmongInserts(run: seq<World>, j: nat, t: nat, c: Choice)
    requires Legal(run) && j < |run| && t < |run[j].threads| && run[j].threads[t].pc.Returned?
    requires BegunWith(run, j, t, c) && NoneLeaves(run, LastRest(run, j, t), j, c.b)
    ensures c.search && exists i: nat :: LastRest(run, j, t) <= i <= j && c.b < |run[i].tb.heads|
                             && (Contains(run[i].tb, c.b, c.key) <==> run[j].threads[t].pc.found)
  {
    RunOnTheList(run, j, t, c);
    FlaggedAnswer(run, j, t);
    Arguments(run, j, t, c);
  }
}
