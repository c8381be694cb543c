/** What a thread does under hazard pointers that runs alone: from every reachable
    state it completes its search, insert or delete within a bounded number of steps,
    also when it stands on a free node.  A call that runs alone from start to end
    does what a call on a set does. */
module HazardAlone {
  import opened Buckets
  import opened ListWriter
  import opened Chains
  import opened Progress
  import opened HazardParameters
  import opened HazardPointers
  import opened HazardSteps
  import opened HazardReaders
  import opened HazardCalls
  import C = Calls

  // ----- walks end under hazard pointers too

  lemma StepKeepsNoCycle(w: World, t: nat, c: Choice, w': World)
    requires Inv(w) && Taken(w, t, c, w') && NoCycle(w.tb.mem)
    ensures NoCycle(w'.tb.mem)
  {
    assert ThreadOk(w, t);
    var th := w.threads[t];
    if th.pc.Writing? && th.pc.op.Linking? {
      LinkKeeps(w.tb, th.b, t, th.pc.op);
    } else if th.pc.Writing? && th.pc.op.Unlinking? {
      UnlinkKeeps(w.tb, th.b, t, th.pc.op);
    } else if th.pc.Writing? && th.pc.op.Publishing? {
      PublishKeeps(w.tb, th.b, t, th.pc.op);
    } else {
      OtherSteps(w, t, c, w');
      SameNoCycle(w.tb.mem, w'.tb.mem);
    }
  }

  lemma OtherSteps(w: World, t: nat, c: Choice, w': World)
    requires Taken(w, t, c, w')
    requires w.threads[t].pc.Writing? ==>
               var op := w.threads[t].pc.op; !op.Linking? && !op.Unlinking? && !op.Publishing?
    ensures SameNexts(w.tb.mem, w'.tb.mem)
  {
  }

  /** In every reachable state following next links ends, from any node of the pool. */
  lemma {:induction false} NeverCyclic(run: seq<World>, i: nat)
    requires Legal(run) && i < |run|
    ensures NoCycle(run[i].tb.mem)
  {
    if i == 0 {
      forall n: Ref | n < |run[0].tb.mem| ensures Finite(run[0].tb.mem, n) {
        assert Ends(run[0].tb.mem, None, 0);
        assert Ends(run[0].tb.mem, Some(n), 1);
      }
    } else {
      NeverCyclic(run, i - 1);
      RunInv(run, i - 1);
      assert StepAt(run, i - 1);
      var t: nat, c: Choice :| Taken(run[i - 1], t, c, run[i]);
      StepKeepsNoCycle(run[i - 1], t, c, run[i]);
    }
  }

  // ----- how many steps are left

  /** The number of nodes from `p` on. */
  ghost function Length(mem: seq<Node>, p: Option<Ref>): nat {
    if exists k: nat :: Ends(mem, p, k) then var k: nat :| Ends(mem, p, k); k else 0
  }

  lemma LengthOf(mem: seq<Node>, p: Option<Ref>)
    requires NoCycle(mem) && (p.Some? ==> p.value < |mem|)
    ensures Length(mem, p) <= |mem| && Ends(mem, p, Length(mem, p))
  {
    if p.Some? {
      assert Finite(mem, p.value);
    } else {
      assert Ends(mem, p, 0);
    }
    WalkIsShort(mem, p, Length(mem, p));
  }

  /** One node on is one node less. */
  lemma LengthNext(mem: seq<Node>, n: Ref)
    requires NoCycle(mem) && n < |mem| && (mem[n].next.Some? ==> mem[n].next.value < |mem|)
    ensures Length(mem, Some(n)) == Length(mem, mem[n].next) + 1
  {
    LengthOf(mem, Some(n));
    LengthOf(mem, mem[n].next);
    EndsUnique(mem, mem[n].next, Length(mem, mem[n].next), Length(mem, Some(n)) - 1);
  }

  /** Steps of list operation `op`, with `z` zombies, before the call returns. */
  ghost function OpLeft(tb: Table, b: nat, z: nat, op: Op): nat {
    match op
    case Idle(_) => 1
    case Walking(_, _, prev, _) => 7 + H + z + |Ahead(tb, b, prev)|
    case Unlinking(_, _, _) => 6 + H + z
    case Reclaiming(_, _) => 5 + H + z
    case Allocating(_, _, _) => 5
    case Keying(_, _, _, _) => 4
    case Linking(_, _, _, _) => 3
    case Publishing(_, _, _, _) => 2
  }

  /** The link `prev` of the thread still leads to `cur`. */
  predicate Fresh(w: World, th: Thread, cur: Ref) {
    LocOk(w.tb, th.b, th.prev) && Load(w.tb, th.b, th.prev) == Some(cur)
  }

  ghost function StepsLeft(w: World, th: Thread): nat {
    var tb, m := w.tb, |w.tb.mem|;
    match th.pc
    case Resting => 0
    case Fetching => 4 * m + 4
    case Posting(cur) => if Fresh(w, th, cur) then 4 * Length(tb.mem, Some(cur)) + 3 else 4 * m + 6
    case Rechecking(cur) => if Fresh(w, th, cur) then 4 * Length(tb.mem, Some(cur)) + 2 else 4 * m + 5
    case Hopping(cur) => 4 * Length(tb.mem, Some(cur)) + 1
    case Comparing(cur, next) => if cur < m && tb.mem[cur].next == next then 4 * Length(tb.mem, Some(cur)) else 4 * m + 7
    case Returned(_) => 1
    case Writing(op) => OpLeft(tb, th.b, |th.zombies|, op)
    case Scanning(i, _) => 3 + (if i <= H then H - i else 0) + |th.zombies|
    case Sweeping(rest, _) => 2 + |rest|
  }

  predicate MayAllocate(pc: Pc) {
    pc.Writing? && ((pc.op.Walking? && !pc.op.del) || pc.op.Allocating?)
  }

  /** The allocator has the node `c.node` for a thread that may need one. */
  predicate Supplied(w: World, pc: Pc, c: Choice) {
    MayAllocate(pc) ==> c.node < |w.tb.mem| && c.node < |w.tb.status| && w.tb.status[c.node] == Free
  }

  lemma SearchLowers(w: World, t: nat, c: Choice, w': World)
    requires Inv(w) && NoCycle(w.tb.mem) && Taken(w, t, c, w') && InSearch(w.threads[t].pc)
    ensures t < |w'.threads| && StepsLeft(w', w'.threads[t]) < StepsLeft(w, w.threads[t])
    ensures !MayAllocate(w'.threads[t].pc)
  {
    assert ThreadOk(w, t);
    if w.threads[t].pc.Fetching? {
      assert BucketOk(w.tb, w.threads[t].b);
      LengthOf(w.tb.mem, w.tb.heads[w.threads[t].b]);
    } else if w.threads[t].pc.Comparing? {
      CompareLowers(w, t, c, w');
    } else {
      ReadLowers(w, t, c, w');
    }
  }

  lemma ReadLowers(w: World, t: nat, c: Choice, w': World)
    requires Taken(w, t, c, w') && NoCycle(w.tb.mem)
    requires var pc := w.threads[t].pc; pc.Posting? || pc.Rechecking? || pc.Hopping? || pc.Returned?
    requires PcOk(w, t, w.threads[t])
    ensures t < |w'.threads| && StepsLeft(w', w'.threads[t]) < StepsLeft(w, w.threads[t])
    ensures !MayAllocate(w'.threads[t].pc)
  {
    if w.threads[t].pc.Hopping? {
      LengthOf(w.tb.mem, Some(w.threads[t].pc.cur));
    }
  }

  lemma CompareLowers(w: World, t: nat, c: Choice, w': World)
    requires Taken(w, t, c, w') && NoCycle(w.tb.mem) && PointersOk(w.tb) && w.threads[t].pc.Comparing?
    requires PcOk(w, t, w.threads[t]) && w.threads[t].b < |w.tb.heads|
    ensures t < |w'.threads| && StepsLeft(w', w'.threads[t]) < StepsLeft(w, w.threads[t])
    ensures !MayAllocate(w'.threads[t].pc)
  {
    LengthNext(w.tb.mem, w.threads[t].pc.cur);
  }

  lemma WriteLowers(w: World, t: nat, c: Choice, w': World)
    requires Inv(w) && Taken(w, t, c, w') && w.threads[t].pc.Writing?
    ensures t < |w'.threads| && StepsLeft(w', w'.threads[t]) < StepsLeft(w, w.threads[t])
    ensures MayAllocate(w'.threads[t].pc) ==> MayAllocate(w.threads[t].pc) && w'.tb == w.tb
  {
    var th := w.threads[t];
    if th.pc.op.Walking? {
      assert ThreadOk(w, t);
      WalkLowers(w, t);
    } else {
      OtherWriteLowers(w, t, c, w');
    }
  }

  lemma WalkLowers(w: World, t: nat)
    requires WellFormed(w.tb) && t < |w.threads| && w.threads[t].pc.Writing? && w.threads[t].pc.op.Walking?
    requires OpOk(w.tb, w.threads[t].b, t, w.threads[t].pc.op)
    ensures var th := w.threads[t];
            var th' := th.(pc := Writing(WalkNext(w.tb, th.pc.op)));
            && StepsLeft(SetThread(w, t, th'), th') < StepsLeft(w, th)
            && (MayAllocate(th'.pc) ==> MayAllocate(th.pc))
  {
    var th := w.threads[t];
    if WalkNext(w.tb, th.pc.op).Walking? {
      HopShortens(w.tb, th.b, t, th.pc.op);
    }
  }

  lemma OtherWriteLowers(w: World, t: nat, c: Choice, w': World)
    requires Taken(w, t, c, w') && w.threads[t].pc.Writing? && !w.threads[t].pc.op.Walking?
    ensures t < |w'.threads| && StepsLeft(w', w'.threads[t]) < StepsLeft(w, w.threads[t])
    ensures !MayAllocate(w'.threads[t].pc)
  {
  }

  lemma ScanLowers(w: World, t: nat, c: Choice, w': World)
    requires Inv(w) && Taken(w, t, c, w') && (w.threads[t].pc.Scanning? || w.threads[t].pc.Sweeping?)
    ensures t < |w'.threads| && StepsLeft(w', w'.threads[t]) < StepsLeft(w, w.threads[t])
    ensures !MayAllocate(w'.threads[t].pc)
  {
    assert ThreadOk(w, t);
  }

  lemma StepLowers(w: World, t: nat, c: Choice, w': World)
    requires Inv(w) && NoCycle(w.tb.mem) && Taken(w, t, c, w') && !w.threads[t].pc.Resting?
    requires Supplied(w, w.threads[t].pc, c)
    ensures t < |w'.threads| && Supplied(w', w'.threads[t].pc, c)
    ensures StepsLeft(w', w'.threads[t]) < StepsLeft(w, w.threads[t])
  {
    if InSearch(w.threads[t].pc) {
      SearchLowers(w, t, c, w');
    } else if w.threads[t].pc.Writing? {
      WriteLowers(w, t, c, w');
    } else {
      ScanLowers(w, t, c, w');
    }
  }

  // ----- runs

  /** From instant `i` on only thread `t` steps, always with the choice `c`, and
      begins no call after that instant. */
  ghost predicate AloneFrom(run: seq<World>, i: nat, t: nat, c: Choice) {
    forall k: nat :: i <= k ==> AloneAt(run, i, k, t, c)
  }

  ghost predicate AloneAt(run: seq<World>, i: nat, k: nat, t: nat, c: Choice) {
    k + 1 < |run| ==> Taken(run[k], t, c, run[k + 1]) && (k > i ==> !run[k].threads[t].pc.Resting?)
  }

  function Last(run: seq<World>): World
    requires |run| > 0
  {
    run[|run| - 1]
  }

  lemma Longer(run: seq<World>, t: nat, c: Choice)
    requires Legal(run) && Enabled(Last(run), t, c)
    ensures Legal(run + [Act(Last(run), t, c)])
  {
    var more := run + [Act(Last(run), t, c)];
    assert more[0] == run[0];
    forall i: nat ensures StepAt(more, i) {
      assert StepAt(run, i);
      if i + 1 == |run| {
        assert Taken(more[i], t, c, more[i + 1]);
      }
    }
  }

  /** The thread's call is over at the end of `more`, and from the end of `run` on
      nobody else moved. */
  ghost predicate CompletedAlone(run: seq<World>, more: seq<World>, t: nat, c: Choice) {
    && 0 < |run| < |more| && run == more[..|run|] && Legal(more)
    && AloneFrom(more, |run| - 1, t, c) && t < |Last(more).threads| && Last(more).threads[t].pc.Resting?
  }

  lemma CompletedLater(run: seq<World>, t: nat, c: Choice, w': World, more: seq<World>)
    requires |run| > 0 && CompletedAlone(run + [w'], more, t, c)
    requires Taken(Last(run), t, c, w') && t < |w'.threads| && !w'.threads[t].pc.Resting?
    ensures CompletedAlone(run, more, t, c)
  {
    assert more[|run| - 1] == Last(run) && more[|run|] == w';
    var i := |run| - 1;
    forall k: nat | i <= k ensures AloneAt(more, i, k, t, c) {
      if k > i {
        assert AloneAt(more, |run|, k, t, c);
      }
    }
  }

  /** From every reachable state a thread that runs alone completes its call, within
      `StepsLeft` steps. */
  lemma {:induction false} Completes(run: seq<World>, t: nat, c: Choice) returns (more: seq<World>)
    requires Legal(run) && t < |Last(run).threads| && !Last(run).threads[t].pc.Resting?
    requires Supplied(Last(run), Last(run).threads[t].pc, c)
    ensures CompletedAlone(run, more, t, c) && |more| <= |run| + StepsLeft(Last(run), Last(run).threads[t])
    decreases StepsLeft(Last(run), Last(run).threads[t])
  {
    var w := Last(run);
    RunInv(run, |run| - 1);
    NeverCyclic(run, |run| - 1);
    NeverStuck(w, t, c);
    var w' := Act(w, t, c);
    StepLowers(w, t, c, w');
    Longer(run, t, c);
    if w'.threads[t].pc.Resting? {
      more := run + [w'];
    } else {
      more := Completes(run + [w'], t, c);
      CompletedLater(run, t, c, w', more);
    }
  }

  /** The bounds as numbers of steps: of a search, and of an insert or delete. */
  lemma FewSteps(w: World, t: nat)
    requires Inv(w) && NoCycle(w.tb.mem) && t < |w.threads|
    ensures StepsLeft(w, w.threads[t]) <=
            if InSearch(w.threads[t].pc) then 4 * |w.tb.mem| + 7 else |w.tb.mem| + H + R(|w.threads|) + 7
  {
    assert ThreadOk(w, t);
    var th := w.threads[t];
    match th.pc {
      case Posting(cur) => LengthOf(w.tb.mem, Some(cur));
      case Rechecking(cur) => LengthOf(w.tb.mem, Some(cur));
      case Hopping(cur) => LengthOf(w.tb.mem, Some(cur));
      case Comparing(cur, _) => LengthOf(w.tb.mem, Some(cur));
      case Writing(op) => if op.Walking? { AheadIsFew(w.tb, th.b, op.prev); }
      case _ =>
    }
  }

  /** A call begun now, and completed alone. */
  lemma BeginsAndCompletes(run: seq<World>, t: nat, c: Choice) returns (more: seq<World>)
    requires Legal(run) && t < |Last(run).threads| && Last(run).threads[t].pc.Resting?
    requires c.b < |Last(run).writer| && (c.search || Last(run).writer[c.b] == None)
    requires !c.search && !c.del ==>
               c.node < |Last(run).tb.mem| && c.node < |Last(run).tb.status| && Last(run).tb.status[c.node] == Free
    ensures CompletedAlone(run, more, t, c) && |run| + 1 < |more|
    ensures |more| <= |run| + if c.search then 4 * |Last(run).tb.mem| + 8
                              else |Last(run).tb.mem| + H + R(|Last(run).threads|) + 8
  {
    var w := Last(run);
    RunInv(run, |run| - 1);
    NeverStuck(w, t, c);
    var w' := Act(w, t, c);
    Longer(run, t, c);
    RunInv(run + [w'], |run|);
    NeverCyclic(run + [w'], |run|);
    Begins(w, t, c);
    FewSteps(w', t);
    more := Completes(run + [w'], t, c);
    CompletedLater(run, t, c, w', more);
  }

  lemma Begins(w: World, t: nat, c: Choice)
    requires Enabled(w, t, c) && w.threads[t].pc.Resting?
    requires !c.search && !c.del ==> c.node < |w.tb.mem| && w.tb.status[c.node] == Free
    ensures var w' := Act(w, t, c);
            && t < |w'.threads| == |w.threads| && (InSearch(w'.threads[t].pc) <==> c.search) && w'.tb == w.tb
            && !w'.threads[t].pc.Resting? && Supplied(w', w'.threads[t].pc, c)
  {
  }

  /** An insert or delete that runs alone from start to end returns 1 exactly if the key
      was not there (insert) or was there (delete), within |pool| + H + R + 8 steps, its
      scan included, and leaves the old set with or without the key. */
  lemma CallAlone(run: seq<World>, t: nat, c: Choice) returns (more: seq<World>)
    requires Legal(run) && t < |Last(run).threads| && Last(run).threads[t].pc.Resting? && !c.search
    requires c.b < |Last(run).writer| && Last(run).writer[c.b] == None
    requires !c.del ==>
               c.node < |Last(run).tb.mem| && c.node < |Last(run).tb.status| && Last(run).tb.status[c.node] == Free
    ensures CompletedAlone(run, more, t, c) && |run| + 1 < |more|
    ensures |more| <= |run| + |Last(run).tb.mem| + H + R(|Last(run).threads|) + 8
    ensures C.Returns(ViewOf(more[|more| - 2], t).phase) <==> (Has(Last(run).tb, c.b, c.key) <==> c.del)
    ensures C.Applied(Last(run).tb, Last(more).tb, c.b, c.del, c.key)
  {
    more := BeginsAndCompletes(run, t, c);
    var i, j := |run| - 1, |more| - 2;
    assert more[i] == Last(run);
    AloneWrites(more, i, j, t, c);
    AloneCall(more, i, j, t, c);
    assert AloneAt(more, i, j, t, c);
    CallDecides(more, j, t, c);
  }

  lemma BusyAlone(run: seq<World>, i: nat, k: nat, t: nat, c: Choice)
    requires AloneFrom(run, i, t, c) && i < k && k + 1 < |run|
    ensures t < |run[k].threads| && !run[k].threads[t].pc.Resting?
  {
    assert AloneAt(run, i, k, t, c);
  }

  lemma {:induction false} AloneWrites(run: seq<World>, i: nat, j: nat, t: nat, c: Choice)
    requires i < j && j + 1 < |run| && AloneFrom(run, i, t, c) && !c.search
    requires t < |run[i].threads| && run[i].threads[t].pc.Resting?
    ensures t < |run[j].threads| && IsWriter(run[j].threads[t].pc) && !ViewOf(run[j], t).phase.Outside?
  {
    if i + 1 < j {
      AloneWrites(run, i, j - 1, t, c);
    }
    BusyAlone(run, i, j, t, c);
    WritesOn(run, i, j - 1, t, c);
  }

  lemma WritesOn(run: seq<World>, i: nat, k: nat, t: nat, c: Choice)
    requires i <= k && k + 1 < |run| && AloneFrom(run, i, t, c) && !c.search
    requires t < |run[k].threads| && (run[k].threads[t].pc.Resting? || IsWriter(run[k].threads[t].pc))
    requires t < |run[k + 1].threads| && !run[k + 1].threads[t].pc.Resting?
    ensures IsWriter(run[k + 1].threads[t].pc)
  {
    assert AloneAt(run, i, k, t, c);
    if run[k].threads[t].pc.Resting? {
      StartsSearch(run[k], t, c, run[k + 1]);
    } else {
      StillWrites(run[k], t, c, run[k + 1]);
    }
  }

  lemma AloneCall(run: seq<World>, i: nat, j: nat, t: nat, c: Choice)
    requires i < j && j + 1 < |run| && AloneFrom(run, i, t, c) && !c.search
    requires t < |run[i].threads| && run[i].threads[t].pc.Resting?
    ensures C.CallStart(Views(run, t), j) == i && CalledWith(run, j, t, c)
  {
    var vs := Views(run, t);
    assert vs[i] == ViewOf(run[i], t);
    forall k: nat | i < k <= j ensures C.InsideAt(vs, k) {
      AloneWrites(run, i, k, t, c);
      assert vs[k] == ViewOf(run[k], t);
    }
    C.CallStartIs(vs, i, j);
    assert AloneAt(run, i, i, t, c);
  }

  lemma StillWrites(w: World, t: nat, c: Choice, w': World)
    requires Taken(w, t, c, w') && IsWriter(w.threads[t].pc)
    ensures t < |w'.threads| && (IsWriter(w'.threads[t].pc) || w'.threads[t].pc.Resting?)
  {
  }

  /** A search that runs alone from start to end returns whether the key is there,
      within 4 |pool| + 8 steps, and leaves every head and node as it is. */
  lemma SearchAlone(run: seq<World>, t: nat, c: Choice) returns (more: seq<World>)
    requires Legal(run) && t < |Last(run).threads| && Last(run).threads[t].pc.Resting? && c.search
    requires c.b < |Last(run).writer| == |Last(run).tb.heads|
    ensures CompletedAlone(run, more, t, c) && |run| + 1 < |more| <= |run| + 4 * |Last(run).tb.mem| + 8
    ensures t < |more[|more| - 2].threads|
    ensures more[|more| - 2].threads[t].pc == Returned(Contains(Last(run).tb, c.b, c.key))
    ensures Last(more).tb == Last(run).tb
  {
    more := BeginsAndCompletes(run, t, c);
    var i, j := |run| - 1, |more| - 2;
    assert more[i] == Last(run);
    AloneSearches(more, i, j, t, c);
    AloneSearch(more, i, j, t, c);
    assert AloneAt(more, i, j, t, c);
    OnlyReturns(more[j], t, c, more[j + 1]);
    forall k: nat | i <= k < j ensures NoneLeavesAt(more, k, c.b) {
      SearchTable(more, i, k, t, c);
      SearchTable(more, i, k + 1, t, c);
    }
    SearchAmongInserts(more, j, t, c);
    var k: nat :| i <= k <= j && c.b < |more[k].tb.heads|
                    && (Contains(more[k].tb, c.b, c.key) <==> more[j].threads[t].pc.found);
    SearchTable(more, i, k, t, c);
    SearchTable(more, i, j + 1, t, c);
  }

  lemma {:induction false} AloneSearches(run: seq<World>, i: nat, j: nat, t: nat, c: Choice)
    requires i < j && j + 1 < |run| && AloneFrom(run, i, t, c) && c.search
    requires t < |run[i].threads| && run[i].threads[t].pc.Resting?
    ensures t < |run[j].threads| && InSearch(run[j].threads[t].pc)
  {
    if i + 1 < j {
      AloneSearches(run, i, j - 1, t, c);
    }
    BusyAlone(run, i, j, t, c);
    SearchesOn(run, i, j - 1, t, c);
  }

  lemma SearchesOn(run: seq<World>, i: nat, k: nat, t: nat, c: Choice)
    requires i <= k && k + 1 < |run| && AloneFrom(run, i, t, c) && c.search
    requires t < |run[k].threads| && (run[k].threads[t].pc.Resting? || InSearch(run[k].threads[t].pc))
    requires t < |run[k + 1].threads| && !run[k + 1].threads[t].pc.Resting?
    ensures InSearch(run[k + 1].threads[t].pc)
  {
    assert AloneAt(run, i, k, t, c);
    if run[k].threads[t].pc.Resting? {
      StartsSearch(run[k], t, c, run[k + 1]);
    } else {
      StillSearches(run[k], t, c, run[k + 1]);
    }
  }

  lemma AloneSearch(run: seq<World>, i: nat, j: nat, t: nat, c: Choice)
    requires i < j && j + 1 < |run| && AloneFrom(run, i, t, c)
    requires t < |run[i].threads| && run[i].threads[t].pc.Resting?
    ensures LastRest(run, j, t) == i && BegunWith(run, j, t, c)
  {
    forall k: nat | i < k <= j ensures Busy(run, k, t) {
      BusyAlone(run, i, k, t, c);
    }
    LastRestIs(run, i, j, t);
    assert AloneAt(run, i, i, t, c);
  }

  lemma StillSearches(w: World, t: nat, c: Choice, w': World)
    requires Taken(w, t, c, w') && InSearch(w.threads[t].pc)
    ensures t < |w'.threads| && (InSearch(w'.threads[t].pc) || w'.threads[t].pc.Resting?) && w'.tb == w.tb
  {
  }

  lemma OnlyReturns(w: World, t: nat, c: Choice, w': World)
    requires Taken(w, t, c, w') && InSearch(w.threads[t].pc) && t < |w'.threads| && w'.threads[t].pc.Resting?
    ensures w.threads[t].pc.Returned?
  {
  }

  lemma {:induction false} SearchTable(run: seq<World>, i: nat, k: nat, t: nat, c: Choice)
    requires Legal(run) && i <= k < |run| && AloneFrom(run, i, t, c) && c.search
    requires t < |run[i].threads| && run[i].threads[t].pc.Resting?
    ensures run[k].tb == run[i].tb
  {
    if i < k {
      SearchTable(run, i, k - 1, t, c);
      assert AloneAt(run, i, k - 1, t, c);
      if k - 1 > i {
        AloneSearches(run, i, k - 1, t, c);
        StillSearches(run[k - 1], t, c, run[k]);
      }
    }
  }

  /** There are runs of every size to begin with. */
  lemma FirstRun(buckets: nat, nodes: nat, threads: nat) returns (run: seq<World>)
    requires threads <= MAX_THREAD
    ensures Legal(run) && |run| == 1 && |run[0].threads| == threads
    ensures |run[0].tb.heads| == buckets && |run[0].tb.mem| == nodes
  {
    var tb := Table(seq(buckets, _ => None), seq(nodes, _ => Node(0, None, 0, 0)), seq(nodes, _ => Free));
    var th := Thread(Resting, 0, 0, Head, 0, [], false, false, 0, 0, 0);
    run := [World(tb, seq(H, _ => None), seq(threads, _ => th), seq(buckets, _ => None))];
  }
}
