/** What a writer does that runs alone: from every reachable state it completes its
    call within a bounded number of steps, unless another writer holds its bucket.
    A call that runs alone from start to end does what a call on a set does. */
module WorldAlone {
  import opened Buckets
  import opened ListWriter
  import opened Progress
  import opened Worlds
  import opened Calls
  import opened WorldCalls
  import opened Writers

  // ----- how many steps are left

  /** Steps of list operation `op` before the bucket is let go. */
  ghost function OpLeft(tb: Table, b: nat, op: Op): nat {
    match op
    case Idle(_) => 1
    case Walking(_, _, prev, _) => 6 + |Ahead(tb, b, prev)|
    case Unlinking(_, _, _) => 4
    case Reclaiming(_, stage) => if stage == 0 then 3 else 2
    case Allocating(_, _, _) => 5
    case Keying(_, _, _, _) => 4
    case Linking(_, _, _, _) => 3
    case Publishing(_, _, _, _) => 2
  }

  ghost function StepsLeft(w: World, th: Thread): nat {
    match th
    case Resting => 0
    case Probing(_, _) => |w.tb.mem| + 10
    case Spinning(_, _, _) => |w.tb.mem| + 9
    case Trying(b, _, _, seen) => |w.tb.mem| + if b < |w.count| && w.count[b] == seen then 8 else 10
    case Entered(_, _, _) => |w.tb.mem| + 7
    case Inside(b, op) => OpLeft(w.tb, b, op)
    case Freeing(_, _) => 1
  }

  /** No other thread holds the bucket that thread `t` wants to lock. */
  predicate Unhindered(w: World, t: nat) {
    && t < |w.threads|
    && match w.threads[t]
       case Probing(b, _) => b < |w.holder| && w.holder[b] == None
       case Spinning(b, _, _) => b < |w.holder| && w.holder[b] == None
       case Trying(b, _, _, _) => b < |w.holder| && w.holder[b] == None
       case _ => true
  }

  predicate MayAllocate(th: Thread) {
    match th
    case Spinning(_, del, _) => !del
    case Trying(_, del, _, _) => !del
    case Entered(_, del, _) => !del
    case Inside(_, op) => (op.Walking? && !op.del) || op.Allocating?
    case _ => false
  }

  /** The allocator has the node `c.node` for a thread that may need one. */
  predicate Supplied(w: World, th: Thread, c: Choice) {
    MayAllocate(th) ==> c.node < |w.tb.mem| && c.node < |w.tb.status| && w.tb.status[c.node] == Free
  }

  lemma InsideLowers(w: World, t: nat, c: Choice, w': World)
    requires Inv(w) && WriterStep(w, t, c, w') && w.threads[t].Inside?
    ensures t < |w'.threads| && StepsLeft(w', w'.threads[t]) < StepsLeft(w, w.threads[t])
    ensures w'.threads[t].Resting? || w'.threads[t].Inside? || w'.threads[t].Freeing?
    ensures MayAllocate(w'.threads[t]) ==> MayAllocate(w.threads[t]) && w'.tb == w.tb
  {
    assert ThreadOk(w, t);
    if w.threads[t].op.Walking? {
      if WalkNext(w.tb, w.threads[t].op).Walking? {
        HopShortens(w.tb, w.threads[t].b, t, w.threads[t].op);
      }
    }
  }

  lemma StepLowers(w: World, t: nat, c: Choice, w': World)
    requires Inv(w) && WriterStep(w, t, c, w') && !w.threads[t].Resting?
    requires Unhindered(w, t) && Supplied(w, w.threads[t], c)
    ensures Unhindered(w', t) && Supplied(w', w'.threads[t], c)
    ensures StepsLeft(w', w'.threads[t]) < StepsLeft(w, w.threads[t])
  {
    assert ThreadOk(w, t);
    match w.threads[t] {
      case Inside(_, _) => InsideLowers(w, t, c, w');
      case Spinning(b, _, _) => assert HolderOk(w, b);
      case Entered(b, _, _) => AheadIsFew(w.tb, b, Head);
      case _ =>
    }
  }

  // ----- runs

  /** From instant `i` on only thread `t` steps, always with the choice `c`, and
      begins no call after that instant. */
  ghost predicate AloneFrom(run: seq<World>, i: nat, t: nat, c: Choice) {
    forall k: nat :: i <= k ==> AloneAt(run, i, k, t, c)
  }

  ghost predicate AloneAt(run: seq<World>, i: nat, k: nat, t: nat, c: Choice) {
    k + 1 < |run| ==> WriterStep(run[k], t, c, run[k + 1]) && (k > i ==> !run[k].threads[t].Resting?)
  }

  lemma Longer(run: seq<World>, t: nat, c: Choice)
    requires Legal(run) && Enabled(Last(run), t, c)
    ensures Legal(run + [Next(Last(run), t, c)])
  {
    var more := run + [Next(Last(run), t, c)];
    assert more[0] == run[0];
    forall i: nat ensures StepAt(more, i) {
      assert StepAt(run, i);
      if i + 1 == |run| {
        assert WriterStep(more[i], t, c, more[i + 1]);
      }
    }
  }

  /** The thread's call is over at the end of `more`, and from the end of `run` on
      nobody else moved. */
  ghost predicate CompletedAlone(run: seq<World>, more: seq<World>, t: nat, c: Choice) {
    && 0 < |run| < |more| && run == more[..|run|] && Legal(more)
    && AloneFrom(more, |run| - 1, t, c) && t < |Last(more).threads| && Last(more).threads[t].Resting?
  }

  lemma CompletedLater(run: seq<World>, t: nat, c: Choice, w': World, more: seq<World>)
    requires |run| > 0 && CompletedAlone(run + [w'], more, t, c)
    requires WriterStep(Last(run), t, c, w') && t < |w'.threads| && !w'.threads[t].Resting?
    ensures CompletedAlone(run, more, t, c)
  {
    assert more[|run| - 1] == Last(run) && more[|run|] == w';
    var i := |run| - 1;
    forall k: nat | i <= k ensures AloneAt(more, i, k, t, c) {
      if k > i {
        assert AloneAt(more, |run|, k, t, c);
      }
    }
  }

  /** From every reachable state a writer that runs alone completes its call, within
      `StepsLeft` steps. */
  lemma {:induction false} Completes(run: seq<World>, t: nat, c: Choice) returns (more: seq<World>)
    requires Legal(run) && t < |Last(run).threads| && !Last(run).threads[t].Resting?
    requires Unhindered(Last(run), t) && Supplied(Last(run), Last(run).threads[t], c)
    ensures CompletedAlone(run, more, t, c) && |more| <= |run| + StepsLeft(Last(run), Last(run).threads[t])
    decreases StepsLeft(Last(run), Last(run).threads[t])
  {
    var w := Last(run);
    RunInv(run, |run| - 1);
    NeverStuck(w, t, c);
    var w' := Next(w, t, c);
    StepLowers(w, t, c, w');
    Longer(run, t, c);
    if w'.threads[t].Resting? {
      more := run + [w'];
    } else {
      more := Completes(run + [w'], t, c);
      CompletedLater(run, t, c, w', more);
    }
  }

  /** The bound as a number of steps. */
  lemma FewSteps(w: World, t: nat)
    requires Inv(w) && t < |w.threads|
    ensures StepsLeft(w, w.threads[t]) <= |w.tb.mem| + 10
  {
    if w.threads[t].Inside? && w.threads[t].op.Walking? {
      AheadIsFew(w.tb, w.threads[t].b, w.threads[t].op.prev);
    }
  }

  /** A call begun now, and completed alone. */
  lemma BeginsAndCompletes(run: seq<World>, t: nat, c: Choice) returns (more: seq<World>)
    requires Legal(run) && t < |Last(run).threads| && Last(run).threads[t].Resting?
    requires c.b < |Last(run).holder| && Last(run).holder[c.b] == None
    requires !c.del ==>
               c.node < |Last(run).tb.mem| && c.node < |Last(run).tb.status| && Last(run).tb.status[c.node] == Free
    ensures CompletedAlone(run, more, t, c) && |run| + 1 < |more| <= |run| + |Last(run).tb.mem| + 11
  {
    var w := Last(run);
    RunInv(run, |run| - 1);
    NeverStuck(w, t, c);
    var w' := Next(w, t, c);
    Longer(run, t, c);
    RunInv(run + [w'], |run|);
    StartsFree(w, t, c);
    FewSteps(w', t);
    more := Completes(run + [w'], t, c);
    CompletedLater(run, t, c, w', more);
  }

  /** A call that runs alone from a free bucket returns, within |pool| + 11 steps.  It
      returns 1 exactly if the key was there (delete) or was not (insert), and what it
      leaves is the old set without or with the key. */
  lemma CallAlone(run: seq<World>, t: nat, c: Choice) returns (more: seq<World>)
    requires Legal(run) && t < |Last(run).threads| && Last(run).threads[t].Resting?
    requires c.b < |Last(run).holder| && Last(run).holder[c.b] == None
    requires !c.del ==>
               c.node < |Last(run).tb.mem| && c.node < |Last(run).tb.status| && Last(run).tb.status[c.node] == Free
    ensures CompletedAlone(run, more, t, c) && |run| + 1 < |more| <= |run| + |Last(run).tb.mem| + 11
    ensures var p := ViewOf(more[|more| - 2], t).phase;
            Returns(p) <==> (Has(Last(run).tb, c.b, c.key) <==> c.del)
    ensures Applied(Last(run).tb, Last(more).tb, c.b, c.del, c.key)
  {
    more := BeginsAndCompletes(run, t, c);
    assert more[|run| - 1] == Last(run);
    RunInv(run, |run| - 1);
    AloneTells(more, |run| - 1, t, c);
  }

  lemma StartsFree(w: World, t: nat, c: Choice)
    requires Inv(w) && Enabled(w, t, c) && w.threads[t].Resting? && w.holder[c.b] == None
    requires !c.del ==> c.node < |w.tb.mem| && w.tb.status[c.node] == Free
    ensures var w' := Next(w, t, c);
            && t < |w'.threads| && !w'.threads[t].Resting? && |w'.tb.mem| == |w.tb.mem|
            && Unhindered(w', t) && Supplied(w', w'.threads[t], c)
  {
  }

  /** What a call tells that began after instant `i` and ran alone to the end. */
  lemma AloneTells(run: seq<World>, i: nat, t: nat, c: Choice)
    requires Legal(run) && i + 2 < |run| && AloneFrom(run, i, t, c) && t < |run[i].threads| && run[i].threads[t].Resting?
    requires t < |Last(run).threads| && Last(run).threads[t].Resting? && c.b < |run[i].tb.heads|
    ensures var p := ViewOf(run[|run| - 2], t).phase;
            Returns(p) <==> (Has(run[i].tb, c.b, c.key) <==> c.del)
    ensures Applied(run[i].tb, Last(run).tb, c.b, c.del, c.key)
  {
    var vs, j := Views(run, t), |run| - 2;
    BusyAlone(run, i, j, t, c);
    AloneStart(run, i, j, t, c);
    ReturnTells(run, j, t, c);
    forall k: nat | i <= k < j + 1 ensures QuietAt(vs, k, c.b) {
      QuietAlone(run, i, k, t, c);
    }
    UndisturbedCall(vs, j, c.b, c.del, c.key);
    assert vs[i] == ViewOf(run[i], t) && vs[j] == ViewOf(run[j], t) && vs[j + 1] == ViewOf(run[j + 1], t);
  }

  lemma BusyAlone(run: seq<World>, i: nat, k: nat, t: nat, c: Choice)
    requires AloneFrom(run, i, t, c) && i < k && k + 1 < |run|
    ensures t < |run[k].threads| && !run[k].threads[t].Resting?
  {
    assert AloneAt(run, i, k, t, c);
  }

  lemma QuietAlone(run: seq<World>, i: nat, k: nat, t: nat, c: Choice)
    requires Legal(run) && AloneFrom(run, i, t, c) && i <= k && k + 1 < |run| && c.b < |run[i].tb.heads|
    ensures QuietAt(Views(run, t), k, c.b)
  {
    var vs := Views(run, t);
    assert AloneAt(run, i, k, t, c);
    RunInv(run, k);
    RunInv(run, i);
    StepChangesSet(run[k], t, c, run[k + 1], c.b);
    StoreIsOwn(run[k], t, c, run[k + 1], c.b);
    assert vs[k] == ViewOf(run[k], t) && vs[k + 1] == ViewOf(run[k + 1], t);
  }

  lemma StoreIsOwn(w: World, t: nat, c: Choice, w': World, b: nat)
    requires WriterStep(w, t, c, w')
    ensures var op := Stepping(w, t, b);
            op.Unlinking? || op.Publishing? ==>
              ViewOf(w, t).phase == Working(b, op) && ViewOf(w', t).phase != ViewOf(w, t).phase
  {
  }

  lemma AloneStart(run: seq<World>, i: nat, j: nat, t: nat, c: Choice)
    requires i < j && j + 1 < |run| && AloneFrom(run, i, t, c)
    requires t < |run[i].threads| && run[i].threads[t].Resting?
    ensures CallStart(Views(run, t), j) == i && CalledWith(run, j, t, c)
  {
    var vs := Views(run, t);
    assert vs[i] == ViewOf(run[i], t);
    forall k: nat | i < k <= j ensures InsideAt(vs, k) {
      BusyAlone(run, i, k, t, c);
      assert vs[k] == ViewOf(run[k], t);
    }
    CallStartIs(vs, i, j);
    assert AloneAt(run, i, i, t, c);
  }

  /** There are runs of every scheme and size to begin with. */
  lemma FirstRun(scheme: Scheme, buckets: nat, nodes: nat, threads: nat) returns (run: seq<World>)
    ensures Legal(run) && |run| == 1 && run[0].scheme == scheme && |run[0].threads| == threads
    ensures |run[0].tb.heads| == buckets && |run[0].tb.mem| == nodes
  {
    var tb := Table(seq(buckets, _ => None), seq(nodes, _ => Node(0, None, 0, 0)), seq(nodes, _ => Free));
    run := [World(scheme, tb, seq(buckets, _ => 0), seq(threads, _ => Resting), seq(buckets, _ => None))];
  }
}
