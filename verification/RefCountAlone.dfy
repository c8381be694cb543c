/** What a thread does under reference counting that runs alone: from every reachable
    state it completes its search, insert or delete, with all the decrements and frees
    this entails, within a bounded number of steps.  A call that runs alone from start
    to end does what a call on a set does. */
module RefCountAlone {
  import opened Buckets
  import opened ListWriter
  import opened Sequences
  import opened Progress
  import opened RefCounts
  import opened RefCountInvariants
  import opened RefCountSteps
  import opened RefCountRuns
  import opened RefCountHistory
  import opened RefCountReaders
  import opened RefCountSafety
  import opened RefCountCalls
  import C = Calls

  // ----- how many steps are left

  /** The nodes a search may still come to: not dying, with keys above that of the node
      it holds. */
  ghost function Live(w: World, hold: Option<Ref>): set<Ref> {
    set n: Ref | n < |w.tb.mem| && n < |w.tb.status| && OnceLinked(w.tb.status[n])
        && (hold.Some? && hold.value < |w.tb.mem| ==> w.tb.mem[hold.value].key < w.tb.mem[n].key)
  }

  ghost function RetiredNodes(w: World): set<Ref> {
    set n: Ref | n < |w.tb.mem| && n < |w.tb.status| && w.tb.status[n].Retired?
  }

  /** The work a decrement can cause: a retired node may have to be entered, and a node
      on the stack has to be freed. */
  ghost function Debt(w: World, th: Thread): nat {
    5 * |RetiredNodes(w)| + |th.dying|
  }

  /** Steps after a decrement. */
  ghost function AfterLeft(w: World, th: Thread): nat {
    match th.after
    case ReadAgain => 8 * |Live(w, th.hold)| + 5
    case Advance => if th.hold.Some? then 8 * |Live(w, th.hold)| + 6 else 1
    case Answer(_) => 1
    case EndDelete => 0
  }

  ghost function OpLeft(tb: Table, b: nat, op: Op): nat {
    match op
    case Idle(_) => 1
    case Walking(_, _, prev, _) => 11 + |Ahead(tb, b, prev)|
    case Unlinking(_, _, _) => 10
    case Reclaiming(_, _) => 9
    case Allocating(_, _, _) => 5
    case Keying(_, _, _, _) => 3
    case Linking(_, _, _, _) => 2
    case Publishing(_, _, _, _) => 1
  }

  /** The link the search is reading still leads to `q`. */
  predicate Fresh(w: World, th: Thread, q: Option<Ref>) {
    LocOk(w.tb, th.b, ReadLoc(th)) && Load(w.tb, th.b, ReadLoc(th)) == q
  }

  predicate Unmoved(w: World, q: Ref, seen: nat) {
    q < |w.tb.mem| && w.tb.mem[q].rc == seen
  }

  ghost function PcLeft(w: World, th: Thread): nat {
    match th.pc
    case Resting => 0
    case Reading => 8 * |Live(w, th.hold)| + 5
    case Counting(q) => 8 * |Live(w, th.hold)| + if Fresh(w, th, Some(q)) then 4 else 11
    case Raising(q, seen) =>
      8 * |Live(w, th.hold)|
      + if Fresh(w, th, Some(q)) then (if Unmoved(w, q, seen) then 3 else 5) else if Unmoved(w, q, seen) then 10 else 12
    case Rechecking => 8 * |Live(w, th.hold)| + if Fresh(w, th, th.grab) then 2 else 9
    case Comparing => 8 * |Live(w, th.hold)| + 6
    case Asserting => 3 + AfterLeft(w, th)
    case Lowering => 2 + AfterLeft(w, th)
    case Bumping => 5 + AfterLeft(w, th)
    case Following => 4 + AfterLeft(w, th)
    case Unwinding => 1 + AfterLeft(w, th)
    case Returned(_) => 1
    case Initialising(_) => 4
    case Writing(op) => OpLeft(w.tb, th.b, op)
  }

  ghost function StepsLeft(w: World, th: Thread): nat {
    if th.pc.Resting? then 0 else Debt(w, th) + PcLeft(w, th)
  }

  predicate MayAllocate(pc: Pc) {
    pc.Writing? && ((pc.op.Walking? && !pc.op.del) || pc.op.Allocating?)
  }

  /** The allocator has the node `c.node` for a thread that may need one. */
  predicate Supplied(w: World, pc: Pc, c: Choice) {
    MayAllocate(pc) ==> c.node < |w.tb.mem| && c.node < |w.tb.status| && w.tb.status[c.node] == Free
  }

  // ----- the search

  /** What a search finds behind its link is alive, counted, and beyond the node held. */
  lemma NextIsLive(run: seq<World>, w: World, th: Thread, q: Ref)
    requires Inv(w) && Memories(run, w) && th.b < |w.tb.heads| && Fresh(w, th, Some(q))
    requires th.hold.Some? ==> InOrWas(w, th.hold.value, th.b, th.start)
    ensures q in Live(w, th.hold) && w.tb.mem[q].rc > 0
  {
    assert BucketOk(w.tb, th.b);
    if th.hold.Some? && OffTheList(w.tb.status[th.hold.value]) {
      assert Remembers(run, w, th.hold.value);
    } else {
      var low := if th.hold.Some? then Some(w.tb.mem[th.hold.value].key) else None;
      assert First(w.tb, th.b, low, Some(q));
    }
    ZeroIff(w, q);
  }

  /** Holding the next node leaves it behind. */
  lemma LiveShrinks(w: World, hold: Option<Ref>, q: Ref)
    requires q in Live(w, hold)
    ensures |Live(w, Some(q))| < |Live(w, hold)|
  {
    Fewer(Live(w, Some(q)), Live(w, hold), q);
  }

  /** A step that changes neither keys nor stages. */
  lemma SameLive(w: World, w': World, hold: Option<Ref>)
    requires w'.tb.status == w.tb.status && |w'.tb.mem| == |w.tb.mem|
    requires forall n: Ref :: n < |w.tb.mem| ==> w'.tb.mem[n].key == w.tb.mem[n].key
    ensures Live(w', hold) == Live(w, hold) && RetiredNodes(w') == RetiredNodes(w)
  {
  }

  lemma ReadLowers(run: seq<World>, w: World, t: nat)
    requires Reader(run, w, t) && w.threads[t].pc.Reading?
    ensures LocOk(w.tb, w.threads[t].b, ReadLoc(w.threads[t]))
    ensures StepsLeft(ReadNext(w, t), ReadNext(w, t).threads[t]) < StepsLeft(w, w.threads[t])
  {
    assert ThreadOk(w, t);
    SameLive(w, ReadNext(w, t), w.threads[t].hold);
  }

  lemma CountLowers(run: seq<World>, w: World, t: nat, q: Ref)
    requires Reader(run, w, t) && w.threads[t].pc == Counting(q)
    ensures q < |w.tb.mem|
    ensures StepsLeft(CountNext(w, t, q), CountNext(w, t, q).threads[t]) < StepsLeft(w, w.threads[t])
  {
    var th := w.threads[t];
    assert ThreadOk(w, t);
    SameLive(w, CountNext(w, t, q), th.hold);
    if Fresh(w, th, Some(q)) {
      NextIsLive(run, w, th, q);
    }
  }

  lemma RaiseLowers(w: World, t: nat, q: Ref, seen: nat)
    requires t < |w.threads| && w.threads[t].pc == Raising(q, seen) && q < |w.tb.mem|
    ensures StepsLeft(RaiseNext(w, t, q, seen), RaiseNext(w, t, q, seen).threads[t]) < StepsLeft(w, w.threads[t])
  {
    SameLive(w, RaiseNext(w, t, q, seen), w.threads[t].hold);
  }

  lemma RecheckLowers(run: seq<World>, w: World, t: nat)
    requires Reader(run, w, t) && w.threads[t].pc.Rechecking?
    ensures LocOk(w.tb, w.threads[t].b, ReadLoc(w.threads[t]))
    ensures StepsLeft(RecheckNext(w, t), RecheckNext(w, t).threads[t]) < StepsLeft(w, w.threads[t])
  {
    var th := w.threads[t];
    assert ThreadOk(w, t);
    SameLive(w, RecheckNext(w, t), th.hold);
    SameLive(w, RecheckNext(w, t), th.grab);
    if Fresh(w, th, th.grab) {
      NextIsLive(run, w, th, th.grab.value);
      LiveShrinks(w, th.hold, th.grab.value);
    }
  }

  lemma CompareLowers(w: World, t: nat)
    requires t < |w.threads| && w.threads[t].pc.Comparing?
    requires w.threads[t].hold.Some? && w.threads[t].hold.value < |w.tb.mem|
    ensures StepsLeft(CompareNext(w, t), CompareNext(w, t).threads[t]) < StepsLeft(w, w.threads[t])
  {
    SameLive(w, CompareNext(w, t), w.threads[t].hold);
  }

  // ----- the decrement

  lemma LowerLowers(w: World, t: nat, p: Ref)
    requires Shaped(w.tb) && t < |w.threads| && w.threads[t].pc.Lowering? && p < |w.tb.mem| && w.tb.mem[p].rc > 0
    requires w.tb.mem[p].rc == 1 ==> w.tb.status[p].Retired?
    ensures StepsLeft(LowerNext(w, t, p), LowerNext(w, t, p).threads[t]) < StepsLeft(w, w.threads[t])
  {
    var w' := LowerNext(w, t, p);
    var hold := w.threads[t].hold;
    if w.tb.mem[p].rc == 1 {
      Killed(w, w', p, Dying(t), hold);
    } else {
      SameLive(w, w', hold);
    }
  }

  /** A retired node starts to die. */
  lemma Killed(w: World, w': World, p: Ref, s: Status, hold: Option<Ref>)
    requires Shaped(w.tb) && p < |w.tb.mem| && w.tb.status[p].Retired?
    requires |w'.tb.mem| == |w.tb.mem| && s.Dying? && w'.tb.status == w.tb.status[p := s]
    requires forall n: Ref :: n < |w.tb.mem| ==> w'.tb.mem[n].key == w.tb.mem[n].key
    ensures |RetiredNodes(w')| == |RetiredNodes(w)| - 1 && |Live(w', hold)| <= |Live(w, hold)|
  {
    assert RetiredNodes(w') == RetiredNodes(w) - {p};
    Shrinks(Live(w', hold), Live(w, hold));
  }

  lemma Shrinks(x: set<Ref>, y: set<Ref>)
    requires x <= y
    ensures |x| <= |y|
  {
    assert y == x + (y - x);
  }

  lemma BumpLowers(w: World, t: nat, p: Ref)
    requires t < |w.threads| && p < |w.tb.mem| && w.threads[t].pc.Bumping?
    ensures StepsLeft(BumpNext(w, t, p), BumpNext(w, t, p).threads[t]) < StepsLeft(w, w.threads[t])
  {
    SameLive(w, BumpNext(w, t, p), w.threads[t].hold);
  }

  /** A node on its way out takes its next step. */
  lemma DiesOn(w: World, w': World, p: Ref, s: Status, hold: Option<Ref>)
    requires Shaped(w.tb) && p < |w.tb.mem| && (w.tb.status[p].Dying? || w.tb.status[p].Dead?)
    requires w'.tb == SetStatus(w.tb, p, s) && (s.Dead? || s.Free?)
    ensures RetiredNodes(w') == RetiredNodes(w) && Live(w', hold) == Live(w, hold)
  {
  }

  lemma FollowLowers(w: World, t: nat, p: Ref)
    requires Shaped(w.tb) && t < |w.threads| && w.threads[t].pc.Following? && p < |w.tb.mem| && w.tb.status[p].Dying?
    ensures StepsLeft(FollowNext(w, t, p), FollowNext(w, t, p).threads[t]) < StepsLeft(w, w.threads[t])
  {
    DiesOn(w, FollowNext(w, t, p), p, Dead(t), w.threads[t].hold);
  }

  lemma UnwindLowers(w: World, t: nat)
    requires Shaped(w.tb) && t < |w.threads| && w.threads[t].pc.Unwinding? && w.threads[t].b < |w.writer|
    requires var dying := w.threads[t].dying;
             |dying| > 0 ==> Last(dying) < |w.tb.status| && w.tb.status[Last(dying)].Dead?
    ensures StepsLeft(UnwindNext(w, t), UnwindNext(w, t).threads[t]) < StepsLeft(w, w.threads[t])
  {
    var th := w.threads[t];
    if |th.dying| > 0 {
      DiesOn(w, UnwindNext(w, t), Last(th.dying), Free, th.hold);
    } else {
      SameLive(w, UnwindNext(w, t), th.hold);
    }
  }

  // ----- the writer

  lemma WriteLowers(w: World, t: nat, c: Choice)
    requires Inv(w) && Enabled(w, t, c) && w.threads[t].pc.Writing?
    ensures t < |Act(w, t, c).threads|
    ensures StepsLeft(Act(w, t, c), Act(w, t, c).threads[t]) < StepsLeft(w, w.threads[t])
  {
    assert ThreadOk(w, t);
    match w.threads[t].pc.op {
      case Walking(_, _, _, _) => WalkLowers(w, t);
      case Reclaiming(n, _) =>
        RecountDebt(w, t, n);
      case _ =>
        WriteDebt(w, t, c);
        OtherWriteLowers(w, t, c);
    }
  }

  lemma WalkLowers(w: World, t: nat)
    requires Inv(w) && t < |w.threads| && w.threads[t].pc.Writing? && w.threads[t].pc.op.Walking?
    ensures var th := w.threads[t];
            var th' := th.(pc := Writing(WalkNext(w.tb, th.pc.op)));
            StepsLeft(SetThread(w, t, th'), th') < StepsLeft(w, th)
  {
    var th := w.threads[t];
    assert ThreadOk(w, t);
    SameLive(w, SetThread(w, t, th.(pc := Writing(WalkNext(w.tb, th.pc.op)))), None);
    if WalkNext(w.tb, th.pc.op).Walking? {
      HopShortens(w.tb, th.b, t, th.pc.op);
    }
  }

  lemma OtherWriteLowers(w: World, t: nat, c: Choice)
    requires Enabled(w, t, c) && w.threads[t].pc.Writing? && w.threads[t].dying == []
    requires !w.threads[t].pc.op.Reclaiming? && !w.threads[t].pc.op.Walking?
    requires |RetiredNodes(Act(w, t, c))| <= |RetiredNodes(w)|
    ensures t < |Act(w, t, c).threads|
    ensures StepsLeft(Act(w, t, c), Act(w, t, c).threads[t]) < StepsLeft(w, w.threads[t])
  {
  }

  lemma WriteDebt(w: World, t: nat, c: Choice)
    requires Inv(w) && Enabled(w, t, c) && w.threads[t].pc.Writing?
    requires !w.threads[t].pc.op.Reclaiming?
    ensures |RetiredNodes(Act(w, t, c))| <= |RetiredNodes(w)|
  {
    assert ThreadOk(w, t);
    WriteSize(w, t, c);
    Shrinks(RetiredNodes(Act(w, t, c)), RetiredNodes(w));
  }

  /** The unlinked node becomes a retired one. */
  lemma RecountDebt(w: World, t: nat, n: Ref)
    requires Shaped(w.tb) && t < |w.threads| && n < |w.tb.mem| && OptOk(w, w.tb.mem[n].next)
    requires !w.tb.status[n].Retired?
    ensures |RetiredNodes(RecountNext(w, t, n))| == |RetiredNodes(w)| + 1
  {
    var after := RetiredNodes(RecountNext(w, t, n));
    forall m: Ref ensures m in after <==> m in RetiredNodes(w) + {n} {}
    assert after == RetiredNodes(w) + {n};
  }

  /** Only a thread that may need a node comes to need one. */
  lemma StaysSupplied(w: World, t: nat, c: Choice)
    requires Enabled(w, t, c) && !w.threads[t].pc.Resting? && t < |Act(w, t, c).threads|
    ensures MayAllocate(Act(w, t, c).threads[t].pc) ==> MayAllocate(w.threads[t].pc) && Act(w, t, c).tb == w.tb
  {
    if InDec(w.threads[t].pc) {
      DecSuppliesNone(w, t, c);
    }
  }

  lemma DecSuppliesNone(w: World, t: nat, c: Choice)
    requires Enabled(w, t, c) && InDec(w.threads[t].pc) && t < |Act(w, t, c).threads|
    ensures !MayAllocate(Act(w, t, c).threads[t].pc)
  {
  }

  lemma InitLowers(w: World, t: nat, n: Ref)
    requires t < |w.threads| && n < |w.tb.mem| && w.threads[t].pc.Initialising? && w.threads[t].pc.op.Keying?
    ensures StepsLeft(InitNext(w, t, n), InitNext(w, t, n).threads[t]) < StepsLeft(w, w.threads[t])
  {
    SameLive(w, InitNext(w, t, n), None);
  }

  /** Every step of a thread brings it closer to the end of its call. */
  lemma StepLowers(run: seq<World>, w: World, t: nat, c: Choice)
    requires Inv(w) && Memories(run, w) && ReadersOk(run, w) && Enabled(w, t, c) && w.now + 1 < |run| && run[w.now] == w
    requires !w.threads[t].pc.Resting?
    ensures t < |Act(w, t, c).threads|
    ensures StepsLeft(Act(w, t, c), Act(w, t, c).threads[t]) < StepsLeft(w, w.threads[t])
  {
    SameShape(w, t, c);
    PcCases(w.threads[t].pc);
    var pc := w.threads[t].pc;
    if pc.Writing? {
      WriteLowers(w, t, c);
    } else if pc.Initialising? {
      InitLowers(w, t, pc.op.node);
    } else if InDec(pc) {
      DecLowers(w, t, c);
    } else if Searching(pc) {
      assert Reader(run, w, t);
      SearchLowers(run, w, t, c);
    }
  }

  lemma DecLowers(w: World, t: nat, c: Choice)
    requires Inv(w) && Enabled(w, t, c) && InDec(w.threads[t].pc) && t < |Act(w, t, c).threads|
    ensures StepsLeft(Act(w, t, c), Act(w, t, c).threads[t]) < StepsLeft(w, w.threads[t])
  {
    var th := w.threads[t];
    assert ThreadOk(w, t);
    match th.pc {
      case Asserting => SameLive(w, Act(w, t, c), th.hold);
      case Lowering =>
        if w.tb.mem[th.drop.value].rc == 1 {
          LastUnitRetired(w, t, th.drop.value);
        }
        LowerLowers(w, t, th.drop.value);
      case Bumping => BumpLowers(w, t, Last(th.dying));
      case Following => FollowLowers(w, t, Last(th.dying));
      case Unwinding => UnwindLowers(w, t);
      case _ =>
    }
  }

  lemma SearchLowers(run: seq<World>, w: World, t: nat, c: Choice)
    requires Reader(run, w, t) && Enabled(w, t, c) && Searching(w.threads[t].pc) && t < |Act(w, t, c).threads|
    ensures StepsLeft(Act(w, t, c), Act(w, t, c).threads[t]) < StepsLeft(w, w.threads[t])
  {
    match w.threads[t].pc {
      case Reading => ReadLowers(run, w, t);
      case Counting(q) => CountLowers(run, w, t, q);
      case Raising(q, seen) => RaiseLowers(w, t, q, seen);
      case Rechecking => RecheckLowers(run, w, t);
      case Comparing => CompareLowers(w, t);
      case _ =>
    }
  }

  // ----- runs

  /** From instant `i` on only thread `t` steps, always with the choice `c`, and
      begins no call after that instant. */
  ghost predicate AloneFrom(run: seq<World>, i: nat, t: nat, c: Choice) {
    forall k: nat :: i <= k ==> AloneAt(run, i, k, t, c)
  }

  ghost predicate AloneAt(run: seq<World>, i: nat, k: nat, t: nat, c: Choice) {
    k + 1 < |run| ==> Taken(run[k], t, c, run[k + 1]) && (k > i ==> !run[k].threads[t].pc.Resting?)
  }

  function End(run: seq<World>): World
    requires |run| > 0
  {
    run[|run| - 1]
  }

  lemma Longer(run: seq<World>, t: nat, c: Choice)
    requires Legal(run) && Enabled(End(run), t, c)
    ensures Legal(run + [Next(End(run), t, c)])
  {
    var more := run + [Next(End(run), t, c)];
    assert more[0] == run[0];
    forall i: nat ensures StepAt(more, i) {
      assert StepAt(run, i);
      if i + 1 == |run| {
        assert Taken(more[i], t, c, more[i + 1]);
      }
    }
  }

  /** The thread's call is over at the end of `more`, and from the end of `run` on
      nobody else moved. */
  ghost predicate CompletedAlone(run: seq<World>, more: seq<World>, t: nat, c: Choice) {
    && 0 < |run| < |more| && run == more[..|run|] && Legal(more)
    && AloneFrom(more, |run| - 1, t, c) && t < |End(more).threads| && End(more).threads[t].pc.Resting?
  }

  lemma CompletedLater(run: seq<World>, t: nat, c: Choice, w': World, more: seq<World>)
    requires |run| > 0 && CompletedAlone(run + [w'], more, t, c)
    requires Taken(End(run), t, c, w') && t < |w'.threads| && !w'.threads[t].pc.Resting?
    ensures CompletedAlone(run, more, t, c)
  {
    assert more[|run| - 1] == End(run) && more[|run|] == w';
    var i := |run| - 1;
    forall k: nat | i <= k ensures AloneAt(more, i, k, t, c) {
      if k > i {
        assert AloneAt(more, |run|, k, t, c);
      }
    }
  }

  /** One more step of the thread, in a run. */
  lemma StepOfRun(run: seq<World>, t: nat, c: Choice)
    requires Legal(run) && Enabled(End(run), t, c) && !End(run).threads[t].pc.Resting?
    requires Supplied(End(run), End(run).threads[t].pc, c)
    ensures var w, w' := End(run), Next(End(run), t, c);
            && Legal(run + [w']) && t < |w'.threads| && Supplied(w', w'.threads[t].pc, c)
            && StepsLeft(w', w'.threads[t]) < StepsLeft(w, w.threads[t])
  {
    var more := run + [Next(End(run), t, c)];
    Longer(run, t, c);
    assert more[|run| - 1] == End(run);
    RunFacts(more, |run| - 1);
    StepOfWorld(more, End(run), t, c);
  }

  lemma RunFacts(run: seq<World>, i: nat)
    requires Legal(run) && i < |run|
    ensures Inv(run[i]) && run[i].now == i && Memories(run, run[i]) && ReadersOk(run, run[i])
  {
    RunInv(run, i);
    RunMemories(run, i);
    RunReaders(run, i);
  }

  lemma StepOfWorld(run: seq<World>, w: World, t: nat, c: Choice)
    requires Inv(w) && Memories(run, w) && ReadersOk(run, w) && Enabled(w, t, c) && w.now + 1 < |run| && run[w.now] == w
    requires !w.threads[t].pc.Resting? && Supplied(w, w.threads[t].pc, c)
    ensures var w' := Next(w, t, c);
            && t < |w'.threads| && Supplied(w', w'.threads[t].pc, c)
            && StepsLeft(w', w'.threads[t]) < StepsLeft(w, w.threads[t])
  {
    StepLowers(run, w, t, c);
    StaysSupplied(w, t, c);
    Tick(w, Act(w, t, c), Next(w, t, c), t, c);
  }

  /** The clock matters to none of this. */
  lemma Tick(w: World, v: World, w': World, t: nat, c: Choice)
    requires w' == v.(now := w.now + 1) && t < |w.threads| && t < |v.threads| && Supplied(w, w.threads[t].pc, c)
    requires MayAllocate(v.threads[t].pc) ==> MayAllocate(w.threads[t].pc) && v.tb == w.tb
    ensures Supplied(w', w'.threads[t].pc, c) && StepsLeft(w', w'.threads[t]) == StepsLeft(v, v.threads[t])
  {
    SameLive(v, w', v.threads[t].hold);
  }

  /** From every reachable state a thread that runs alone completes its call, within
      `StepsLeft` steps. */
  lemma {:induction false} Completes(run: seq<World>, t: nat, c: Choice) returns (more: seq<World>)
    requires Legal(run) && t < |End(run).threads| && !End(run).threads[t].pc.Resting?
    requires Supplied(End(run), End(run).threads[t].pc, c)
    ensures CompletedAlone(run, more, t, c) && |more| <= |run| + StepsLeft(End(run), End(run).threads[t])
    decreases StepsLeft(End(run), End(run).threads[t])
  {
    RunInv(run, |run| - 1);
    NeverStuck(End(run), t, c);
    var w' := Next(End(run), t, c);
    StepOfRun(run, t, c);
    if w'.threads[t].pc.Resting? {
      more := run + [w'];
    } else {
      more := Completes(run + [w'], t, c);
      CompletedLater(run, t, c, w', more);
    }
  }

  // ----- the bound as a number of steps

  lemma StackIsShort(w: World, t: nat)
    requires Inv(w) && t < |w.threads|
    ensures |w.threads[t].dying| <= |w.tb.mem| + 1
  {
    assert ThreadOk(w, t);
    var s := Dropped(w.threads[t]);
    var all := seq(|w.tb.mem|, i requires 0 <= i < |w.tb.mem| => i);
    forall k | 0 <= k < |s| ensures s[k] in all {
      assert all[s[k]] == s[k];
    }
    DistinctWithin<int>(s, all);
  }

  lemma FewSteps(w: World, t: nat)
    requires Inv(w) && t < |w.threads|
    ensures StepsLeft(w, w.threads[t]) <= 14 * |w.tb.mem| + 13
  {
    var th := w.threads[t];
    Within(RetiredNodes(w), |w.tb.mem|);
    Within(Live(w, th.hold), |w.tb.mem|);
    StackIsShort(w, t);
    if th.pc.Writing? && th.pc.op.Walking? {
      AheadIsFew(w.tb, th.b, th.pc.op.prev);
    }
  }

  // ----- calls from start to end

  lemma Begins(w: World, t: nat, c: Choice, w': World)
    requires Taken(w, t, c, w') && w.threads[t].pc.Resting?
    requires !c.search && !c.del ==> c.node < |w.tb.mem| && w.tb.status[c.node] == Free
    ensures t < |w'.threads| && w'.tb == w.tb && !w'.threads[t].pc.Resting? && Supplied(w', w'.threads[t].pc, c)
    ensures if c.search then InSearch(w'.threads[t]) else IsWriter(w'.threads[t])
  {
  }

  /** A call begun now, and completed alone. */
  lemma BeginsAndCompletes(run: seq<World>, t: nat, c: Choice) returns (more: seq<World>)
    requires Legal(run) && t < |End(run).threads| && End(run).threads[t].pc.Resting?
    requires c.b < |End(run).writer| && (c.search || End(run).writer[c.b] == None)
    requires !c.search && !c.del ==>
               c.node < |End(run).tb.mem| && c.node < |End(run).tb.status| && End(run).tb.status[c.node] == Free
    ensures CompletedAlone(run, more, t, c) && |run| + 1 < |more| <= |run| + 14 * |End(run).tb.mem| + 14
  {
    var w := End(run);
    RunInv(run, |run| - 1);
    NeverStuck(w, t, c);
    var w' := Next(w, t, c);
    Longer(run, t, c);
    RunInv(run + [w'], |run|);
    Begins(w, t, c, w');
    FewSteps(w', t);
    more := Completes(run + [w'], t, c);
    CompletedLater(run, t, c, w', more);
  }

  lemma BusyAlone(run: seq<World>, i: nat, k: nat, t: nat, c: Choice)
    requires AloneFrom(run, i, t, c) && i < k && k + 1 < |run|
    ensures t < |run[k].threads| && !run[k].threads[t].pc.Resting?
  {
    assert AloneAt(run, i, k, t, c);
  }

  lemma {:induction false} AloneWrites(run: seq<World>, i: nat, j: nat, t: nat, c: Choice)
    requires Legal(run) && i < j && j + 1 < |run| && AloneFrom(run, i, t, c) && !c.search
    requires t < |run[i].threads| && run[i].threads[t].pc.Resting?
    ensures t < |run[j].threads| && IsWriter(run[j].threads[t])
  {
    if i + 1 < j {
      AloneWrites(run, i, j - 1, t, c);
    }
    BusyAlone(run, i, j, t, c);
    WritesOn(run, i, j - 1, t, c);
  }

  lemma WritesOn(run: seq<World>, i: nat, k: nat, t: nat, c: Choice)
    requires Legal(run) && i <= k && k + 1 < |run| && AloneFrom(run, i, t, c) && !c.search
    requires t < |run[k].threads| && (run[k].threads[t].pc.Resting? || IsWriter(run[k].threads[t]))
    requires t < |run[k + 1].threads| && !run[k + 1].threads[t].pc.Resting?
    ensures IsWriter(run[k + 1].threads[t])
  {
    assert AloneAt(run, i, k, t, c);
    RunInv(run, k);
    if run[k].threads[t].pc.Resting? {
      StartsSearch(run[k], t, c, run[k + 1]);
    } else {
      WriterStays(run[k], t, c, run[k + 1]);
    }
  }

  lemma WriterStays(w: World, t: nat, c: Choice, w': World)
    requires Inv(w) && Taken(w, t, c, w') && IsWriter(w.threads[t])
    ensures t < |w'.threads| && (IsWriter(w'.threads[t]) || w'.threads[t].pc.Resting?)
  {
    SameShape(w, t, c);
    WriterKeepsOut(w, t, c);
  }

  lemma AloneCall(run: seq<World>, i: nat, j: nat, t: nat, c: Choice)
    requires Legal(run) && i < j && j + 1 < |run| && AloneFrom(run, i, t, c) && !c.search
    requires t < |run[i].threads| && run[i].threads[t].pc.Resting?
    ensures C.CallStart(Views(run, t), j) == i && CalledWith(run, j, t, c)
  {
    var vs := Views(run, t);
    assert vs[i] == ViewOf(run[i], t);
    forall k: nat | i < k <= j ensures C.InsideAt(vs, k) {
      AloneWrites(run, i, k, t, c);
      WriterIsInCall(run[k], t);
      assert vs[k] == ViewOf(run[k], t);
    }
    C.CallStartIs(vs, i, j);
    assert AloneAt(run, i, i, t, c);
  }

  lemma WriterIsInCall(w: World, t: nat)
    requires t < |w.threads| && IsWriter(w.threads[t])
    ensures !ViewOf(w, t).phase.Outside?
  {
  }

  /** An insert or delete that runs alone from start to end returns 1 exactly if the key
      was not there (insert) or was there (delete), within 14 |pool| + 14 steps, all
      frees included, and leaves the old set with or without the key. */
  lemma CallAlone(run: seq<World>, t: nat, c: Choice) returns (more: seq<World>)
    requires Legal(run) && t < |End(run).threads| && End(run).threads[t].pc.Resting? && !c.search
    requires c.b < |End(run).writer| && End(run).writer[c.b] == None
    requires !c.del ==>
               c.node < |End(run).tb.mem| && c.node < |End(run).tb.status| && End(run).tb.status[c.node] == Free
    ensures CompletedAlone(run, more, t, c) && |run| + 1 < |more| <= |run| + 14 * |End(run).tb.mem| + 14
    ensures C.Returns(ViewOf(more[|more| - 2], t).phase) <==> (Has(End(run).tb, c.b, c.key) <==> c.del)
    ensures C.Applied(End(run).tb, End(more).tb, c.b, c.del, c.key)
  {
    more := BeginsAndCompletes(run, t, c);
    var i, j := |run| - 1, |more| - 2;
    assert more[i] == End(run) && more[j + 1] == End(more);
    AloneWrites(more, i, j, t, c);
    AloneCall(more, i, j, t, c);
    WriterIsInCall(more[j], t);
    CallDecides(more, j, t, c);
  }

  lemma {:induction false} AloneSearches(run: seq<World>, i: nat, j: nat, t: nat, c: Choice)
    requires Legal(run) && i < j && j + 1 < |run| && AloneFrom(run, i, t, c) && c.search
    requires t < |run[i].threads| && run[i].threads[t].pc.Resting?
    ensures t < |run[j].threads| && InSearch(run[j].threads[t])
  {
    if i + 1 < j {
      AloneSearches(run, i, j - 1, t, c);
    }
    BusyAlone(run, i, j, t, c);
    SearchesOn(run, i, j - 1, t, c);
  }

  lemma SearchesOn(run: seq<World>, i: nat, k: nat, t: nat, c: Choice)
    requires Legal(run) && i <= k && k + 1 < |run| && AloneFrom(run, i, t, c) && c.search
    requires t < |run[k].threads| && (run[k].threads[t].pc.Resting? || InSearch(run[k].threads[t]))
    requires t < |run[k + 1].threads| && !run[k + 1].threads[t].pc.Resting?
    ensures InSearch(run[k + 1].threads[t])
  {
    assert AloneAt(run, i, k, t, c);
    RunInv(run, k);
    if run[k].threads[t].pc.Resting? {
      StartsSearch(run[k], t, c, run[k + 1]);
    } else {
      StillSearches(run[k], t, c, run[k + 1]);
    }
  }

  lemma AloneSearch(run: seq<World>, i: nat, j: nat, t: nat, c: Choice)
    requires i < j && j + 1 < |run| && AloneFrom(run, i, t, c)
    requires t < |run[i].threads| && run[i].threads[t].pc.Resting?
    ensures LastRest(run, j, t) == i && BegunWith(run, j, t, c)
  {
    forall k: nat | i < k <= j ensures Busy(run, k, t) {
      BusyAlone(run, i, k, t, c);
    }
    LastRestIs(run, i, j, t);
    assert AloneAt(run, i, i, t, c);
  }

  lemma StillSearches(w: World, t: nat, c: Choice, w': World)
    requires Inv(w) && Taken(w, t, c, w') && InSearch(w.threads[t])
    ensures t < |w'.threads| && (InSearch(w'.threads[t]) || w'.threads[t].pc.Resting?)
  {
    SameShape(w, t, c);
    SearchKeeps(w, t, c);
  }

  lemma OnlyReturns(w: World, t: nat, c: Choice, w': World)
    requires Inv(w) && Taken(w, t, c, w') && InSearch(w.threads[t]) && t < |w'.threads| && w'.threads[t].pc.Resting?
    ensures w.threads[t].pc.Returned?
  {
    PcCases(w.threads[t].pc);
    if InDec(w.threads[t].pc) {
      DecStays(w, t, c);
    } else if Searching(w.threads[t].pc) {
      SearchingStays(w, t, c);
    }
  }

  lemma SearchingStays(w: World, t: nat, c: Choice)
    requires Enabled(w, t, c) && Searching(w.threads[t].pc) && t < |Act(w, t, c).threads|
    ensures !Act(w, t, c).threads[t].pc.Resting?
  {
  }

  /** A search alone leaves every set as it is. */
  lemma {:induction false} SearchLeavesSets(run: seq<World>, i: nat, k: nat, t: nat, c: Choice, b: nat)
    requires Legal(run) && i <= k < |run| && AloneFrom(run, i, t, c) && c.search
    requires t < |run[i].threads| && run[i].threads[t].pc.Resting? && b < |run[i].tb.heads|
    ensures |run[k].tb.heads| == |run[i].tb.heads| && SameKeys(run[i].tb, run[k].tb, b)
  {
    if i < k {
      SearchLeavesSets(run, i, k - 1, t, c, b);
      assert AloneAt(run, i, k - 1, t, c);
      RunInv(run, k - 1);
      if k - 1 > i {
        AloneSearches(run, i, k - 1, t, c);
      }
      SearchStepLeavesSet(run[k - 1], t, c, run[k], b);
    }
  }

  lemma SearchStepLeavesSet(w: World, t: nat, c: Choice, w': World, b: nat)
    requires Inv(w) && Taken(w, t, c, w') && b < |w.tb.heads| && (InSearch(w.threads[t]) || w.threads[t].pc.Resting?)
    ensures |w'.tb.heads| == |w.tb.heads| && SameKeys(w.tb, w'.tb, b)
  {
    SameShape(w, t, c);
    StepChangesSet(w, t, c, b);
  }

  /** A search that runs alone from start to end returns whether the key is there,
      within 14 |pool| + 14 steps, all frees included, and leaves every set as it is. */
  lemma SearchAlone(run: seq<World>, t: nat, c: Choice) returns (more: seq<World>)
    requires Legal(run) && t < |End(run).threads| && End(run).threads[t].pc.Resting? && c.search
    requires c.b < |End(run).writer| == |End(run).tb.heads|
    ensures CompletedAlone(run, more, t, c) && |run| + 1 < |more| <= |run| + 14 * |End(run).tb.mem| + 14
    ensures t < |more[|more| - 2].threads|
    ensures more[|more| - 2].threads[t].pc == Returned(Contains(End(run).tb, c.b, c.key))
    ensures forall b: nat :: b < |End(run).tb.heads| ==> SameKeys(End(run).tb, End(more).tb, b)
  {
    more := BeginsAndCompletes(run, t, c);
    var i, j := |run| - 1, |more| - 2;
    assert more[i] == End(run) && more[j + 1] == End(more);
    forall b: nat | b < |End(run).tb.heads| ensures SameKeys(End(run).tb, End(more).tb, b) {
      SearchLeavesSets(more, i, j + 1, t, c, b);
    }
    AnswerAlone(more, i, j, t, c);
  }

  lemma AnswerAlone(run: seq<World>, i: nat, j: nat, t: nat, c: Choice)
    requires Legal(run) && i < j && j + 2 == |run| && AloneFrom(run, i, t, c) && c.search
    requires t < |run[i].threads| && run[i].threads[t].pc.Resting? && c.b < |run[i].tb.heads|
    requires t < |run[j + 1].threads| && run[j + 1].threads[t].pc.Resting?
    ensures t < |run[j].threads| && run[j].threads[t].pc == Returned(Contains(run[i].tb, c.b, c.key))
  {
    AloneSearches(run, i, j, t, c);
    AloneSearch(run, i, j, t, c);
    assert AloneAt(run, i, j, t, c);
    RunInv(run, j);
    RunInv(run, i);
    OnlyReturns(run[j], t, c, run[j + 1]);
    SearchLinearizable(run, j, t, c);
    var k: nat :| i <= k <= j && c.b < |run[k].tb.heads|
                    && (Contains(run[k].tb, c.b, c.key) <==> run[j].threads[t].pc.found);
    SearchLeavesSets(run, i, k, t, c, c.b);
    RunInv(run, k);
    ContainsIsHas(run[k].tb, c.b, c.key);
    ContainsIsHas(run[i].tb, c.b, c.key);
  }

  /** There are runs of every size to begin with. */
  lemma FirstRun(buckets: nat, nodes: nat, threads: nat) returns (run: seq<World>)
    ensures Legal(run) && |run| == 1 && |run[0].threads| == threads
    ensures |run[0].tb.heads| == buckets && |run[0].tb.mem| == nodes
  {
    var tb := Table(seq(buckets, _ => None), seq(nodes, _ => Node(0, None, 0, 0)), seq(nodes, _ => Free));
    run := [World(tb, seq(threads, _ => IDLE), map[], seq(buckets, _ => None), 0, seq(nodes, _ => Removal(0, 0)))];
  }
}
