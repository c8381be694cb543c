/** Runs of the reference-counted list: the invariant holds throughout, no thread
    is ever stuck, and every node lives through its stages in order. */
module RefCountRuns {
  import opened Buckets
  import opened ListWriter
  import opened RefCounts
  import opened RefCountInvariants
  import opened RefCountSteps
  import opened RefCountWriters
  import opened RefCountLinks

  ghost predicate Initial(w: World) {
    && Shaped(w.tb) && |w.writer| == |w.tb.heads| && |w.removed| == |w.tb.mem|
    && (forall b: nat :: b < |w.tb.heads| ==> w.tb.heads[b] == None && w.writer[b] == None)
    && (forall n: Ref :: n < |w.tb.mem| ==> w.tb.status[n] == Free && w.tb.mem[n] == Node(0, None, 0, 0))
    && (forall t: nat :: t < |w.threads| ==> w.threads[t] == IDLE)
    && w.owns == map[] && w.now == 0
  }

  ghost predicate Step(w: World, w': World) {
    exists t: nat, c: Choice :: Taken(w, t, c, w')
  }

  predicate Taken(w: World, t: nat, c: Choice, w': World) {
    Enabled(w, t, c) && w' == Next(w, t, c)
  }

  ghost predicate StepAt(run: seq<World>, i: nat) {
    i + 1 < |run| ==> Step(run[i], run[i + 1])
  }

  ghost predicate Legal(run: seq<World>) {
    |run| > 0 && Initial(run[0]) && forall i: nat :: StepAt(run, i)
  }

  lemma InitialInv(w: World)
    requires Initial(w)
    ensures Inv(w)
  {
  }

  lemma TickInv(w: World, n: nat)
    requires Inv(w)
    ensures Inv(w.(now := n))
  {
    var w' := w.(now := n);
    forall tok: Token ensures Lookup(w'.owns, tok) == Target(w', tok) {
      assert Lookup(w.owns, tok) == Target(w, tok);
    }
    forall t: nat | t < |w'.threads| ensures ThreadOk(w', t) {
      assert ThreadOk(w, t);
    }
    forall n: Ref | n < |w'.tb.mem| ensures NodeOk(w', n) {
      assert NodeOk(w, n);
    }
    forall b: nat | b < |w'.writer| ensures WriterOk(w', b) {
      assert WriterOk(w, b);
    }
  }

  lemma SearchInv(w: World, t: nat, c: Choice)
    requires Inv(w) && Enabled(w, t, c)
    requires var pc := w.threads[t].pc; pc.Reading? || pc.Counting? || pc.Raising? || pc.Rechecking? || pc.Comparing?
    ensures Inv(Act(w, t, c))
  {
    match w.threads[t].pc {
      case Reading => ReadInv(w, t);
      case Counting(q) =>
        assert ThreadOk(w, t);
        QuietInv(w, t, w.threads[t].(pc := if w.tb.mem[q].rc == 0 then Reading else Raising(q, w.tb.mem[q].rc)));
      case Raising(q, seen) => RaiseInv(w, t, q, seen);
      case Rechecking => RecheckInv(w, t);
      case Comparing => CompareInv(w, t);
      case _ =>
    }
  }

  lemma AssertInv(w: World, t: nat)
    requires Inv(w) && t < |w.threads| && w.threads[t].pc.Asserting?
    ensures Inv(SetThread(w, t, w.threads[t].(pc := Lowering)))
  {
    assert ThreadOk(w, t);
    QuietInv(w, t, w.threads[t].(pc := Lowering));
  }

  lemma DecInv(w: World, t: nat, c: Choice)
    requires Inv(w) && Enabled(w, t, c) && InDec(w.threads[t].pc)
    ensures Inv(Act(w, t, c))
  {
    var th := w.threads[t];
    match th.pc {
      case Asserting => AssertInv(w, t);
      case Lowering => LowerInv(w, t, th.drop.value);
      case Bumping => BumpInv(w, t, Last(th.dying));
      case Following => FollowInv(w, t, Last(th.dying));
      case Unwinding => UnwindInv(w, t);
      case _ =>
    }
  }

  lemma UnwindInv(w: World, t: nat)
    requires Inv(w) && t < |w.threads| && w.threads[t].pc.Unwinding?
    ensures w.threads[t].b < |w.writer|
    ensures |w.threads[t].dying| > 0 ==> Last(w.threads[t].dying) < |w.tb.status|
    ensures Inv(UnwindNext(w, t))
  {
    var th := w.threads[t];
    assert ThreadOk(w, t);
    if |th.dying| > 0 {
      FreeInv(w, t);
    } else {
      match th.after {
        case ReadAgain => QuietInv(w, t, th.(pc := Reading));
        case Advance => QuietInv(w, t, th.(pc := if th.hold.Some? then Comparing else Returned(false)));
        case Answer(found) => QuietInv(w, t, th.(pc := Returned(found)));
        case EndDelete => ReleaseInv(w, t);
      }
    }
  }

  lemma WriteInv(w: World, t: nat, c: Choice)
    requires Inv(w) && Enabled(w, t, c) && w.threads[t].pc.Writing?
    ensures Inv(Act(w, t, c))
  {
    match w.threads[t].pc.op {
      case Idle(_) => ReleaseInv(w, t);
      case Walking(_, _, _, _) => WalkInv(w, t);
      case Unlinking(_, _, _) => UnlinkInv(w, t);
      case Reclaiming(_, _) => RecountInv(w, t);
      case Allocating(_, _, _) => AllocInv(w, t, c.node);
      case Keying(_, _, _, _) => KeyInv(w, t);
      case Linking(_, _, _, _) => LinkInv(w, t);
      case Publishing(_, _, _, _) => PublishInv(w, t);
    }
  }

  lemma InitialisingInv(w: World, t: nat, c: Choice)
    requires Inv(w) && Enabled(w, t, c) && w.threads[t].pc.Initialising?
    ensures Inv(Act(w, t, c))
  {
    InitInv(w, t, w.threads[t].pc.op.node);
  }

  lemma ReturnedInv(w: World, t: nat, c: Choice)
    requires Inv(w) && Enabled(w, t, c) && w.threads[t].pc.Returned?
    ensures Inv(Act(w, t, c))
  {
    ReturnInv(w, t);
  }

  predicate Searching(pc: Pc) {
    pc.Reading? || pc.Counting? || pc.Raising? || pc.Rechecking? || pc.Comparing?
  }

  lemma PcCases(pc: Pc)
    ensures pc.Resting? || pc.Writing? || pc.Initialising? || pc.Returned? || InDec(pc) || Searching(pc)
  {
  }

  lemma ActInv(w: World, t: nat, c: Choice)
    requires Inv(w) && Enabled(w, t, c)
    ensures Inv(Act(w, t, c))
  {
    PcCases(w.threads[t].pc);
    if w.threads[t].pc.Resting? {
      StartInv(w, t, c);
    } else if w.threads[t].pc.Writing? {
      WriteInv(w, t, c);
    } else if w.threads[t].pc.Initialising? {
      InitialisingInv(w, t, c);
    } else if w.threads[t].pc.Returned? {
      ReturnedInv(w, t, c);
    } else if InDec(w.threads[t].pc) {
      DecInv(w, t, c);
    } else {
      SearchInv(w, t, c);
    }
  }

  /** Every step of every thread keeps the invariant. */
  lemma StepInv(w: World, t: nat, c: Choice)
    requires Inv(w) && Enabled(w, t, c)
    ensures Inv(Next(w, t, c))
  {
    ActInv(w, t, c);
    ActTick(Act(w, t, c), w.now + 1, Next(w, t, c));
  }

  lemma ActTick(v: World, n: nat, w': World)
    requires Inv(v) && w' == v.(now := n)
    ensures Inv(w')
  {
    TickInv(v, n);
  }

  lemma {:induction false} RunInv(run: seq<World>, i: nat)
    requires Legal(run) && i < |run|
    ensures Inv(run[i]) && run[i].now == i
  {
    if i == 0 {
      InitialInv(run[0]);
    } else {
      RunInv(run, i - 1);
      assert StepAt(run, i - 1);
      var t: nat, c: Choice :| Taken(run[i - 1], t, c, run[i]);
      StepInv(run[i - 1], t, c);
    }
  }
}
