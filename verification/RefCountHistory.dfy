/** What the past of a run says about unlinked nodes: the life of a node, step by
    step, and why a pointer in an unlinked node still tells the truth about the
    list at the instant the node was unlinked. */
module RefCountHistory {
  import opened Buckets
  import opened ListWriter
  import opened RefCounts
  import opened RefCountInvariants
  import opened RefCountSteps
  import opened RefCountLinks
  import opened RefCountRuns

  // ----- the life of a node

  predicate Follows(s: Status, s': Status) {
    match s
    case Free => s'.Private?
    case Private(_) => s'.Linked?
    case Linked(b) => s' == Unlinked(b)
    case Unlinked(_) => s'.Retired?
    case Retired(_) => s'.Dying?
    case Dying(_) => s'.Dead?
    case Dead(_) => s' == Free
  }

  predicate OnceLinked(s: Status) {
    s.Linked? || s.Unlinked? || s.Retired?
  }

  predicate OffTheList(s: Status) {
    s.Unlinked? || s.Retired?
  }

  /** One step of the life of node `n`. */
  predicate Moves(w: World, w': World, n: Ref) {
    && n < |w.tb.mem| == |w'.tb.mem| && |w.tb.status| == |w'.tb.status| == |w.tb.mem|
    && |w.removed| == |w'.removed| == |w.tb.mem| && |w'.tb.heads| == |w.tb.heads|
    && var s, s' := w.tb.status[n], w'.tb.status[n];
       && (s' == s || Follows(s, s'))
       && (OnceLinked(s) ==> w'.tb.mem[n].key == w.tb.mem[n].key)
       && (OffTheList(s) ==> w'.tb.mem[n].next == w.tb.mem[n].next && w'.removed[n] == w.removed[n])
       && (s.Linked? && s'.Unlinked? ==>
             w'.tb.mem[n].next == w.tb.mem[n].next && w'.removed[n] == Removal(w.now + 1, s.bucket))
  }

  lemma SearchMoves(w: World, t: nat, c: Choice, n: Ref)
    requires Inv(w) && Enabled(w, t, c) && Searching(w.threads[t].pc) && n < |w.tb.mem|
    ensures Moves(w, Act(w, t, c), n)
  {
  }

  lemma DecMoves(w: World, t: nat, c: Choice, n: Ref)
    requires Inv(w) && Enabled(w, t, c) && InDec(w.threads[t].pc) && n < |w.tb.mem|
    ensures Moves(w, Act(w, t, c), n)
  {
    var th := w.threads[t];
    assert ThreadOk(w, t);
    match th.pc {
      case Lowering => LowerMoves(w, t, th.drop.value, n);
      case Unwinding => UnwindMoves(w, t, n);
      case Following => FollowMoves(w, t, n);
      case _ =>
    }
  }

  lemma LowerMoves(w: World, t: nat, p: Ref, n: Ref)
    requires Inv(w) && t < |w.threads| && w.threads[t].pc.Lowering? && w.threads[t].drop == Some(p) && p < |w.tb.mem|
    requires w.tb.mem[p].rc > 0 && n < |w.tb.mem|
    ensures Moves(w, LowerNext(w, t, p), n)
  {
    if w.tb.mem[p].rc == 1 {
      LastUnitRetired(w, t, p);
    }
  }

  lemma UnwindMoves(w: World, t: nat, n: Ref)
    requires Inv(w) && t < |w.threads| && w.threads[t].pc.Unwinding? && n < |w.tb.mem| && w.threads[t].b < |w.writer|
    requires |w.threads[t].dying| > 0 ==> Last(w.threads[t].dying) < |w.tb.status|
    ensures Moves(w, UnwindNext(w, t), n)
  {
  }

  lemma FollowMoves(w: World, t: nat, n: Ref)
    requires Inv(w) && t < |w.threads| && w.threads[t].pc.Following? && n < |w.tb.mem|
    requires |w.threads[t].dying| > 0 && Last(w.threads[t].dying) < |w.tb.mem|
    ensures Moves(w, FollowNext(w, t, Last(w.threads[t].dying)), n)
  {
  }

  lemma WriteMoves(w: World, t: nat, c: Choice, n: Ref)
    requires Inv(w) && Enabled(w, t, c) && w.threads[t].pc.Writing? && n < |w.tb.mem|
    ensures Moves(w, Act(w, t, c), n)
  {
    assert ThreadOk(w, t);
    match w.threads[t].pc.op {
      case Unlinking(_, _, _) => UnlinkMoves(w, t, n);
      case Reclaiming(_, _) => RecountMoves(w, t, n);
      case Publishing(_, _, _, _) => PublishMoves(w, t, n);
      case _ =>
    }
  }

  lemma UnlinkMoves(w: World, t: nat, n: Ref)
    requires Inv(w) && t < |w.threads| && w.threads[t].pc.Writing? && w.threads[t].pc.op.Unlinking? && n < |w.tb.mem|
    ensures var op := w.threads[t].pc.op;
            && LocOk(w.tb, w.threads[t].b, op.prev) && op.node < |w.tb.mem| == |w.removed|
            && Moves(w, UnlinkNext(w, t, w.threads[t].b, op.prev, op.node), n)
  {
    var b, op := w.threads[t].b, w.threads[t].pc.op;
    assert ThreadOk(w, t) && BucketOk(w.tb, b);
    UnlinkTargets(w, t, b, op.prev, op.node, op.key);
    StopLinked(w.tb, b, op.prev, op.node, op.key);
  }

  lemma StopLinked(tb: Table, b: nat, prev: Loc, n: Ref, key: int)
    requires Stop(tb, b, prev, Some(n), key) && BucketOk(tb, b)
    ensures LinkedIn(tb, b, n) && (prev.NextOf? ==> LinkedIn(tb, b, prev.node))
    ensures First(tb, b, if prev.Head? then None else Some(tb.mem[prev.node].key), Some(n))
  {
  }

  lemma RecountMoves(w: World, t: nat, n: Ref)
    requires Inv(w) && t < |w.threads| && w.threads[t].pc.Writing? && w.threads[t].pc.op.Reclaiming? && n < |w.tb.mem|
    ensures var m := w.threads[t].pc.op.node;
            m < |w.tb.mem| && OptOk(w, w.tb.mem[m].next) && Moves(w, RecountNext(w, t, m), n)
  {
  }

  lemma PublishMoves(w: World, t: nat, n: Ref)
    requires Inv(w) && t < |w.threads| && w.threads[t].pc.Writing? && w.threads[t].pc.op.Publishing? && n < |w.tb.mem|
    ensures var op := w.threads[t].pc.op;
            && LocOk(w.tb, w.threads[t].b, op.prev) && op.node < |w.tb.mem| && w.threads[t].b < |w.writer|
            && Moves(w, PublishNext(w, t, w.threads[t].b, op.prev, op.node), n)
  {
  }

  /** Every step moves every node at most one stage on: Free, Private, Linked,
      Unlinked, Retired, Dying, Dead and back to Free. */
  lemma StepMoves(w: World, t: nat, c: Choice, n: Ref)
    requires Inv(w) && Enabled(w, t, c) && n < |w.tb.mem|
    ensures Moves(w, Act(w, t, c), n)
  {
    PcCases(w.threads[t].pc);
    assert ThreadOk(w, t);
    if w.threads[t].pc.Writing? {
      WriteMoves(w, t, c, n);
    } else if InDec(w.threads[t].pc) {
      DecMoves(w, t, c, n);
    } else if Searching(w.threads[t].pc) {
      SearchMoves(w, t, c, n);
    }
  }

  /** A node with a unit that nobody is dropping is not on its way out. */
  lemma KeptAlive(w: World, t: nat, c: Choice, tok: Token, n: Ref)
    requires Inv(w) && Enabled(w, t, c) && n < |w.tb.mem| && w.tb.status[n].Retired?
    requires Target(w, tok) == Some(n) && !tok.Drop?
    ensures n < |Act(w, t, c).tb.status| && Act(w, t, c).tb.status[n].Retired?
  {
    StepMoves(w, t, c, n);
    if w.threads[t].pc.Lowering? {
      if w.threads[t].drop == Some(n) {
        assert Target(w, Drop(t)) == Some(n);
        UnitsTwo(w, tok, Drop(t), n);
      }
    } else {
      OnlyLoweringKills(w, t, c, n);
    }
  }

  lemma OnlyLoweringKills(w: World, t: nat, c: Choice, n: Ref)
    requires Enabled(w, t, c) && n < |w.tb.mem| && w.tb.status[n].Retired? && !w.threads[t].pc.Lowering?
    ensures n < |Act(w, t, c).tb.status| && !Act(w, t, c).tb.status[n].Dying?
  {
    if w.threads[t].pc.Writing? {
      WritingKillsNone(w, t, c, n);
    } else if !InDec(w.threads[t].pc) {
      OthersKeepStatus(w, t, c, n);
    }
  }

  lemma WritingKillsNone(w: World, t: nat, c: Choice, n: Ref)
    requires Enabled(w, t, c) && n < |w.tb.mem| && !w.tb.status[n].Dying? && w.threads[t].pc.Writing?
    ensures n < |Act(w, t, c).tb.status| && !Act(w, t, c).tb.status[n].Dying?
  {
  }

  // ----- what an unlinked node remembers

  /** Node `s` is linked in bucket `b`, or was unlinked from it after instant `at`. */
  ghost predicate InOrWas(w: World, s: Ref, b: nat, at: nat) {
    && s < |w.tb.mem| && s < |w.tb.status| && s < |w.removed|
    && (w.tb.status[s] == Linked(b) || (OffTheList(w.tb.status[s]) && w.removed[s].bucket == b && w.removed[s].at > at))
  }

  ghost predicate Absent(run: seq<World>, i: nat, b: nat, key: int) {
    i < |run| && !Has(run[i].tb, b, key)
  }

  /** The node was unlinked at an instant of the run: just before, its key was in
      the bucket; at that instant, its next pointer spanned a gap of the bucket,
      and the node beyond the gap left the bucket later, if at all. */
  ghost predicate Remembers(run: seq<World>, w: World, n: Ref) {
    && n < |w.tb.mem| && n < |w.removed| && n < |w.tb.status|
    && var r := w.removed[n];
       && 1 <= r.at < |run| && r.at <= w.now && r.bucket < |w.tb.heads|
       && (w.tb.status[n].Unlinked? ==> w.tb.status[n] == Unlinked(r.bucket))
       && Has(run[r.at - 1].tb, r.bucket, w.tb.mem[n].key)
       && match w.tb.mem[n].next
          case None => forall k: int :: k > w.tb.mem[n].key ==> Absent(run, r.at, r.bucket, k)
          case Some(s) =>
            && InOrWas(w, s, r.bucket, r.at)
            && w.tb.mem[n].key < w.tb.mem[s].key
            && forall k: int :: w.tb.mem[n].key < k < w.tb.mem[s].key ==> Absent(run, r.at, r.bucket, k)
  }

  ghost predicate Memories(run: seq<World>, w: World) {
    forall n: Ref {:trigger w.tb.status[n]} {:trigger Remembers(run, w, n)} ::
      n < |w.tb.mem| && n < |w.tb.status| && OffTheList(w.tb.status[n]) ==> Remembers(run, w, n)
  }

  lemma InOrWasStays(w: World, t: nat, c: Choice, n: Ref, s: Ref, b: nat, at: nat)
    requires Inv(w) && Enabled(w, t, c) && n < |w.tb.mem| && at <= w.now && InOrWas(w, s, b, at)
    requires OffTheList(w.tb.status[n]) && w.tb.mem[n].next == Some(s)
    ensures InOrWas(Act(w, t, c), s, b, at) && Act(w, t, c).tb.mem[s].key == w.tb.mem[s].key
  {
    StepMoves(w, t, c, s);
    if w.tb.status[s].Retired? {
      if w.tb.status[n].Retired? {
        KeptAlive(w, t, c, NextRef(n), s);
      } else {
        assert NodeOk(w, n);
        var u := w.writer[w.tb.status[n].bucket].value;
        assert ThreadOk(w, u);
        SuccessorOfUnlinked(w, n);
      }
    }
  }

  lemma SuccessorOfUnlinked(w: World, n: Ref)
    requires Inv(w) && n < |w.tb.mem| && w.tb.status[n].Unlinked?
    ensures w.tb.mem[n].next.Some? ==> LinkedIn(w.tb, w.tb.status[n].bucket, w.tb.mem[n].next.value)
  {
    assert NodeOk(w, n);
    var u := w.writer[w.tb.status[n].bucket].value;
    assert ThreadOk(w, u) && WriterOk(w, w.tb.status[n].bucket);
    SuccessorLinked(w, u);
  }

  /** The unlink makes the memory true. */
  lemma UnlinkRemembers(run: seq<World>, w: World, t: nat, n: Ref)
    requires Inv(w) && t < |w.threads| && w.threads[t].pc.Writing?
    requires w.threads[t].pc.op.Unlinking? && n == w.threads[t].pc.op.node
    requires LocOk(w.tb, w.threads[t].b, w.threads[t].pc.op.prev) && n < |w.tb.mem| == |w.removed|
    requires w.now + 1 < |run| && run[w.now] == w
    requires run[w.now + 1].tb == UnlinkNext(w, t, w.threads[t].b, w.threads[t].pc.op.prev, n).tb
    ensures Remembers(run, UnlinkNext(w, t, w.threads[t].b, w.threads[t].pc.op.prev, n).(now := w.now + 1), n)
  {
    var b, op := w.threads[t].b, w.threads[t].pc.op;
    assert ThreadOk(w, t) && BucketOk(w.tb, b);
    UnlinkTargets(w, t, b, op.prev, n, op.key);
    UnlinkBucket(w.tb, Unlink(w.tb, b, op.prev, n), b, op.prev, n, op.key);
    var w' := UnlinkNext(w, t, b, op.prev, n);
    assert LinkedIn(w.tb, b, n);
    assert w'.tb == Unlink(w.tb, b, op.prev, n);
    assert Anchored(w'.tb, b, n);
    assert w'.removed[n] == Removal(w.now + 1, b);
    GapAbsent(run, w.now + 1, b, w'.tb.mem[n].key, w'.tb.mem[n].next);
  }

  /** A pointer that is first above `low` spans a gap. */
  lemma GapAbsent(run: seq<World>, i: nat, b: nat, low: int, p: Option<Ref>)
    requires i < |run| && First(run[i].tb, b, Some(low), p)
    ensures p.None? ==> forall k: int :: k > low ==> Absent(run, i, b, k)
    ensures p.Some? ==> forall k: int :: low < k < run[i].tb.mem[p.value].key ==> Absent(run, i, b, k)
  {
  }

  lemma StepRemembers(run: seq<World>, w: World, t: nat, c: Choice, n: Ref)
    requires Inv(w) && Enabled(w, t, c) && Memories(run, w) && n < |w.tb.mem|
    requires w.now + 1 < |run| && run[w.now] == w && run[w.now + 1].tb == Act(w, t, c).tb
    requires OffTheList(Act(w, t, c).tb.status[n])
    ensures Remembers(run, Act(w, t, c).(now := w.now + 1), n)
  {
    StepMoves(w, t, c, n);
    if OffTheList(w.tb.status[n]) {
      assert Remembers(run, w, n);
      StillRemembers(run, w, t, c, n);
    } else {
      OnlyUnlinking(w, t, c, n);
      UnlinkRemembers(run, w, t, n);
    }
  }

  lemma StillRemembers(run: seq<World>, w: World, t: nat, c: Choice, n: Ref)
    requires Inv(w) && Enabled(w, t, c) && n < |w.tb.mem| && Remembers(run, w, n) && OffTheList(w.tb.status[n])
    requires OffTheList(Act(w, t, c).tb.status[n])
    ensures Remembers(run, Act(w, t, c).(now := w.now + 1), n)
  {
    StepMoves(w, t, c, n);
    if w.tb.mem[n].next.Some? {
      InOrWasStays(w, t, c, n, w.tb.mem[n].next.value, w.removed[n].bucket, w.removed[n].at);
    }
  }

  lemma OnlyUnlinking(w: World, t: nat, c: Choice, n: Ref)
    requires Inv(w) && Enabled(w, t, c) && n < |w.tb.mem|
    requires !OffTheList(w.tb.status[n]) && OffTheList(Act(w, t, c).tb.status[n])
    ensures w.threads[t].pc.Writing? && w.threads[t].pc.op.Unlinking? && w.threads[t].pc.op.node == n
    ensures Act(w, t, c) == UnlinkNext(w, t, w.threads[t].b, w.threads[t].pc.op.prev, n)
  {
    assert ThreadOk(w, t);
    PcCases(w.threads[t].pc);
    StepMoves(w, t, c, n);
    if InDec(w.threads[t].pc) {
      DecKeepsListed(w, t, c, n);
    } else if !w.threads[t].pc.Writing? {
      OthersKeepStatus(w, t, c, n);
    }
  }

  lemma DecKeepsListed(w: World, t: nat, c: Choice, n: Ref)
    requires Enabled(w, t, c) && n < |w.tb.mem| && InDec(w.threads[t].pc)
    ensures n < |Act(w, t, c).tb.status|
    ensures OffTheList(Act(w, t, c).tb.status[n]) ==> OffTheList(w.tb.status[n])
  {
  }

  lemma OthersKeepStatus(w: World, t: nat, c: Choice, n: Ref)
    requires Enabled(w, t, c) && n < |w.tb.mem| && !InDec(w.threads[t].pc) && !w.threads[t].pc.Writing?
    ensures Act(w, t, c).tb.status == w.tb.status
  {
  }

  /** In every run, every unlinked node that is not yet dying remembers its unlink. */
  lemma {:induction false} RunMemories(run: seq<World>, j: nat)
    requires Legal(run) && j < |run|
    ensures Memories(run, run[j])
  {
    if j > 0 {
      RunMemories(run, j - 1);
      RunInv(run, j - 1);
      assert StepAt(run, j - 1);
      TakenMemories(run, run[j - 1], run[j]);
    }
  }

  lemma TakenMemories(run: seq<World>, w: World, w': World)
    requires Inv(w) && Memories(run, w) && Step(w, w')
    requires w.now + 1 < |run| && run[w.now] == w && run[w.now + 1] == w'
    ensures Memories(run, w')
  {
    var t: nat, c: Choice :| Taken(w, t, c, w');
    NextMemories(run, w, t, c);
  }

  lemma NextMemories(run: seq<World>, w: World, t: nat, c: Choice)
    requires Inv(w) && Enabled(w, t, c) && Memories(run, w)
    requires w.now + 1 < |run| && run[w.now] == w && run[w.now + 1] == Next(w, t, c)
    ensures Memories(run, Next(w, t, c))
  {
    var w' := Act(w, t, c).(now := w.now + 1);
    forall n: Ref | n < |w'.tb.mem| && n < |w'.tb.status| && OffTheList(w'.tb.status[n]) ensures Remembers(run, w', n) {
      SameSize(w, t, c);
      StepRemembers(run, w, t, c, n);
    }
  }

  lemma SameSize(w: World, t: nat, c: Choice)
    requires Inv(w) && Enabled(w, t, c)
    ensures |Act(w, t, c).tb.mem| == |w.tb.mem|
  {
    PcCases(w.threads[t].pc);
    if w.threads[t].pc.Writing? {
      WriteSize(w, t, c);
    } else if InDec(w.threads[t].pc) {
      DecSize(w, t, c);
    }
  }

  lemma WriteSize(w: World, t: nat, c: Choice)
    requires Enabled(w, t, c) && w.threads[t].pc.Writing?
    ensures |Act(w, t, c).tb.mem| == |w.tb.mem|
  {
  }

  lemma DecSize(w: World, t: nat, c: Choice)
    requires Enabled(w, t, c) && InDec(w.threads[t].pc)
    ensures |Act(w, t, c).tb.mem| == |w.tb.mem|
  {
  }
}
