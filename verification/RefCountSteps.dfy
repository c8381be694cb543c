/** Every step of a search and of `lfrc_refcnt_dec` keeps the counting invariant. */
module RefCountSteps {
  import opened Buckets
  import opened RefCounts
  import opened RefCountInvariants

  predicate OfThread(tok: Token, t: nat) {
    match tok
    case HeadRef(_) => false
    case NextRef(_) => false
    case Hold(u) => u == t
    case Grab(u) => u == t
    case Drop(u) => u == t
    case Own(u) => u == t
  }

  /** A step that only moves units among the local variables of its thread. */
  lemma MoveInv(w: World, t: nat, th: Thread, owns: map<Token, Ref>)
    requires Inv(w) && t < |w.threads|
    requires var w' := SetThread(w, t, th).(owns := owns); ThreadOk(w', t)
    requires forall tok: Token :: !OfThread(tok, t) ==> Lookup(owns, tok) == Lookup(w.owns, tok)
    requires Lookup(owns, Hold(t)) == th.hold && Lookup(owns, Grab(t)) == th.grab
    requires Lookup(owns, Drop(t)) == th.drop && Lookup(owns, Own(t)) == th.own
    requires forall n: Ref :: |Units(owns, n)| == |Units(w.owns, n)|
    requires var was := w.threads[t];
             && Dropped(th) == Dropped(was) && th.dying == was.dying
             && (was.pc.Bumping? || was.pc.Following? <==> th.pc.Bumping? || th.pc.Following?)
             && !was.pc.Initialising? && !was.pc.Writing? && !th.pc.Initialising? && !th.pc.Writing?
             && (IsWriter(was) ==> IsWriter(th) && th.b == was.b)
    ensures Inv(SetThread(w, t, th).(owns := owns))
  {
    var w' := SetThread(w, t, th).(owns := owns);
    forall tok: Token ensures Lookup(w'.owns, tok) == Target(w', tok) {
      assert Lookup(w.owns, tok) == Target(w, tok);
    }
    forall n: Ref | n < |w.tb.mem| ensures NodeOk(w', n) {
      assert NodeOk(w, n);
      SameNodeOk(w, t, w', n);
    }
    LocalFrame(w, t, None, w');
  }

  lemma SameNodeOk(w: World, t: nat, w': World, n: Ref)
    requires n < |w.tb.mem| == |w.tb.status| && NodeOk(w, n) && w'.tb == w.tb && w'.writer == w.writer
    requires t < |w.threads| == |w'.threads|
    requires forall u: nat :: u < |w.threads| && u != t ==> w'.threads[u] == w.threads[u]
    requires var was, th := w.threads[t], w'.threads[t];
             && Dropped(th) == Dropped(was) && th.dying == was.dying
             && (was.pc.Bumping? || was.pc.Following? <==> th.pc.Bumping? || th.pc.Following?)
             && !was.pc.Initialising? && !was.pc.Writing? && !th.pc.Initialising? && !th.pc.Writing?
    ensures NodeOk(w', n)
  {
  }

  /** A step of a search or a decrement that touches one node. */
  lemma TouchInv(w: World, t: nat, p: Ref, w': World)
    requires Inv(w) && p < |w.tb.mem| && Touches(w, t, Some(p), w')
    requires ThreadOk(w', t) && NodeOk(w', p)
    requires forall tok: Token :: !OfThread(tok, t) && tok != NextRef(p) ==> Lookup(w'.owns, tok) == Lookup(w.owns, tok)
    requires Lookup(w'.owns, NextRef(p)) == Target(w', NextRef(p))
    requires var th := w'.threads[t];
             && Lookup(w'.owns, Hold(t)) == th.hold && Lookup(w'.owns, Grab(t)) == th.grab
             && Lookup(w'.owns, Drop(t)) == th.drop && Lookup(w'.owns, Own(t)) == th.own
    requires forall n: Ref :: n < |w.tb.mem| ==>
               w'.tb.mem[n].rc - w.tb.mem[n].rc == |Units(w'.owns, n)| - |Units(w.owns, n)|
    requires var was, th := w.threads[t], w'.threads[t];
             && !was.pc.Initialising? && !was.pc.Writing? && !th.pc.Initialising? && !th.pc.Writing?
             && (IsWriter(was) ==> IsWriter(th) && th.b == was.b)
             && (forall n: Ref :: n in Dropped(was) && n != p ==> n in Dropped(th))
             && (was.pc.Bumping? || was.pc.Following? ==> |was.dying| > 0 && Last(was.dying) == p)
    ensures Inv(w')
  {
    TouchAgree(w, t, p, w');
    forall n: Ref | n < |w.tb.mem| && n != p && (w.tb.status[n] == Dying(t) || w.tb.status[n] == Dead(t)
                                                  || w.tb.status[n] == Private(t) || w.tb.status[n].Unlinked?)
      ensures NodeOk(w', n)
    {
      assert NodeOk(w, n);
    }
    forall n: Ref | n < |w'.tb.mem| ensures w'.tb.mem[n].rc == |Units(w'.owns, n)| {
      assert w.tb.mem[n].rc == |Units(w.owns, n)|;
    }
    LocalFrame(w, t, Some(p), w');
  }

  lemma TouchAgree(w: World, t: nat, p: Ref, w': World)
    requires Agree(w) && p < |w.tb.mem| && Touches(w, t, Some(p), w')
    requires forall tok: Token :: !OfThread(tok, t) && tok != NextRef(p) ==> Lookup(w'.owns, tok) == Lookup(w.owns, tok)
    requires Lookup(w'.owns, NextRef(p)) == Target(w', NextRef(p))
    requires var th := w'.threads[t];
             && Lookup(w'.owns, Hold(t)) == th.hold && Lookup(w'.owns, Grab(t)) == th.grab
             && Lookup(w'.owns, Drop(t)) == th.drop && Lookup(w'.owns, Own(t)) == th.own
    ensures Agree(w')
  {
    forall tok: Token ensures Lookup(w'.owns, tok) == Target(w', tok) {
      if !OfThread(tok, t) && tok != NextRef(p) {
        TargetSame(w, t, p, w', tok);
        assert Lookup(w.owns, tok) == Target(w, tok);
      } else if tok != NextRef(p) {
        TargetSelf(w', t, tok);
      }
    }
  }

  lemma TargetSame(w: World, t: nat, p: Ref, w': World, tok: Token)
    requires p < |w.tb.mem| && Touches(w, t, Some(p), w') && !OfThread(tok, t) && tok != NextRef(p)
    ensures Target(w', tok) == Target(w, tok)
  {
  }

  lemma TargetSelf(w: World, t: nat, tok: Token)
    requires t < |w.threads| && OfThread(tok, t)
    ensures tok == Hold(t) || tok == Grab(t) || tok == Drop(t) || tok == Own(t)
    ensures tok == Hold(t) ==> Target(w, tok) == w.threads[t].hold
    ensures tok == Grab(t) ==> Target(w, tok) == w.threads[t].grab
    ensures tok == Drop(t) ==> Target(w, tok) == w.threads[t].drop
    ensures tok == Own(t) ==> Target(w, tok) == w.threads[t].own
  {
  }

  /** A step that changes only the program counter of its thread. */
  lemma QuietInv(w: World, t: nat, th: Thread)
    requires Inv(w) && t < |w.threads| && ThreadOk(SetThread(w, t, th), t)
    requires var was := w.threads[t];
             && th.hold == was.hold && th.grab == was.grab && th.drop == was.drop && th.own == was.own
             && Dropped(th) == Dropped(was) && th.dying == was.dying
             && (was.pc.Bumping? || was.pc.Following? <==> th.pc.Bumping? || th.pc.Following?)
             && !was.pc.Initialising? && !was.pc.Writing? && !th.pc.Initialising? && !th.pc.Writing?
             && (IsWriter(was) ==> IsWriter(th) && th.b == was.b)
    ensures Inv(SetThread(w, t, th))
  {
    SelfTokens(w, t);
    MoveInv(w, t, th, w.owns);
    assert SetThread(w, t, th).(owns := w.owns) == SetThread(w, t, th);
  }

  lemma SelfTokens(w: World, t: nat)
    requires Agree(w) && t < |w.threads|
    ensures Lookup(w.owns, Hold(t)) == w.threads[t].hold && Lookup(w.owns, Grab(t)) == w.threads[t].grab
    ensures Lookup(w.owns, Drop(t)) == w.threads[t].drop && Lookup(w.owns, Own(t)) == w.threads[t].own
  {
  }

  lemma ReadInv(w: World, t: nat)
    requires Inv(w) && t < |w.threads| && w.threads[t].pc.Reading? && LocOk(w.tb, w.threads[t].b, ReadLoc(w.threads[t]))
    ensures Inv(ReadNext(w, t))
  {
    assert ThreadOk(w, t);
    var th := w.threads[t];
    var q := Load(w.tb, th.b, ReadLoc(th));
    assert BucketOk(w.tb, th.b);
    if q.Some? || th.hold.None? {
      QuietInv(w, t, if q.Some? then th.(pc := Counting(q.value)) else th.(pc := Returned(false)));
    } else {
      DropHold(w, t, Advance);
    }
  }

  /** `lfrc_refcnt_dec(cur)` begins: the held unit is now the one to drop. */
  lemma DropHold(w: World, t: nat, after: After)
    requires Inv(w) && t < |w.threads| && w.threads[t].hold.Some? && !IsWriter(w.threads[t])
    requires w.threads[t].grab.None? && w.threads[t].drop.None? && w.threads[t].own.None? && w.threads[t].dying == []
    requires after != EndDelete && w.threads[t].pc != Resting
    ensures Inv(SetThread(w, t, w.threads[t].(pc := Asserting, drop := w.threads[t].hold, hold := None, after := after))
                .(owns := Rename(w.owns, Hold(t), Drop(t))))
  {
    assert ThreadOk(w, t);
    SelfTokens(w, t);
    UnitsRename(w.owns, Hold(t), Drop(t));
    MoveInv(w, t, w.threads[t].(pc := Asserting, drop := w.threads[t].hold, hold := None, after := after),
            Rename(w.owns, Hold(t), Drop(t)));
  }

  lemma RaiseInv(w: World, t: nat, q: Ref, seen: nat)
    requires Inv(w) && t < |w.threads| && w.threads[t].pc == Raising(q, seen) && q < |w.tb.mem|
    ensures Inv(RaiseNext(w, t, q, seen))
  {
    assert ThreadOk(w, t);
    if w.tb.mem[q].rc == seen {
      GrabInv(w, t, q, RaiseNext(w, t, q, seen));
    } else {
      QuietInv(w, t, w.threads[t].(pc := Counting(q)));
    }
  }

  /** The compare-and-swap succeeded: one more unit, on a node whose count was not 0. */
  lemma GrabInv(w: World, t: nat, q: Ref, w': World)
    requires Inv(w) && t < |w.threads| && w.threads[t].pc.Raising? && q < |w.tb.mem| && w.tb.mem[q].rc > 0
    requires w' == SetThread(w, t, w.threads[t].(pc := Rechecking, grab := Some(q)))
                     .(tb := WithRc(w.tb, q, w.tb.mem[q].rc + 1), owns := w.owns[Grab(t) := q])
    ensures Inv(w')
  {
    assert ThreadOk(w, t) && NodeOk(w, q);
    SelfTokens(w, t);
    UnitsGain(w.owns, Grab(t), q);
    assert Lookup(w.owns, NextRef(q)) == Target(w, NextRef(q));
    TouchInv(w, t, q, w');
  }

  lemma RecheckInv(w: World, t: nat)
    requires Inv(w) && t < |w.threads| && w.threads[t].pc.Rechecking?
    requires LocOk(w.tb, w.threads[t].b, ReadLoc(w.threads[t]))
    ensures Inv(RecheckNext(w, t))
  {
    assert ThreadOk(w, t);
    var th := w.threads[t];
    SelfTokens(w, t);
    if Load(w.tb, th.b, ReadLoc(th)) != th.grab {
      UnitsRename(w.owns, Grab(t), Drop(t));
      MoveInv(w, t, th.(pc := Asserting, drop := th.grab, grab := None, after := ReadAgain),
              Rename(w.owns, Grab(t), Drop(t)));
    } else if th.hold.None? {
      UnitsRename(w.owns, Grab(t), Hold(t));
      MoveInv(w, t, th.(pc := Comparing, hold := th.grab, grab := None), Rename(w.owns, Grab(t), Hold(t)));
    } else {
      AdvanceInv(w, t);
    }
  }

  /** `safe_read` returned the next node: it becomes `cur`, and the old `cur` is dropped. */
  lemma AdvanceInv(w: World, t: nat)
    requires Inv(w) && t < |w.threads| && w.threads[t].pc.Rechecking? && w.threads[t].hold.Some?
    ensures var th := w.threads[t];
            Inv(SetThread(w, t, th.(pc := Asserting, drop := th.hold, hold := th.grab, grab := None, after := Advance))
                  .(owns := Rename(Rename(w.owns, Hold(t), Drop(t)), Grab(t), Hold(t))))
  {
    assert ThreadOk(w, t);
    SelfTokens(w, t);
    var th := w.threads[t];
    var owns := Rename(w.owns, Hold(t), Drop(t));
    UnitsRename(w.owns, Hold(t), Drop(t));
    assert Lookup(owns, Hold(t)) == None;
    UnitsRename(owns, Grab(t), Hold(t));
    MoveInv(w, t, th.(pc := Asserting, drop := th.hold, hold := th.grab, grab := None, after := Advance),
        Rename(owns, Grab(t), Hold(t)));
  }

  lemma CompareInv(w: World, t: nat)
    requires Inv(w) && t < |w.threads| && w.threads[t].pc.Comparing?
    requires w.threads[t].hold.Some? && w.threads[t].hold.value < |w.tb.mem|
    ensures Inv(CompareNext(w, t))
  {
    assert ThreadOk(w, t);
    var th := w.threads[t];
    var k := w.tb.mem[th.hold.value].key;
    if k < th.key {
      QuietInv(w, t, th.(pc := Reading));
    } else {
      DropHold(w, t, Answer(k == th.key));
    }
  }

  // ----- lfrc_refcnt_dec

  /** The count a running decrement is about to lower is positive: the assertion
      of `lfrc_refcnt_dec` holds. */
  lemma DropPositive(w: World, t: nat)
    requires Inv(w) && t < |w.threads| && (w.threads[t].pc.Asserting? || w.threads[t].pc.Lowering?)
    ensures w.threads[t].drop.Some? && w.threads[t].drop.value < |w.tb.mem|
    ensures w.tb.mem[w.threads[t].drop.value].rc > 0
  {
    assert ThreadOk(w, t);
    UnitsPositive(w, Drop(t), w.threads[t].drop.value);
  }

  /** The last unit of a node is dropped only after it was unlinked and its link
      was counted again. */
  lemma LastUnitRetired(w: World, t: nat, p: Ref)
    requires Inv(w) && t < |w.threads| && w.threads[t].drop == Some(p) && p < |w.tb.mem| && w.tb.mem[p].rc == 1
    ensures w.tb.status[p].Retired?
  {
    assert NodeOk(w, p);
    if w.tb.status[p].Linked? {
      LinkedUnit(w, t, p);
    } else if w.tb.status[p].Private? || w.tb.status[p].Unlinked? {
      OwnedUnit(w, t, p);
    }
  }

  lemma LinkedUnit(w: World, t: nat, p: Ref)
    requires Inv(w) && t < |w.threads| && w.threads[t].drop == Some(p) && p < |w.tb.mem| && w.tb.status[p].Linked?
    ensures w.tb.mem[p].rc > 1
  {
    assert NodeOk(w, p);
    var b := w.tb.status[p].bucket;
    var loc := HasPredecessor(w.tb, b, p);
    assert Target(w, Drop(t)) == Some(p);
    UnitsTwo(w, Drop(t), LinkToken(b, loc), p);
  }

  lemma OwnedUnit(w: World, t: nat, p: Ref)
    requires Inv(w) && t < |w.threads| && w.threads[t].drop == Some(p) && p < |w.tb.mem|
    requires w.tb.status[p].Private? || w.tb.status[p].Unlinked?
    requires w.tb.mem[p].rc > 0
    ensures w.tb.mem[p].rc > 1
  {
    assert NodeOk(w, p);
    var u := if w.tb.status[p].Private? then w.tb.status[p].who else w.writer[w.tb.status[p].bucket].value;
    assert ThreadOk(w, u);
    assert Target(w, Drop(t)) == Some(p);
    UnitsTwo(w, Drop(t), Own(u), p);
  }

  lemma LowerInv(w: World, t: nat, p: Ref)
    requires Inv(w) && t < |w.threads| && w.threads[t].pc.Lowering? && w.threads[t].drop == Some(p) && p < |w.tb.mem|
    requires w.tb.mem[p].rc > 0
    ensures Inv(LowerNext(w, t, p))
  {
    if w.tb.mem[p].rc == 1 {
      LastUnitRetired(w, t, p);
      DyingThread(w, t, p);
    } else {
      LivingThread(w, t, p);
    }
    LowerFrame(w, t, p);
  }

  lemma LowerFrame(w: World, t: nat, p: Ref)
    requires Inv(w) && t < |w.threads| && w.threads[t].pc.Lowering? && w.threads[t].drop == Some(p) && p < |w.tb.mem|
    requires w.tb.mem[p].rc > 0 && (w.tb.mem[p].rc == 1 ==> w.tb.status[p].Retired?)
    requires ThreadOk(LowerNext(w, t, p), t) && NodeOk(LowerNext(w, t, p), p)
    requires Dropped(LowerNext(w, t, p).threads[t]) == Dropped(w.threads[t])
    ensures Inv(LowerNext(w, t, p))
  {
    var w' := LowerNext(w, t, p);
    SelfTokens(w, t);
    assert ThreadOk(w, t);
    UnitsLose(w.owns, Drop(t));
    assert w'.owns == w.owns - {Drop(t)} && w.owns[Drop(t)] == p;
    assert Lookup(w.owns, NextRef(p)) == Target(w, NextRef(p));
    LowerTouches(w, t, p);
    TouchInv(w, t, p, w');
  }

  lemma LowerTouches(w: World, t: nat, p: Ref)
    requires Shaped(w.tb) && t < |w.threads| && p < |w.tb.mem|
    requires w.tb.mem[p].rc > 0 && (w.tb.mem[p].rc == 1 ==> w.tb.status[p].Retired?)
    ensures var w' := LowerNext(w, t, p);
            && Touches(w, t, Some(p), w') && w'.tb.mem[p].rc == w.tb.mem[p].rc - 1 && w'.owns == w.owns - {Drop(t)}
            && (forall n: Ref :: n < |w.tb.mem| && n != p ==> w'.tb.mem[n] == w.tb.mem[n])
            && w'.tb.mem[p].next == w.tb.mem[p].next && (Counted(w'.tb.status[p]) <==> Counted(w.tb.status[p]))
            && w'.threads[t].drop.None?
  {
  }

  lemma LivingThread(w: World, t: nat, p: Ref)
    requires Inv(w) && t < |w.threads| && w.threads[t].pc.Lowering? && w.threads[t].drop == Some(p) && p < |w.tb.mem|
    requires w.tb.mem[p].rc > 1
    ensures ThreadOk(LowerNext(w, t, p), t) && NodeOk(LowerNext(w, t, p), p)
    ensures Dropped(LowerNext(w, t, p).threads[t]) == Dropped(w.threads[t])
  {
  }

  lemma DyingThread(w: World, t: nat, p: Ref)
    requires Inv(w) && t < |w.threads| && w.threads[t].pc.Lowering? && w.threads[t].drop == Some(p) && p < |w.tb.mem|
    requires w.tb.mem[p].rc == 1 && w.tb.status[p].Retired?
    ensures ThreadOk(LowerNext(w, t, p), t) && NodeOk(LowerNext(w, t, p), p)
    ensures Dropped(LowerNext(w, t, p).threads[t]) == Dropped(w.threads[t])
  {
  }

  lemma BumpInv(w: World, t: nat, p: Ref)
    requires Inv(w) && t < |w.threads| && w.threads[t].pc.Bumping?
    requires |w.threads[t].dying| > 0 && Last(w.threads[t].dying) == p
    requires p < |w.tb.mem|
    ensures Inv(BumpNext(w, t, p))
  {
    assert ThreadOk(w, t) && NodeOk(w, p);
    SelfTokens(w, t);
    assert Lookup(w.owns, NextRef(p)) == Target(w, NextRef(p));
    TouchInv(w, t, p, BumpNext(w, t, p));
  }

  lemma FollowInv(w: World, t: nat, p: Ref)
    requires Inv(w) && t < |w.threads| && w.threads[t].pc.Following?
    requires |w.threads[t].dying| > 0 && Last(w.threads[t].dying) == p
    requires p < |w.tb.mem|
    ensures Inv(FollowNext(w, t, p))
  {
    var w' := FollowNext(w, t, p);
    assert ThreadOk(w, t) && NodeOk(w, p);
    SelfTokens(w, t);
    assert Lookup(w.owns, NextRef(p)) == Target(w, NextRef(p));
    UnitsRename(w.owns, NextRef(p), Drop(t));
    DeadThread(w, t, p);
    TouchInv(w, t, p, w');
  }

  lemma DeadThread(w: World, t: nat, p: Ref)
    requires Shaped(w.tb) && PointersOk(w.tb) && t < |w.threads| && w.threads[t].pc.Following?
    requires ThreadOk(w, t) && p < |w.tb.mem| && NodeOk(w, p)
    requires |w.threads[t].dying| > 0 && Last(w.threads[t].dying) == p
    requires p < |w.tb.mem|
    ensures ThreadOk(FollowNext(w, t, p), t) && NodeOk(FollowNext(w, t, p), p)
    ensures forall n: Ref :: n in Dropped(w.threads[t]) ==> n in Dropped(FollowNext(w, t, p).threads[t])
  {
    var w' := FollowNext(w, t, p);
    assert Dropped(w'.threads[t]) == Dropped(w.threads[t]) + [p];
  }

  lemma FreeInv(w: World, t: nat)
    requires Inv(w) && t < |w.threads| && w.threads[t].pc.Unwinding? && |w.threads[t].dying| > 0
    ensures Last(w.threads[t].dying) < |w.tb.status| && w.threads[t].b < |w.writer|
    ensures Inv(UnwindNext(w, t))
  {
    assert ThreadOk(w, t);
    var p := Last(w.threads[t].dying);
    assert NodeOk(w, p);
    FreedThread(w, t, p);
    SelfTokens(w, t);
    assert Lookup(w.owns, NextRef(p)) == Target(w, NextRef(p));
    TouchInv(w, t, p, UnwindNext(w, t));
  }

  lemma FreedThread(w: World, t: nat, p: Ref)
    requires Shaped(w.tb) && t < |w.threads| && w.threads[t].pc.Unwinding? && p < |w.tb.mem|
    requires |w.threads[t].dying| > 0 && Last(w.threads[t].dying) == p
    requires ThreadOk(w, t) && NodeOk(w, p)
    ensures w.threads[t].b < |w.writer|
    ensures ThreadOk(UnwindNext(w, t), t) && NodeOk(UnwindNext(w, t), p)
    ensures forall n: Ref :: n in Dropped(w.threads[t]) && n != p ==> n in Dropped(UnwindNext(w, t).threads[t])
  {
    var w' := UnwindNext(w, t);
    assert w.threads[t].dying == w'.threads[t].dying + [p];
  }
}
