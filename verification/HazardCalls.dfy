/** The return values of `insert` and `delete` under hazard pointers, whose deletes
    may scan before they return. */
module HazardCalls {
  import opened Buckets
  import opened ListWriter
  import opened HazardPointers
  import opened HazardSteps
  import opened HazardSafety
  import opened Calls

  function PhaseOf(th: Thread): Phase {
    if th.pc.Writing? then Working(th.b, th.pc.op)
    else if th.pc.Scanning? || th.pc.Sweeping? then Leaving(th.b)
    else Outside
  }

  function ViewOf(w: World, u: nat): View {
    View(w.tb, if u < |w.threads| then PhaseOf(w.threads[u]) else Outside)
  }

  ghost function Views(run: seq<World>, u: nat): (vs: seq<View>)
    ensures |vs| == |run| && forall i: nat :: i < |run| ==> vs[i] == ViewOf(run[i], u)
  {
    seq(|run|, i requires 0 <= i < |run| => ViewOf(run[i], u))
  }

  lemma StepAdvances(w: World, t: nat, c: Choice, w': World, u: nat)
    requires Inv(w) && Taken(w, t, c, w')
    ensures Advances(ViewOf(w, u), ViewOf(w', u))
  {
    OthersSame(w, t, c, w');
    if u == t {
      if w.threads[t].pc.Writing? {
        WriteAdvances(w, t, c, w');
      } else {
        OtherAdvances(w, t, c, w');
      }
    }
  }

  lemma WriteAdvances(w: World, t: nat, c: Choice, w': World)
    requires Inv(w) && Taken(w, t, c, w') && w.threads[t].pc.Writing?
    ensures Advances(ViewOf(w, t), ViewOf(w', t))
  {
    var b, op := w.threads[t].b, w.threads[t].pc.op;
    assert ThreadOk(w, t);
    if op.Walking? {
      WalkTells(w.tb, b, t, op);
    } else if op.Unlinking? {
      UnlinkTells(w.tb, b, t, op);
    } else if op.Publishing? {
      PublishTells(w.tb, b, t, op, Working(b, Idle(true)));
    } else {
      QuietAdvances(w, t, c, w');
    }
  }

  lemma QuietAdvances(w: World, t: nat, c: Choice, w': World)
    requires Taken(w, t, c, w') && w.threads[t].pc.Writing?
    requires var op := w.threads[t].pc.op; !op.Walking? && !op.Unlinking? && !op.Publishing?
    ensures Advances(ViewOf(w, t), ViewOf(w', t))
  {
  }

  lemma OtherAdvances(w: World, t: nat, c: Choice, w': World)
    requires Taken(w, t, c, w') && !w.threads[t].pc.Writing?
    ensures Advances(ViewOf(w, t), ViewOf(w', t))
  {
  }

  lemma RunAdvances(run: seq<World>, i: nat, u: nat)
    requires Legal(run)
    ensures AdvanceAt(Views(run, u), i)
  {
    if i + 1 < |run| {
      RunInv(run, i);
      assert StepAt(run, i);
      var t: nat, c: Choice :| Taken(run[i], t, c, run[i + 1]);
      StepAdvances(run[i], t, c, run[i + 1], u);
    }
  }

  // ----- the arguments of a call

  /** The first step of an insert or delete takes over its arguments. */
  lemma StartsCall(w: World, t: nat, c: Choice)
    requires Enabled(w, t, c) && w.threads[t].pc.Resting? && !c.search
    ensures Called(ViewOf(Act(w, t, c), t).phase, c.b, c.del, c.key)
  {
  }

  /** Thread `u` is in the insert or delete that it began with the choice `c`. */
  ghost predicate CalledWith(run: seq<World>, j: nat, u: nat, c: Choice) {
    && j < |run|
    && var s := CallStart(Views(run, u), j);
       && s < j && u < |run[s].threads| && run[s].threads[u].pc.Resting?
       && Taken(run[s], u, c, run[s + 1]) && !c.search
  }

  lemma Caller(run: seq<World>, j: nat, u: nat) returns (c: Choice)
    requires Legal(run) && j < |run| && !ViewOf(run[j], u).phase.Outside?
    ensures CalledWith(run, j, u, c)
  {
    var vs := Views(run, u);
    assert vs[0] == ViewOf(run[0], u) && vs[j] == ViewOf(run[j], u);
    var s := CallStart(vs, j);
    assert vs[s] == ViewOf(run[s], u) && vs[s + 1] == ViewOf(run[s + 1], u) && StepAt(run, s);
    var t: nat, c': Choice :| Taken(run[s], t, c', run[s + 1]);
    OthersSame(run[s], t, c', run[s + 1]);
    StaysOutside(run[s], t, c', run[s + 1]);
    c := c';
  }

  /** Only the first step of an insert or delete leads into one. */
  lemma StaysOutside(w: World, t: nat, c: Choice, w': World)
    requires Taken(w, t, c, w') && PhaseOf(w.threads[t]).Outside?
    ensures t < |w'.threads|
    ensures !PhaseOf(w'.threads[t]).Outside? ==> w.threads[t].pc.Resting? && !c.search
  {
  }

  /** In every run the return value of an insert or delete tells what the call did
      to the set of its bucket. */
  lemma ReturnTells(run: seq<World>, j: nat, u: nat, c: Choice)
    requires Legal(run) && j + 1 < |run|
    requires !ViewOf(run[j], u).phase.Outside? && ViewOf(run[j + 1], u).phase.Outside?
    requires CalledWith(run, j, u, c)
    ensures HonestCall(Views(run, u), j, c.b, c.del, c.key)
  {
    var vs := Views(run, u);
    assert vs[0] == ViewOf(run[0], u) && vs[j] == ViewOf(run[j], u) && vs[j + 1] == ViewOf(run[j + 1], u);
    forall i: nat ensures AdvanceAt(vs, i) {
      RunAdvances(run, i, u);
    }
    var s := CallStart(vs, j);
    assert vs[s + 1] == ViewOf(run[s + 1], u);
    StartsCall(run[s], u, c);
    ReturnIsHonest(vs, j, c.b, c.del, c.key);
  }

  // ----- what a call does

  function Stepping(w: World, t: nat, b: nat): Op {
    if t < |w.threads| && w.threads[t].b == b && w.threads[t].pc.Writing? then w.threads[t].pc.op else Idle(false)
  }

  /** Under hazard pointers too a bucket's set changes only at its writer's two stores
      to `*prev`, by exactly the key it looked for: searches and scans never change it. */
  lemma StepChangesSet(w: World, t: nat, c: Choice, w': World, b: nat)
    requires Inv(w) && Taken(w, t, c, w') && b < |w.tb.heads|
    ensures var op := Stepping(w, t, b);
            if op.Unlinking? then Removes(w.tb, w'.tb, b, op.key)
            else if op.Publishing? then Adds(w.tb, w'.tb, b, op.key)
            else SameKeys(w.tb, w'.tb, b)
  {
    assert ThreadOk(w, t);
    var th := w.threads[t];
    if th.pc.Writing? && th.pc.op.Unlinking? {
      UnlinkEffect(w.tb, th.b, th.pc.op.prev, th.pc.op.node, th.pc.op.key);
    } else if th.pc.Writing? && th.pc.op.Publishing? {
      PublishEffect(w.tb, th.b, th.pc.op.prev, th.pc.op.cur, th.pc.op.node, th.pc.op.key);
    } else {
      OffListSame(w, t, c, w', b);
    }
    if b != th.b || !th.pc.Writing? || !(th.pc.op.Unlinking? || th.pc.op.Publishing?) {
      SameBucketKeeps(w.tb, w'.tb, b);
    }
  }

  lemma OffListSame(w: World, t: nat, c: Choice, w': World, b: nat)
    requires Inv(w) && Taken(w, t, c, w') && b < |w.tb.heads|
    requires w.threads[t].pc.Writing? ==> !w.threads[t].pc.op.Unlinking? && !w.threads[t].pc.op.Publishing?
    ensures SameBucket(w.tb, w'.tb, b)
  {
    assert ThreadOk(w, t);
    if w.threads[t].pc.Writing? {
      OffListWrite(w, t, c, w', b);
    } else {
      OffListScan(w, t, c, w', b);
    }
  }

  lemma OffListWrite(w: World, t: nat, c: Choice, w': World, b: nat)
    requires Inv(w) && Taken(w, t, c, w') && b < |w.tb.heads| && w.threads[t].pc.Writing?
    requires !w.threads[t].pc.op.Unlinking? && !w.threads[t].pc.op.Publishing?
    ensures SameBucket(w.tb, w'.tb, b)
  {
    assert ThreadOk(w, t);
  }

  lemma OffListScan(w: World, t: nat, c: Choice, w': World, b: nat)
    requires Inv(w) && Taken(w, t, c, w') && b < |w.tb.heads| && !w.threads[t].pc.Writing?
    ensures SameBucket(w.tb, w'.tb, b)
  {
    assert ThreadOk(w, t);
    var pc := w.threads[t].pc;
    if pc.Sweeping? && pc.rest != [] {
      assert pc.rest[0] in Pending(w.threads[t]);
    }
  }

  /** One writer is active per bucket: while a thread is in a call on bucket `b`,
      only its own stores change the set of `b`. */
  lemma QuietTaken(w: World, t: nat, c: Choice, w': World, u: nat, b: nat)
    requires Inv(w) && Taken(w, t, c, w') && b < |w.tb.heads|
    requires u < |w.threads| && IsWriter(w.threads[u].pc) && w.threads[u].b == b
    ensures SameKeys(w.tb, w'.tb, b) || Stores(ViewOf(w, u), ViewOf(w', u))
  {
    StepChangesSet(w, t, c, w', b);
    var op := Stepping(w, t, b);
    if op.Unlinking? || op.Publishing? {
      assert ThreadOk(w, t) && ThreadOk(w, u);
      assert ViewOf(w, u).phase == Working(b, op);
    }
  }

  lemma QuietDuring(run: seq<World>, s: nat, k: nat, u: nat, b: nat, del: bool, key: int)
    requires Legal(run) && k + 1 < |run| && During(Views(run, u), s, k, b, del, key)
    ensures QuietAt(Views(run, u), k, b)
  {
    var vs := Views(run, u);
    assert vs[k] == ViewOf(run[k], u) && vs[k + 1] == ViewOf(run[k + 1], u);
    RunInv(run, k);
    assert ThreadOk(run[k], u) && StepAt(run, k);
    var t: nat, c: Choice :| Taken(run[k], t, c, run[k + 1]);
    QuietTaken(run[k], t, c, run[k + 1], u, b);
  }

  lemma QuietStart(run: seq<World>, s: nat, u: nat, c: Choice)
    requires Legal(run) && s + 1 < |run| && u < |run[s].threads| && run[s].threads[u].pc.Resting?
    requires Taken(run[s], u, c, run[s + 1]) && !c.search
    ensures QuietAt(Views(run, u), s, c.b)
  {
    var vs := Views(run, u);
    assert vs[s] == ViewOf(run[s], u) && vs[s + 1] == ViewOf(run[s + 1], u);
  }

  /** An insert or delete returns 1 exactly if the key was absent (insert) or present
      (delete) when it was called; afterwards the set of its bucket is the old one with
      or without the key, although searches, scans and the calls on other buckets run
      in between. */
  lemma CallDecides(run: seq<World>, j: nat, u: nat, c: Choice)
    requires Legal(run) && j + 1 < |run|
    requires !ViewOf(run[j], u).phase.Outside? && ViewOf(run[j + 1], u).phase.Outside?
    requires CalledWith(run, j, u, c)
    ensures var s := CallStart(Views(run, u), j);
            && (Returns(ViewOf(run[j], u).phase) <==> (Has(run[s].tb, c.b, c.key) <==> c.del))
            && Applied(run[s].tb, run[j + 1].tb, c.b, c.del, c.key)
  {
    var vs := Views(run, u);
    var s := CallStart(vs, j);
    ReturnTells(run, j, u, c);
    assert vs[0] == ViewOf(run[0], u) && vs[s] == ViewOf(run[s], u) && vs[j] == ViewOf(run[j], u);
    assert vs[j + 1] == ViewOf(run[j + 1], u);
    forall i: nat ensures AdvanceAt(vs, i) {
      RunAdvances(run, i, u);
    }
    forall k: nat | s <= k < j + 1 ensures QuietAt(vs, k, c.b) {
      if k == s {
        QuietStart(run, s, u, c);
      } else {
        InCall(vs, k, j, c.b, c.del, c.key);
        QuietDuring(run, s, k, u, c.b, c.del, c.key);
      }
    }
    UndisturbedCall(vs, j, c.b, c.del, c.key);
  }

  // ----- nobody is blocked

  /** Every thread has a next step in every reachable state, except an insert that
      needs a node while none is free and a call on a bucket that has its writer. */
  lemma NeverStuck(w: World, t: nat, c: Choice)
    requires Inv(w) && t < |w.threads|
    requires w.threads[t].pc.Resting? ==> c.b < |w.writer| && (c.search || w.writer[c.b] == None)
    requires w.threads[t].pc.Writing? && w.threads[t].pc.op.Allocating? ==>
               c.node < |w.tb.mem| && w.tb.status[c.node] == Free
    ensures Enabled(w, t, c)
  {
    assert ThreadOk(w, t);
    var th := w.threads[t];
    if th.pc.Writing? && (th.pc.op.Unlinking? || th.pc.op.Publishing?) {
      assert BucketOk(w.tb, th.b);
    }
    if th.pc.Sweeping? && |th.pc.rest| > 0 {
      assert th.pc.rest[0] in Pending(th);
    }
  }
}
