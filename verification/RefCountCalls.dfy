/** The return values of `insert` and `delete` under reference counting. */
module RefCountCalls {
  import opened Buckets
  import opened ListWriter
  import opened RefCounts
  import opened RefCountInvariants
  import opened RefCountRuns
  import opened RefCountReaders
  import opened RefCountSafety
  import opened Calls

  function PhaseOf(th: Thread): Phase {
    if th.pc.Writing? || th.pc.Initialising? then Working(th.b, th.pc.op)
    else if InDec(th.pc) && th.after.EndDelete? then Leaving(th.b)
    else Outside
  }

  function ViewOf(w: World, u: nat): View {
    View(w.tb, if u < |w.threads| then PhaseOf(w.threads[u]) else Outside)
  }

  ghost function Views(run: seq<World>, u: nat): (vs: seq<View>)
    ensures |vs| == |run| && forall i: nat :: i < |run| ==> vs[i] == ViewOf(run[i], u)
  {
    seq(|run|, i requires 0 <= i < |run| => ViewOf(run[i], u))
  }

  lemma OwnAdvances(w: World, t: nat, c: Choice)
    requires Inv(w) && Enabled(w, t, c)
    ensures Advances(ViewOf(w, t), ViewOf(Act(w, t, c), t))
  {
    PcCases(w.threads[t].pc);
    assert ThreadOk(w, t);
    if w.threads[t].pc.Writing? {
      WriteAdvances(w, t, c);
    } else if InDec(w.threads[t].pc) {
      DecAdvances(w, t, c);
    } else {
      SearchAdvances(w, t, c);
    }
  }

  lemma WriteAdvances(w: World, t: nat, c: Choice)
    requires Inv(w) && Enabled(w, t, c) && w.threads[t].pc.Writing?
    ensures Advances(ViewOf(w, t), ViewOf(Act(w, t, c), t))
  {
    var b, op := w.threads[t].b, w.threads[t].pc.op;
    assert ThreadOk(w, t);
    if op.Walking? {
      WalkTells(w.tb, b, t, op);
    } else if op.Unlinking? {
      UnlinkTells(w.tb, b, t, op);
    } else if op.Publishing? {
      PublishTells(w.tb, b, t, op, Outside);
    } else {
      QuietAdvances(w, t, c);
    }
  }

  lemma QuietAdvances(w: World, t: nat, c: Choice)
    requires Enabled(w, t, c) && w.threads[t].pc.Writing?
    requires var op := w.threads[t].pc.op; !op.Walking? && !op.Unlinking? && !op.Publishing?
    ensures Advances(ViewOf(w, t), ViewOf(Act(w, t, c), t))
  {
  }

  lemma DecAdvances(w: World, t: nat, c: Choice)
    requires Enabled(w, t, c) && InDec(w.threads[t].pc)
    ensures Advances(ViewOf(w, t), ViewOf(Act(w, t, c), t))
  {
  }

  lemma SearchAdvances(w: World, t: nat, c: Choice)
    requires Enabled(w, t, c) && !InDec(w.threads[t].pc) && !w.threads[t].pc.Writing?
    ensures Advances(ViewOf(w, t), ViewOf(Act(w, t, c), t))
  {
  }

  lemma StepAdvances(w: World, w': World, u: nat)
    requires Inv(w) && Step(w, w')
    ensures Advances(ViewOf(w, u), ViewOf(w', u))
  {
    var t: nat, c: Choice :| Taken(w, t, c, w');
    SameShape(w, t, c);
    if u == t {
      OwnAdvances(w, t, c);
      TickAdvances(w, Act(w, t, c), w', t);
    }
  }

  lemma TickAdvances(w: World, v: World, w': World, u: nat)
    requires Advances(ViewOf(w, u), ViewOf(v, u)) && w' == v.(now := w.now + 1)
    ensures Advances(ViewOf(w, u), ViewOf(w', u))
  {
  }

  lemma RunAdvances(run: seq<World>, i: nat, u: nat)
    requires Legal(run)
    ensures AdvanceAt(Views(run, u), i)
  {
    if i + 1 < |run| {
      RunInv(run, i);
      assert StepAt(run, i);
      StepAdvances(run[i], run[i + 1], u);
    }
  }

  // ----- the arguments of a call

  /** The first step of an insert or delete takes over its arguments. */
  lemma StartsCall(w: World, t: nat, c: Choice)
    requires Enabled(w, t, c) && w.threads[t].pc.Resting? && !c.search
    ensures Called(ViewOf(Next(w, t, c), t).phase, c.b, c.del, c.key)
  {
  }

  /** Thread `u` is in the insert or delete that it began with the choice `c`. */
  ghost predicate CalledWith(run: seq<World>, j: nat, u: nat, c: Choice) {
    && j < |run|
    && var s := CallStart(Views(run, u), j);
       && s < j && u < |run[s].threads| && run[s].threads[u].pc.Resting?
       && Taken(run[s], u, c, run[s + 1]) && !c.search
  }

  lemma Caller(run: seq<World>, j: nat, u: nat) returns (c: Choice)
    requires Legal(run) && j < |run| && !ViewOf(run[j], u).phase.Outside?
    ensures CalledWith(run, j, u, c)
  {
    var vs := Views(run, u);
    assert vs[0] == ViewOf(run[0], u) && vs[j] == ViewOf(run[j], u);
    var s := CallStart(vs, j);
    assert vs[s] == ViewOf(run[s], u) && vs[s + 1] == ViewOf(run[s + 1], u);
    c := EntryAt(run, s, u);
  }

  lemma EntryAt(run: seq<World>, s: nat, u: nat) returns (c: Choice)
    requires Legal(run) && s + 1 < |run|
    requires ViewOf(run[s], u).phase.Outside? && !ViewOf(run[s + 1], u).phase.Outside?
    ensures u < |run[s].threads| && run[s].threads[u].pc.Resting? && Taken(run[s], u, c, run[s + 1]) && !c.search
  {
    RunInv(run, s);
    assert StepAt(run, s);
    c := Entry(run[s], run[s + 1], u);
  }

  /** Only the first step of an insert or delete leads into one. */
  lemma Entry(w: World, w': World, u: nat) returns (c: Choice)
    requires Inv(w) && Step(w, w') && ViewOf(w, u).phase.Outside? && !ViewOf(w', u).phase.Outside?
    ensures u < |w.threads| && w.threads[u].pc.Resting? && Taken(w, u, c, w') && !c.search
  {
    var t: nat, c': Choice :| Taken(w, t, c', w');
    SameShape(w, t, c');
    EntrySelf(w, t, c');
    c := c';
  }

  lemma EntrySelf(w: World, t: nat, c: Choice)
    requires Inv(w) && Enabled(w, t, c) && PhaseOf(w.threads[t]).Outside? && t < |Act(w, t, c).threads|
    ensures !PhaseOf(Act(w, t, c).threads[t]).Outside? ==> w.threads[t].pc.Resting? && !c.search
  {
    PcCases(w.threads[t].pc);
    if InDec(w.threads[t].pc) {
      DecStaysOut(w, t, c);
    } else if !w.threads[t].pc.Resting? {
      SearchStaysOut(w, t, c);
    }
  }

  lemma DecStaysOut(w: World, t: nat, c: Choice)
    requires Enabled(w, t, c) && InDec(w.threads[t].pc) && PhaseOf(w.threads[t]).Outside? && t < |Act(w, t, c).threads|
    ensures PhaseOf(Act(w, t, c).threads[t]).Outside?
  {
  }

  lemma SearchStaysOut(w: World, t: nat, c: Choice)
    requires Enabled(w, t, c) && (Searching(w.threads[t].pc) || w.threads[t].pc.Returned?)
    requires t < |Act(w, t, c).threads|
    ensures PhaseOf(Act(w, t, c).threads[t]).Outside?
  {
  }

  /** In every run the return value of an insert or delete tells what the call did
      to the set of its bucket. */
  lemma ReturnTells(run: seq<World>, j: nat, u: nat, c: Choice)
    requires Legal(run) && j + 1 < |run|
    requires !ViewOf(run[j], u).phase.Outside? && ViewOf(run[j + 1], u).phase.Outside?
    requires CalledWith(run, j, u, c)
    ensures HonestCall(Views(run, u), j, c.b, c.del, c.key)
  {
    var vs := Views(run, u);
    assert vs[0] == ViewOf(run[0], u) && vs[j] == ViewOf(run[j], u) && vs[j + 1] == ViewOf(run[j + 1], u);
    forall i: nat ensures AdvanceAt(vs, i) {
      RunAdvances(run, i, u);
    }
    var s := CallStart(vs, j);
    assert vs[s + 1] == ViewOf(run[s + 1], u);
    StartsCall(run[s], u, c);
    ReturnIsHonest(vs, j, c.b, c.del, c.key);
  }

  // ----- what a call does

  /** One writer is active per bucket: while a thread is in a call on bucket `b`,
      only its own stores change the set of `b`. */
  lemma QuietStep(run: seq<World>, k: nat, u: nat, b: nat)
    requires Legal(run) && k + 1 < |run| && b < |run[k].tb.heads| && u < |run[k].threads|
    requires IsWriter(run[k].threads[u]) && run[k].threads[u].b == b
    ensures SameKeys(run[k].tb, run[k + 1].tb, b) || Stores(ViewOf(run[k], u), ViewOf(run[k + 1], u))
  {
    RunInv(run, k);
    assert StepAt(run, k);
    QuietTaken(run[k], run[k + 1], u, b);
  }

  lemma QuietDuring(run: seq<World>, s: nat, k: nat, u: nat, b: nat, del: bool, key: int)
    requires Legal(run) && k + 1 < |run| && During(Views(run, u), s, k, b, del, key)
    ensures QuietAt(Views(run, u), k, b)
  {
    var vs := Views(run, u);
    assert vs[k] == ViewOf(run[k], u) && vs[k + 1] == ViewOf(run[k + 1], u);
    InBucket(run, k, u);
    QuietStep(run, k, u, b);
  }

  lemma InBucket(run: seq<World>, k: nat, u: nat)
    requires Legal(run) && k < |run| && !ViewOf(run[k], u).phase.Outside?
    ensures u < |run[k].threads| && IsWriter(run[k].threads[u]) && run[k].threads[u].b < |run[k].tb.heads|
    ensures var p := ViewOf(run[k], u).phase; (p.Working? || p.Leaving?) && p.b == run[k].threads[u].b
  {
    RunInv(run, k);
    assert ThreadOk(run[k], u);
  }

  lemma QuietTaken(w: World, w': World, u: nat, b: nat)
    requires Inv(w) && Step(w, w') && b < |w.tb.heads| && u < |w.threads| && IsWriter(w.threads[u]) && w.threads[u].b == b
    ensures SameKeys(w.tb, w'.tb, b) || Stores(ViewOf(w, u), ViewOf(w', u))
  {
    var t: nat, c: Choice :| Taken(w, t, c, w');
    StepChangesSet(w, t, c, b);
    var op := Stepping(w, t, b);
    if op.Unlinking? || op.Publishing? {
      OneWriter(w, t, u, b);
      StoreMoves(w, t, c, b);
      assert ViewOf(w, u).phase == Working(b, op);
    }
  }

  lemma OneWriter(w: World, t: nat, u: nat, b: nat)
    requires Inv(w) && t < |w.threads| && u < |w.threads|
    requires IsWriter(w.threads[t]) && IsWriter(w.threads[u]) && w.threads[t].b == b == w.threads[u].b
    ensures t == u
  {
    assert ThreadOk(w, t) && ThreadOk(w, u);
  }

  lemma StoreMoves(w: World, t: nat, c: Choice, b: nat)
    requires Enabled(w, t, c) && (Stepping(w, t, b).Unlinking? || Stepping(w, t, b).Publishing?)
    ensures t < |Act(w, t, c).threads| && PhaseOf(Act(w, t, c).threads[t]) != PhaseOf(w.threads[t])
  {
  }

  /** An insert or delete returns 1 exactly if the key was absent (insert) or present
      (delete) when it was called; afterwards the set of its bucket is the old one with
      or without the key, although searches, decrements and the calls on other buckets
      run in between. */
  lemma CallDecides(run: seq<World>, j: nat, u: nat, c: Choice)
    requires Legal(run) && j + 1 < |run|
    requires !ViewOf(run[j], u).phase.Outside? && ViewOf(run[j + 1], u).phase.Outside?
    requires CalledWith(run, j, u, c)
    ensures var s := CallStart(Views(run, u), j);
            && (Returns(ViewOf(run[j], u).phase) <==> (Has(run[s].tb, c.b, c.key) <==> c.del))
            && Applied(run[s].tb, run[j + 1].tb, c.b, c.del, c.key)
  {
    var vs := Views(run, u);
    var s := CallStart(vs, j);
    ReturnTells(run, j, u, c);
    assert vs[0] == ViewOf(run[0], u) && vs[s] == ViewOf(run[s], u) && vs[j] == ViewOf(run[j], u);
    assert vs[j + 1] == ViewOf(run[j + 1], u);
    forall i: nat ensures AdvanceAt(vs, i) {
      RunAdvances(run, i, u);
    }
    forall k: nat | s <= k < j + 1 ensures QuietAt(vs, k, c.b) {
      if k == s {
        QuietStart(run, s, u, c);
      } else {
        InCall(vs, k, j, c.b, c.del, c.key);
        QuietDuring(run, s, k, u, c.b, c.del, c.key);
      }
    }
    UndisturbedCall(vs, j, c.b, c.del, c.key);
  }

  lemma QuietStart(run: seq<World>, s: nat, u: nat, c: Choice)
    requires Legal(run) && s + 1 < |run| && u < |run[s].threads| && run[s].threads[u].pc.Resting?
    requires Taken(run[s], u, c, run[s + 1]) && !c.search
    ensures QuietAt(Views(run, u), s, c.b)
  {
    var vs := Views(run, u);
    assert vs[s] == ViewOf(run[s], u) && vs[s + 1] == ViewOf(run[s + 1], u);
  }
}
