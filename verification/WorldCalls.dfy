/** The return values of `insert` and `delete` under GECOS, SGECOS, SEQLOCK and
    GCLOCK, the last two with writers competing for the bucket. */
module WorldCalls {
  import opened Buckets
  import opened ListWriter
  import opened Worlds
  import opened Calls

  function PhaseOf(th: Thread): Phase {
    match th
    case Resting => Outside
    case Probing(b, key) => Waiting(b, true, key)
    case Spinning(b, del, key) => Waiting(b, del, key)
    case Trying(b, del, key, _) => Waiting(b, del, key)
    case Entered(b, del, key) => Waiting(b, del, key)
    case Inside(b, op) => Working(b, op)
    case Freeing(b, _) => Leaving(b)
  }

  function ViewOf(w: World, u: nat): View {
    View(w.tb, if u < |w.threads| then PhaseOf(w.threads[u]) else Outside)
  }

  ghost function Views(run: seq<World>, u: nat): (vs: seq<View>)
    ensures |vs| == |run| && forall i: nat :: i < |run| ==> vs[i] == ViewOf(run[i], u)
  {
    seq(|run|, i requires 0 <= i < |run| => ViewOf(run[i], u))
  }

  lemma StepAdvances(w: World, t: nat, c: Choice, w': World, u: nat)
    requires Inv(w) && WriterStep(w, t, c, w')
    ensures Advances(ViewOf(w, u), ViewOf(w', u))
  {
    if u == t {
      assert ThreadOk(w, t);
      if w.threads[t].Inside? {
        InsideAdvances(w, t, c, w');
      } else if w.threads[t].Probing? {
        ProbeTells(w, t);
      }
    }
  }

  /** `*head == NULL` without the lock. */
  lemma ProbeTells(w: World, t: nat)
    requires Inv(w) && t < |w.threads| && w.threads[t].Probing?
    ensures w.threads[t].b < |w.tb.heads|
    ensures w.tb.heads[w.threads[t].b] == None ==> !Has(w.tb, w.threads[t].b, w.threads[t].key)
  {
    assert ThreadOk(w, t) && BucketOk(w.tb, w.threads[t].b);
  }

  lemma InsideAdvances(w: World, t: nat, c: Choice, w': World)
    requires Inv(w) && WriterStep(w, t, c, w') && w.threads[t].Inside?
    ensures Advances(ViewOf(w, t), ViewOf(w', t))
  {
    var b, op := w.threads[t].b, w.threads[t].op;
    assert ThreadOk(w, t);
    if op.Walking? {
      WalkTells(w.tb, b, t, op);
    } else if op.Unlinking? {
      UnlinkTells(w.tb, b, t, op);
    } else if op.Publishing? {
      PublishTells(w.tb, b, t, op, Working(b, Idle(true)));
    }
  }

  lemma RunAdvances(run: seq<World>, i: nat, u: nat)
    requires Legal(run)
    ensures AdvanceAt(Views(run, u), i)
  {
    if i + 1 < |run| {
      RunInv(run, i);
      assert StepAt(run, i);
      var t: nat, c: Choice :| WriterStep(run[i], t, c, run[i + 1]);
      StepAdvances(run[i], t, c, run[i + 1], u);
    }
  }

  // ----- the arguments of a call

  /** The first step of a call takes over its arguments: a thread that is told to
      insert or delete a key in a bucket sets out to do that. */
  lemma StartsCall(w: World, t: nat, c: Choice)
    requires Enabled(w, t, c) && w.threads[t].Resting?
    ensures Called(ViewOf(Next(w, t, c), t).phase, c.b, c.del, c.key)
  {
  }

  /** Thread `u` is in the call that it began with the choice `c`. */
  ghost predicate CalledWith(run: seq<World>, j: nat, u: nat, c: Choice) {
    && j < |run|
    && var s := CallStart(Views(run, u), j);
       s < j && u < |run[s].threads| && run[s].threads[u].Resting? && WriterStep(run[s], u, c, run[s + 1])
  }

  lemma Caller(run: seq<World>, j: nat, u: nat) returns (c: Choice)
    requires Legal(run) && j < |run| && u < |run[j].threads| && !run[j].threads[u].Resting?
    ensures CalledWith(run, j, u, c)
  {
    var vs := Views(run, u);
    assert vs[0] == ViewOf(run[0], u) && vs[j] == ViewOf(run[j], u);
    var s := CallStart(vs, j);
    assert vs[s] == ViewOf(run[s], u) && vs[s + 1] == ViewOf(run[s + 1], u) && StepAt(run, s);
    var t: nat, c': Choice :| WriterStep(run[s], t, c', run[s + 1]);
    RunInv(run, s);
    StepInv(run[s], t, c', run[s + 1]);
    c := c';
  }

  /** In every run of every scheme, whatever the other writers do, the return value
      of an insert or delete tells what the call did to the set of its bucket. */
  lemma ReturnTells(run: seq<World>, j: nat, u: nat, c: Choice)
    requires Legal(run) && j + 1 < |run| && u < |run[j].threads| && u < |run[j + 1].threads|
    requires !run[j].threads[u].Resting? && run[j + 1].threads[u].Resting?
    requires CalledWith(run, j, u, c)
    ensures HonestCall(Views(run, u), j, c.b, c.del, c.key)
  {
    var vs := Views(run, u);
    assert vs[0] == ViewOf(run[0], u) && vs[j] == ViewOf(run[j], u) && vs[j + 1] == ViewOf(run[j + 1], u);
    forall i: nat ensures AdvanceAt(vs, i) {
      RunAdvances(run, i, u);
    }
    var s := CallStart(vs, j);
    assert vs[s + 1] == ViewOf(run[s + 1], u);
    StartsCall(run[s], u, c);
    ReturnIsHonest(vs, j, c.b, c.del, c.key);
  }

  // ----- nobody is blocked

  /** Every thread has a next step in every reachable state, except an insert that
      needs a node while none is free and, without locks, a call on a bucket that
      has its writer. */
  lemma NeverStuck(w: World, t: nat, c: Choice)
    requires Inv(w) && t < |w.threads|
    requires w.threads[t].Resting? ==> c.b < |w.holder| && (Locked(w.scheme) || w.holder[c.b] == None)
    requires w.threads[t].Inside? && w.threads[t].op.Allocating? ==> c.node < |w.tb.mem| && w.tb.status[c.node] == Free
    ensures Enabled(w, t, c)
  {
    assert ThreadOk(w, t);
    if w.threads[t].Inside? && (w.threads[t].op.Unlinking? || w.threads[t].op.Publishing?) {
      assert BucketOk(w.tb, w.threads[t].b);
    }
  }
}
