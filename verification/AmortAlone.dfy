/** What `get_free` and `add_free` of SIMPLE_AMORT_FREE do: when a local list is given
    to the other threads, and that a thread that runs alone completes its call.  A node
    freed by one thread is handed out by another. */
module AmortAlone {
  import opened Buckets
  import opened AmortAllocator

  // ----- when a list is given

  /** `add_free(p)` puts `p` in front of the local list and counts it.  It goes on to
      give the list away exactly if it is long enough and nobody's list is there. */
  lemma PushDecides(w: World, t: nat, c: Choice, w': World)
    requires Inv(w) && Taken(w, t, c, w') && w.threads[t].pc.Ready? && !c.get
    ensures var th, th' := w.threads[t], w'.threads[t];
            && th'.chain == [c.node] + th.chain && th'.lcnt == th.lcnt + 1
            && Follows(w'.mrNext, th'.lfl, th'.chain) && w'.freelist == w.freelist && w'.chain == w.chain
            && th'.pc == if th.lcnt + 1 >= AMORT_FREE_ON && w.freelist == None then Giving else Ready
  {
    PushInv(w, t, c.node);
    assert ThreadOk(w', t);
  }

  /** The compare-and-swap gives the whole local list exactly if the global one is
      empty at that instant; the thread keeps its list and its count otherwise. */
  lemma GiveDecides(w: World, t: nat, c: Choice, w': World)
    requires Inv(w) && Taken(w, t, c, w') && w.threads[t].pc.Giving?
    ensures var th, th' := w.threads[t], w'.threads[t];
            if w.freelist == None then
              && th'.pc.Clearing? && th'.chain == [] && w'.freelist == th.lfl && w'.chain == th.chain
              && Follows(w'.mrNext, w'.freelist, th.chain)
            else
              th' == th.(pc := Ready) && w'.freelist == w.freelist && w'.chain == w.chain
  {
    GiveInv(w, t);
  }

  /** After it the thread starts over with an empty list. */
  lemma ClearDecides(w: World, t: nat, c: Choice, w': World)
    requires Inv(w) && Taken(w, t, c, w') && w.threads[t].pc.Clearing?
    ensures w'.threads[t] == Thread(Ready, None, 0, []) && w'.freelist == w.freelist && w'.chain == w.chain
  {
    assert ThreadOk(w, t);
  }

  /** How often thread `t` freed a node since it last gave its list away. */
  ghost function Freed(run: seq<World>, j: nat, t: nat): nat
    requires j < |run|
  {
    if j == 0 || t >= |run[j - 1].threads| || t >= |run[j].threads| then 0
    else if run[j - 1].threads[t].pc.Clearing? && !run[j].threads[t].pc.Clearing? then 0
    else Freed(run, j - 1, t) + if run[j - 1].threads[t].pc.Ready?
                                   && |run[j].threads[t].chain| > |run[j - 1].threads[t].chain| then 1 else 0
  }

  lemma CountStep(w: World, u: nat, c: Choice, w': World, t: nat)
    requires Taken(w, u, c, w') && t < |w.threads|
    ensures t < |w'.threads|
    ensures var th, th' := w.threads[t], w'.threads[t];
            th'.lcnt == if th.pc.Clearing? && !th'.pc.Clearing? then 0
                        else th.lcnt + if th.pc.Ready? && |th'.chain| > |th.chain| then 1 else 0
  {
  }

  /** `lcnt` is that number. */
  lemma {:induction false} CountIsFrees(run: seq<World>, j: nat, t: nat)
    requires Legal(run) && j < |run| && t < |run[j].threads|
    ensures run[j].threads[t].lcnt == Freed(run, j, t)
  {
    if j > 0 {
      assert StepAt(run, j - 1);
      var u: nat, c: Choice :| Taken(run[j - 1], u, c, run[j]);
      CountIsFrees(run, j - 1, t);
      CountStep(run[j - 1], u, c, run[j], t);
    }
  }

  // ----- threads that run alone

  /** Steps before thread `t` is between two calls again. */
  function StepsLeft(w: World, th: Thread): nat {
    match th.pc
    case Ready => 0
    case Loading => 3
    case Taking => if w.freelist == th.lfl then 2 else 4
    case Popping => 1
    case Giving => 2
    case Clearing => 1
  }

  /** A thread that will find no node calls calloc, which has the node `c.node`. */
  predicate Supplied(w: World, th: Thread, c: Choice) {
    (th.pc.Loading? || th.pc.Taking?) && w.freelist == None ==> c.node < |w.place| && w.place[c.node] == Unborn
  }

  lemma StepLowers(w: World, t: nat, c: Choice)
    requires Inv(w) && t < |w.threads| && !w.threads[t].pc.Ready? && Supplied(w, w.threads[t], c)
    ensures Enabled(w, t, c)
    ensures var w' := Next(w, t, c);
            && t < |w'.threads| && StepsLeft(w', w'.threads[t]) < StepsLeft(w, w.threads[t])
            && Supplied(w', w'.threads[t], c)
  {
    assert ThreadOk(w, t);
  }

  function End(run: seq<World>): World
    requires |run| > 0
  {
    run[|run| - 1]
  }

  lemma Longer(run: seq<World>, t: nat, c: Choice) returns (more: seq<World>)
    requires Legal(run) && Enabled(End(run), t, c)
    ensures Legal(more) && more == run + [Next(End(run), t, c)] && Inv(End(more))
  {
    more := run + [Next(End(run), t, c)];
    assert more[0] == run[0];
    forall i: nat ensures StepAt(more, i) {
      assert StepAt(run, i);
      if i + 1 == |run| {
        assert Taken(more[i], t, c, more[i + 1]);
      }
    }
    RunInv(more, |run|);
  }

  ghost predicate AloneAt(run: seq<World>, k: nat, t: nat, c: Choice) {
    k + 1 < |run| ==> Taken(run[k], t, c, run[k + 1])
  }

  /** From the end of `run` on only thread `t` moves, until it is between two calls. */
  ghost predicate CompletedAlone(run: seq<World>, more: seq<World>, t: nat, c: Choice) {
    && 0 < |run| <= |more| && run == more[..|run|] && Legal(more)
    && t < |End(more).threads| && End(more).threads[t].pc.Ready?
    && forall k: nat :: k + 1 >= |run| ==> AloneAt(more, k, t, c)
  }

  lemma CompletedLater(run: seq<World>, t: nat, c: Choice, w': World, more: seq<World>)
    requires |run| > 0 && CompletedAlone(run + [w'], more, t, c) && Taken(End(run), t, c, w')
    ensures CompletedAlone(run, more, t, c)
  {
    assert more[|run| - 1] == End(run) && more[|run|] == w';
    forall k: nat | k + 1 >= |run| ensures AloneAt(more, k, t, c) {
      if k >= |run| {
        assert k + 1 >= |run + [w']|;
      }
    }
  }

  /** From every reachable state a thread that runs alone completes its call, within
      `StepsLeft` steps, at most four. */
  lemma {:induction false} Completes(run: seq<World>, t: nat, c: Choice) returns (more: seq<World>)
    requires Legal(run) && t < |End(run).threads| && Supplied(End(run), End(run).threads[t], c)
    ensures CompletedAlone(run, more, t, c) && |more| <= |run| + StepsLeft(End(run), End(run).threads[t]) <= |run| + 4
    decreases StepsLeft(End(run), End(run).threads[t])
  {
    more := run;
    if !End(run).threads[t].pc.Ready? {
      RunInv(run, |run| - 1);
      StepLowers(End(run), t, c);
      var next := Longer(run, t, c);
      more := Completes(next, t, c);
      CompletedLater(run, t, c, End(next), more);
    }
  }

  /** `add_free(p)` alone: the node goes in front of the local list.  From the hundredth
      node on, and if the global list is empty, the whole list becomes the global one. */
  lemma FreeAlone(run: seq<World>, t: nat, p: Ref) returns (more: seq<World>)
    requires Legal(run) && t < |End(run).threads| && End(run).threads[t].pc.Ready?
    requires p < |End(run).place| && End(run).place[p] == InUse
    ensures CompletedAlone(run, more, t, Choice(false, p)) && |run| < |more| <= |run| + 3
    ensures |End(more).threads| == |End(run).threads| && |End(more).place| == |End(run).place|
    ensures forall u: nat :: u < |End(run).threads| && u != t ==> End(more).threads[u] == End(run).threads[u]
    ensures forall n: Ref :: n < |End(run).place| && End(run).place[n] == InUse && n != p ==> End(more).place[n] == InUse
    ensures var w, w', th, th' := End(run), End(more), End(run).threads[t], End(more).threads[t];
            if th.lcnt + 1 >= AMORT_FREE_ON && w.freelist == None then
              && w'.freelist == Some(p) && w'.chain == [p] + th.chain
              && th'.lfl == None && th'.chain == [] && th'.lcnt == 0
            else
              && w'.freelist == w.freelist && w'.chain == w.chain
              && th'.lfl == Some(p) && th'.chain == [p] + th.chain && th'.lcnt == th.lcnt + 1
  {
    var c := Choice(false, p);
    RunInv(run, |run| - 1);
    more := Longer(run, t, c);
    var w1 := End(more);
    if w1.threads[t].pc.Giving? {
      GiveMoves(End(run), t, p);
      var given := Longer(more, t, c);
      var cleared := Longer(given, t, c);
      CompletedLater(given, t, c, End(cleared), cleared);
      CompletedLater(more, t, c, End(given), cleared);
      more := cleared;
    }
    CompletedLater(run, t, c, w1, more);
  }

  lemma GiveMoves(w: World, t: nat, p: Ref)
    requires Inv(w) && t < |w.threads| && w.threads[t].pc.Ready? && p < |w.place| && w.place[p] == InUse
    requires PushNext(w, t, p).threads[t].pc.Giving?
    ensures var v := GiveNext(PushNext(w, t, p), t);
            forall n: Ref :: n < |w.place| && w.place[n] == InUse && n != p ==> v.place[n] == InUse
  {
    assert ThreadOk(w, t);
  }

  /** What one call of `get_free` by thread `t` does, when it returns `node` or, if
      that is NULL, calloc provides `unborn`. */
  ghost predicate Served(w: World, w': World, t: nat, unborn: Ref, node: Ref) {
    && |w'.threads| == |w.threads| && |w'.place| == |w.place| && t < |w.threads|
    && (forall u: nat :: u < |w.threads| && u != t ==> w'.threads[u] == w.threads[u])
    && node < |w.place| && w.place[node] != InUse && w'.place[node] == InUse
    && (forall n: Ref :: n < |w.place| && n != node ==>
          (w'.place[n] == InUse <==> w.place[n] == InUse) && (w'.place[n] == Unborn <==> w.place[n] == Unborn))
    && var th, th' := w.threads[t], w'.threads[t];
       && th'.lcnt == th.lcnt
       && if th.chain != [] then
            node == th.chain[0] && th'.chain == th.chain[1..] && w'.chain == w.chain && w'.freelist == w.freelist
          else if w.chain != [] then
            node == w.chain[0] && th'.chain == w.chain[1..] && w'.chain == [] && w'.freelist == None
          else
            node == unborn && th'.chain == [] && w'.chain == [] && w'.freelist == None
  }

  predicate Gets(run: seq<World>, t: nat) {
    |run| > 0 && t < |End(run).threads| && End(run).threads[t].pc.Ready?
  }

  lemma GetLocal(run: seq<World>, t: nat, c: Choice) returns (more: seq<World>, node: Ref)
    requires Legal(run) && Gets(run, t) && c.get && End(run).threads[t].lfl.Some?
    ensures CompletedAlone(run, more, t, c) && |more| == |run| + 2 && Served(End(run), End(more), t, c.node, node)
  {
    RunInv(run, |run| - 1);
    assert ThreadOk(End(run), t);
    var begun := Longer(run, t, c);
    node := End(run).threads[t].lfl.value;
    PopInv(End(begun), t);
    more := Longer(begun, t, c);
    CompletedLater(begun, t, c, End(more), more);
    CompletedLater(run, t, c, End(begun), more);
  }

  lemma GetGlobal(run: seq<World>, t: nat, c: Choice) returns (more: seq<World>, node: Ref)
    requires Legal(run) && Gets(run, t) && c.get && End(run).threads[t].lfl.None? && End(run).freelist.Some?
    ensures CompletedAlone(run, more, t, c) && |more| == |run| + 4 && Served(End(run), End(more), t, c.node, node)
  {
    RunInv(run, |run| - 1);
    assert ThreadOk(End(run), t);
    var begun := Longer(run, t, c);
    var loaded := Longer(begun, t, c);
    var taken := Longer(loaded, t, c);
    node := End(run).freelist.value;
    PopInv(End(taken), t);
    more := Longer(taken, t, c);
    TakePop(End(run), End(taken), End(more), t, c.node, node);
    CompletedLater(taken, t, c, End(more), more);
    CompletedLater(loaded, t, c, End(taken), more);
    CompletedLater(begun, t, c, End(loaded), more);
    CompletedLater(run, t, c, End(begun), more);
  }

  /** Taking the global list and popping its head, together. */
  lemma TakePop(w: World, v: World, w': World, t: nat, unborn: Ref, n: Ref)
    requires Inv(w) && t < |w.threads| && w.threads[t].pc.Ready? && w.threads[t].lfl.None? && w.freelist == Some(n)
    requires |v.threads| == |w.threads| && v.mrNext == w.mrNext && v.freelist == None && v.chain == []
    requires v.place == Moved(w.place, w.chain, Local(t)) && n < |v.mrNext|
    requires v.threads == w.threads[t := Thread(Popping, Some(n), w.threads[t].lcnt, w.chain)]
    requires |v.place| == |v.mrNext| && w' == PopNext(v, t, n)
    ensures Served(w, w', t, unborn, n)
  {
    assert ThreadOk(w, t) && n in w.chain;
  }

  lemma GetNew(run: seq<World>, t: nat, c: Choice) returns (more: seq<World>)
    requires Legal(run) && Gets(run, t) && c.get && End(run).threads[t].lfl.None? && End(run).freelist.None?
    requires c.node < |End(run).place| && End(run).place[c.node] == Unborn
    ensures CompletedAlone(run, more, t, c) && |more| == |run| + 2 && Served(End(run), End(more), t, c.node, c.node)
  {
    RunInv(run, |run| - 1);
    assert ThreadOk(End(run), t);
    var begun := Longer(run, t, c);
    more := Longer(begun, t, c);
    CompletedLater(begun, t, c, End(more), more);
    CompletedLater(run, t, c, End(begun), more);
  }

  /** `get_free` alone: the head of the local list; if that is empty the head of the
      global list, whose rest becomes the local list; if that is empty too, NULL, and
      calloc provides the node `unborn`. */
  lemma GetAlone(run: seq<World>, t: nat, unborn: Ref) returns (more: seq<World>, node: Ref)
    requires Legal(run) && Gets(run, t)
    requires End(run).threads[t].lfl == None && End(run).freelist == None ==>
               unborn < |End(run).place| && End(run).place[unborn] == Unborn
    ensures CompletedAlone(run, more, t, Choice(true, unborn)) && |run| < |more| <= |run| + 4
    ensures Served(End(run), End(more), t, unborn, node)
  {
    var c := Choice(true, unborn);
    if End(run).threads[t].lfl.Some? {
      more, node := GetLocal(run, t, c);
    } else if End(run).freelist.Some? {
      more, node := GetGlobal(run, t, c);
    } else {
      node := unborn;
      more := GetNew(run, t, c);
    }
  }

  // ----- from thread to thread

  /** Thread `t` frees its hundredth node while the global list is empty, and thread
      `u`, which has no node, asks for one: `u` gets the node that `t` freed, and all
      the nodes of `t`. */
  lemma Handover(run: seq<World>, t: nat, u: nat, p: Ref) returns (given: seq<World>, more: seq<World>)
    requires Legal(run) && t < |End(run).threads| && u < |End(run).threads| && t != u
    requires End(run).threads[t].pc.Ready? && End(run).threads[u].pc.Ready?
    requires p < |End(run).place| && End(run).place[p] == InUse
    requires End(run).threads[t].lcnt + 1 >= AMORT_FREE_ON && End(run).freelist == None && End(run).threads[u].lfl == None
    ensures CompletedAlone(run, given, t, Choice(false, p)) && CompletedAlone(given, more, u, Choice(true, p))
    ensures |End(given).place| == |End(more).place| == |End(run).place|
    ensures End(given).place[p] == Global && End(more).place[p] == InUse
    ensures u < |End(more).threads| && End(more).threads[u].chain == End(run).threads[t].chain
  {
    given := FreeAlone(run, t, p);
    RunInv(given, |given| - 1);
    RunInv(run, |run| - 1);
    assert p in End(given).chain && ThreadOk(End(run), u);
    var node;
    more, node := GetAlone(given, u, p);
  }

  /** Two threads and a hundred nodes. */
  function Start(): World {
    World(seq(AMORT_FREE_ON, _ => None), None, seq(2, _ => Thread(Ready, None, 0, [])), [],
          seq(AMORT_FREE_ON, _ => Unborn))
  }

  ghost predicate Idle(w: World) {
    && |w.threads| == 2 && w.threads[1] == Thread(Ready, None, 0, [])
    && |w.place| == AMORT_FREE_ON && w.freelist == None && w.chain == [] && w.threads[0].pc.Ready?
  }

  /** Thread 0 allocates the nodes below `k`. */
  lemma {:induction false} Allocated(k: nat) returns (run: seq<World>)
    requires k <= AMORT_FREE_ON
    ensures Legal(run) && Idle(End(run)) && End(run).threads[0].lcnt == 0 && End(run).threads[0].lfl == None
    ensures forall n: Ref :: n < AMORT_FREE_ON ==> End(run).place[n] == if n < k then InUse else Unborn
  {
    if k == 0 {
      run := [Start()];
    } else {
      var before := Allocated(k - 1);
      RunInv(before, |before| - 1);
      assert ThreadOk(End(before), 0);
      var node;
      run, node := GetAlone(before, 0, k - 1);
      RunInv(run, |run| - 1);
      assert ThreadOk(End(run), 0);
    }
  }

  /** Thread 0 frees the nodes below `k` again. */
  lemma {:induction false} Released(k: nat) returns (run: seq<World>)
    requires k < AMORT_FREE_ON
    ensures Legal(run) && Idle(End(run)) && End(run).threads[0].lcnt == k
    ensures forall n: Ref :: k <= n < AMORT_FREE_ON ==> End(run).place[n] == InUse
  {
    if k == 0 {
      run := Allocated(AMORT_FREE_ON);
    } else {
      var before := Released(k - 1);
      run := FreeAlone(before, 0, k - 1);
    }
  }

  /** It happens: a legal run in which thread 1 is handed the node that thread 0 freed
      last, and 99 nodes more. */
  lemma NodesChangeHands() returns (run: seq<World>, given: seq<World>, more: seq<World>)
    ensures Legal(run) && Idle(End(run)) && Legal(more)
    ensures CompletedAlone(run, given, 0, Choice(false, AMORT_FREE_ON - 1))
    ensures CompletedAlone(given, more, 1, Choice(true, AMORT_FREE_ON - 1))
    ensures |End(given).place| == |End(more).place| == AMORT_FREE_ON
    ensures End(given).place[AMORT_FREE_ON - 1] == Global && End(more).place[AMORT_FREE_ON - 1] == InUse
  {
    run := Released(AMORT_FREE_ON - 1);
    given, more := Handover(run, 0, 1, AMORT_FREE_ON - 1);
  }
}
