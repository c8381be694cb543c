/** The SIMPLE_AMORT_FREE free lists of allocator_malloc.c with any number of
    threads: each has a local list, and whole lists move between it and the one
    global list by compare-and-swap.  One step per access to `freelist`. */
module AmortAllocator {
  import opened Buckets
  import opened Sequences

  const AMORT_FREE_ON: nat := 100

  datatype Pc =
    | Ready
    | Loading       // get_free: lfl = freelist
    | Taking        // get_free: CAS of freelist from lfl to NULL
    | Popping       // get_free: node = lfl; lfl = node->mr_next
    | Giving        // add_free: freelist was NULL; CAS of freelist to lfl
    | Clearing      // add_free: the CAS succeeded; lfl = NULL

  /** `chain` is history: the nodes of the local list. */
  datatype Thread = Thread(pc: Pc, lfl: Option<Ref>, lcnt: nat, chain: seq<Ref>)

  datatype Place =
    | Unborn          // not yet obtained from calloc
    | InUse
    | Local(t: nat)
    | Global

  /** `chain` and `place` are history: the nodes of the global list, and where each
      node is. */
  datatype World = World(mrNext: seq<Option<Ref>>, freelist: Option<Ref>, threads: seq<Thread>,
                         chain: seq<Ref>, place: seq<Place>)

  /** `get` begins get_free, otherwise add_free(node) begins; a get that finds no
      node calls calloc, which returns the unborn `node`. */
  datatype Choice = Choice(get: bool, node: Ref)

  predicate Follows(mrNext: seq<Option<Ref>>, p: Option<Ref>, s: seq<Ref>)
    decreases |s|
  {
    if s == [] then p == None else p == Some(s[0]) && s[0] < |mrNext| && Follows(mrNext, mrNext[s[0]], s[1..])
  }

  function SetThread(w: World, t: nat, th: Thread): World
    requires t < |w.threads|
  {
    w.(threads := w.threads[t := th])
  }

  /** The nodes `s` move to place `to`. */
  function Moved(place: seq<Place>, s: seq<Ref>, to: Place): (r: seq<Place>)
    ensures |r| == |place|
    ensures forall n: Ref :: n < |place| ==> r[n] == if n in s then to else place[n]
  {
    seq(|place|, n requires 0 <= n < |place| => if n in s then to else place[n])
  }

  predicate Enabled(w: World, t: nat, c: Choice) {
    && t < |w.threads| && |w.place| == |w.mrNext|
    && match w.threads[t].pc
       case Ready => c.get || (c.node < |w.place| && w.place[c.node] == InUse)
       case Loading => w.freelist == None ==> c.node < |w.place| && w.place[c.node] == Unborn
       case Taking => true
       case Popping => w.threads[t].lfl.Some? && w.threads[t].lfl.value < |w.mrNext|
       case Giving => true
       case Clearing => true
  }

  function LoadNext(w: World, t: nat, node: Ref): World
    requires t < |w.threads| && (w.freelist == None ==> node < |w.place|)
  {
    var th := w.threads[t];
    if w.freelist == None then SetThread(w, t, th.(pc := Ready, lfl := None)).(place := w.place[node := InUse])
    else SetThread(w, t, th.(pc := Taking, lfl := w.freelist))
  }

  /** `CAS(&freelist, lfl, NULL)`: take the whole list, or load again. */
  function TakeNext(w: World, t: nat): World
    requires t < |w.threads|
  {
    var th := w.threads[t];
    if w.freelist == th.lfl then
      SetThread(w, t, th.(pc := Popping, chain := w.chain)).(freelist := None, chain := [],
          place := Moved(w.place, w.chain, Local(t)))
    else SetThread(w, t, th.(pc := Loading))
  }

  function PopNext(w: World, t: nat, n: Ref): World
    requires t < |w.threads| && n < |w.mrNext| == |w.place|
  {
    var th := w.threads[t];
    SetThread(w, t, th.(pc := Ready, lfl := w.mrNext[n], chain := if th.chain == [] then [] else th.chain[1..]))
      .(place := w.place[n := InUse])
  }

  /** add_free(p) up to its load of `freelist`. */
  function PushNext(w: World, t: nat, p: Ref): World
    requires t < |w.threads| && p < |w.mrNext| == |w.place|
  {
    var th := w.threads[t];
    var full := th.lcnt + 1 >= AMORT_FREE_ON && w.freelist == None;
    SetThread(w, t, th.(pc := if full then Giving else Ready, lfl := Some(p), lcnt := th.lcnt + 1,
        chain := [p] + th.chain))
      .(mrNext := w.mrNext[p := th.lfl], place := w.place[p := Local(t)])
  }

  /** `CAS(&freelist, NULL, lfl)`: give the whole list, or keep it. */
  function GiveNext(w: World, t: nat): World
    requires t < |w.threads|
  {
    var th := w.threads[t];
    if w.freelist == None then
      SetThread(w, t, th.(pc := Clearing, chain := [])).(freelist := th.lfl, chain := th.chain,
          place := Moved(w.place, th.chain, Global))
    else SetThread(w, t, th.(pc := Ready))
  }

  function Next(w: World, t: nat, c: Choice): World
    requires Enabled(w, t, c)
  {
    match w.threads[t].pc
    case Ready =>
      if c.get then SetThread(w, t, w.threads[t].(pc := if w.threads[t].lfl.Some? then Popping else Loading))
      else PushNext(w, t, c.node)
    case Loading => LoadNext(w, t, c.node)
    case Taking => TakeNext(w, t)
    case Popping => PopNext(w, t, w.threads[t].lfl.value)
    case Giving => GiveNext(w, t)
    case Clearing => SetThread(w, t, w.threads[t].(pc := Ready, lfl := None, lcnt := 0))
  }

  predicate Taken(w: World, t: nat, c: Choice, w': World) {
    Enabled(w, t, c) && w' == Next(w, t, c)
  }

  ghost predicate Step(w: World, w': World) {
    exists t: nat, c: Choice :: Taken(w, t, c, w')
  }

  ghost predicate StepAt(run: seq<World>, i: nat) {
    i + 1 < |run| ==> Step(run[i], run[i + 1])
  }

  ghost predicate Initial(w: World) {
    && |w.place| == |w.mrNext| && w.freelist == None && w.chain == []
    && (forall n: Ref :: n < |w.place| ==> w.place[n] == Unborn)
    && (forall t: nat :: t < |w.threads| ==> w.threads[t] == Thread(Ready, None, 0, []))
  }

  ghost predicate Legal(run: seq<World>) {
    |run| > 0 && Initial(run[0]) && forall i: nat :: StepAt(run, i)
  }

  // ----- every node is in one place

  ghost predicate ThreadOk(w: World, t: nat) {
    && t < |w.threads|
    && var th := w.threads[t];
       && (match th.pc
           case Ready => Follows(w.mrNext, th.lfl, th.chain)
           case Loading => th.chain == []
           case Taking => th.lfl.Some? && th.chain == []
           case Popping => th.lfl.Some? && Follows(w.mrNext, th.lfl, th.chain)
           case Giving => th.lfl.Some? && Follows(w.mrNext, th.lfl, th.chain)
           case Clearing => th.chain == [])
       && Distinct(th.chain)
       && (forall n: Ref :: n in th.chain ==> n < |w.place| && w.place[n] == Local(t))
  }

  predicate NodeOk(w: World, n: Ref) {
    n < |w.place| ==>
      && (w.place[n] == Global ==> n in w.chain)
      && (w.place[n].Local? ==> w.place[n].t < |w.threads| && n in w.threads[w.place[n].t].chain)
  }

  ghost predicate Inv(w: World) {
    && |w.place| == |w.mrNext|
    && Follows(w.mrNext, w.freelist, w.chain) && Distinct(w.chain)
    && (forall n: Ref :: n in w.chain ==> n < |w.place| && w.place[n] == Global)
    && (forall t: nat {:trigger w.threads[t]} {:trigger ThreadOk(w, t)} :: t < |w.threads| ==> ThreadOk(w, t))
    && (forall n: Ref :: NodeOk(w, n))
  }

  lemma {:induction false} FollowsFrame(m: seq<Option<Ref>>, m': seq<Option<Ref>>, p: Option<Ref>, s: seq<Ref>)
    requires Follows(m, p, s) && |m| == |m'| && forall n: Ref :: n in s && n < |m| ==> m'[n] == m[n]
    ensures Follows(m', p, s)
    decreases |s|
  {
    if s != [] {
      FollowsFrame(m, m', m[s[0]], s[1..]);
    }
  }

  /** Steps that move no node and store to no `mr_next`. */
  lemma StillInv(w: World, t: nat, w': World)
    requires Inv(w) && t < |w.threads| == |w'.threads|
    requires w'.mrNext == w.mrNext && w'.freelist == w.freelist && w'.chain == w.chain && w'.place == w.place
    requires forall u: nat :: u < |w.threads| && u != t ==> w'.threads[u] == w.threads[u]
    requires w'.threads[t].chain == w.threads[t].chain && ThreadOk(w', t)
    ensures Inv(w')
  {
    forall u: nat | u < |w'.threads| ensures ThreadOk(w', u) {
      assert ThreadOk(w, u);
    }
    forall n: Ref ensures NodeOk(w', n) {
      assert NodeOk(w, n);
    }
  }

  lemma LoadInv(w: World, t: nat, node: Ref)
    requires Inv(w) && t < |w.threads| && w.threads[t].pc.Loading?
    requires w.freelist == None ==> node < |w.place| && w.place[node] == Unborn
    ensures Inv(LoadNext(w, t, node))
  {
    var w' := LoadNext(w, t, node);
    assert ThreadOk(w, t);
    if w.freelist == None {
      forall u: nat | u < |w'.threads| ensures ThreadOk(w', u) {
        assert ThreadOk(w, u);
      }
      forall n: Ref ensures NodeOk(w', n) {
        assert NodeOk(w, n);
      }
    } else {
      StillInv(w, t, w');
    }
  }

  /** The successful CAS takes the list as it is now, whatever happened since the
      head was loaded: that the head left and came back does no harm. */
  lemma TakeInv(w: World, t: nat)
    requires Inv(w) && t < |w.threads| && w.threads[t].pc.Taking?
    ensures Inv(TakeNext(w, t))
    ensures w.freelist == w.threads[t].lfl ==>
              var th' := TakeNext(w, t).threads[t];
              th'.chain == w.chain && Follows(w.mrNext, th'.lfl, th'.chain) && TakeNext(w, t).chain == []
  {
    var w' := TakeNext(w, t);
    assert ThreadOk(w, t);
    if w.freelist == w.threads[t].lfl {
      forall u: nat | u < |w'.threads| ensures ThreadOk(w', u) {
        assert ThreadOk(w, u);
      }
      forall n: Ref ensures NodeOk(w', n) {
        assert NodeOk(w, n);
      }
    } else {
      StillInv(w, t, w');
    }
  }

  lemma PopInv(w: World, t: nat)
    requires Inv(w) && t < |w.threads| && w.threads[t].pc.Popping?
    ensures var lfl := w.threads[t].lfl;
            && lfl.Some? && lfl.value < |w.mrNext| && w.place[lfl.value] == Local(t)
            && Inv(PopNext(w, t, lfl.value))
  {
    assert ThreadOk(w, t);
    var th := w.threads[t];
    var n := th.lfl.value;
    var w' := PopNext(w, t, n);
    assert th.chain == [n] + th.chain[1..] && n in th.chain && n !in th.chain[1..];
    forall u: nat | u < |w'.threads| ensures ThreadOk(w', u) {
      if u != t {
        PopOther(w, t, u, n);
      } else {
        PopSelf(w, t, n);
      }
    }
    forall m: Ref ensures NodeOk(w', m) {
      assert NodeOk(w, m);
    }
  }

  /** The popped node is in no other thread's list. */
  lemma PopOther(w: World, t: nat, u: nat, n: Ref)
    requires |w.place| == |w.mrNext| && t < |w.threads| && u < |w.threads| && u != t && ThreadOk(w, u)
    requires n < |w.place| && w.place[n] == Local(t)
    ensures ThreadOk(PopNext(w, t, n), u)
  {
    assert n !in w.threads[u].chain;
  }

  lemma PopSelf(w: World, t: nat, n: Ref)
    requires |w.place| == |w.mrNext| && t < |w.threads| && w.threads[t].pc.Popping? && ThreadOk(w, t)
    requires n < |w.place| && w.threads[t].lfl == Some(n)
    ensures ThreadOk(PopNext(w, t, n), t)
  {
    var chain := w.threads[t].chain;
    assert chain == [n] + chain[1..] && n !in chain[1..];
    forall m: Ref | m in chain[1..] ensures m < |w.place| && PopNext(w, t, n).place[m] == Local(t) {
      assert m in chain;
    }
  }

  lemma PushInv(w: World, t: nat, p: Ref)
    requires Inv(w) && t < |w.threads| && w.threads[t].pc.Ready? && p < |w.place| && w.place[p] == InUse
    ensures Inv(PushNext(w, t, p))
  {
    var w' := PushNext(w, t, p);
    FollowsFrame(w.mrNext, w'.mrNext, w.freelist, w.chain);
    forall u: nat | u < |w'.threads| ensures ThreadOk(w', u) {
      PushThread(w, t, p, u);
    }
    forall n: Ref ensures NodeOk(w', n) {
      assert NodeOk(w, n);
    }
  }

  lemma PushThread(w: World, t: nat, p: Ref, u: nat)
    requires Inv(w) && t < |w.threads| && w.threads[t].pc.Ready?
    requires p < |w.place| && w.place[p] == InUse && u < |w.threads|
    ensures ThreadOk(PushNext(w, t, p), u)
  {
    var w' := PushNext(w, t, p);
    var th := w.threads[u];
    assert ThreadOk(w, u);
    if th.pc.Ready? || th.pc.Popping? || th.pc.Giving? {
      FollowsFrame(w.mrNext, w'.mrNext, th.lfl, th.chain);
    }
    if u == t {
      assert ([p] + th.chain)[1..] == th.chain;
    }
  }

  lemma GiveInv(w: World, t: nat)
    requires Inv(w) && t < |w.threads| && w.threads[t].pc.Giving?
    ensures Inv(GiveNext(w, t))
  {
    var w' := GiveNext(w, t);
    assert ThreadOk(w, t);
    if w.freelist == None {
      assert w.chain == [];
      forall u: nat | u < |w'.threads| ensures ThreadOk(w', u) {
        assert ThreadOk(w, u);
      }
      forall n: Ref ensures NodeOk(w', n) {
        assert NodeOk(w, n);
      }
    } else {
      StillInv(w, t, w');
    }
  }

  lemma StepInv(w: World, t: nat, c: Choice, w': World)
    requires Inv(w) && Taken(w, t, c, w')
    ensures Inv(w')
  {
    match w.threads[t].pc {
      case Ready =>
        assert ThreadOk(w, t);
        if c.get {
          StillInv(w, t, w');
        } else {
          PushInv(w, t, c.node);
        }
      case Loading => LoadInv(w, t, c.node);
      case Taking => TakeInv(w, t);
      case Popping => PopInv(w, t);
      case Giving => GiveInv(w, t);
      case Clearing =>
        assert ThreadOk(w, t);
        StillInv(w, t, w');
    }
  }

  lemma {:induction false} RunInv(run: seq<World>, j: nat)
    requires Legal(run) && j < |run|
    ensures Inv(run[j])
  {
    if j > 0 {
      RunInv(run, j - 1);
      assert StepAt(run, j - 1);
      var t: nat, c: Choice :| Taken(run[j - 1], t, c, run[j]);
      StepInv(run[j - 1], t, c, run[j]);
    }
  }

  /** How many times node `n` occurs in the global list and the local lists. */
  function Occurs(s: seq<Ref>, n: Ref): nat {
    if s == [] then 0 else (if s[0] == n then 1 else 0) + Occurs(s[1..], n)
  }

  function OccursLocally(threads: seq<Thread>, n: Ref): nat {
    if threads == [] then 0 else Occurs(threads[0].chain, n) + OccursLocally(threads[1..], n)
  }

  lemma {:induction false} OccursOnce(s: seq<Ref>, n: Ref)
    requires Distinct(s)
    ensures Occurs(s, n) == if n in s then 1 else 0
  {
    if s != [] {
      OccursOnce(s[1..], n);
    }
  }

  /** Local lists of which at most list `u` holds `n`. */
  lemma {:induction false} OnlyAt(threads: seq<Thread>, n: Ref, u: nat)
    requires forall v: nat :: v < |threads| ==> Distinct(threads[v].chain) && (n in threads[v].chain ==> v == u)
    ensures OccursLocally(threads, n) == if u < |threads| && n in threads[u].chain then 1 else 0
    decreases |threads|
  {
    if threads != [] {
      OccursOnce(threads[0].chain, n);
      if u > 0 {
        OnlyAt(threads[1..], n, u - 1);
      } else {
        OnlyAt(threads[1..], n, |threads|);
      }
    }
  }

  /** Conservation: in every reachable state a node that was obtained from calloc
      and is not in use occurs exactly once in the global and the local lists
      together, and a node in use occurs in none.  None is lost or doubled. */
  lemma NodesConserved(run: seq<World>, j: nat, n: Ref)
    requires Legal(run) && j < |run| && n < |run[j].place|
    ensures Occurs(run[j].chain, n) + OccursLocally(run[j].threads, n) ==
            if run[j].place[n] == Unborn || run[j].place[n] == InUse then 0 else 1
  {
    RunInv(run, j);
    var w := run[j];
    assert NodeOk(w, n);
    OccursOnce(w.chain, n);
    var u := if w.place[n].Local? then w.place[n].t else |w.threads|;
    forall v: nat | v < |w.threads| ensures Distinct(w.threads[v].chain) && (n in w.threads[v].chain ==> v == u) {
      assert ThreadOk(w, v);
    }
    OnlyAt(w.threads, n, u);
  }

  /** The chains are what the pointers say: walking `mr_next` from `freelist`, or
      from the `lfl` of a thread that owns its list, meets exactly them. */
  lemma ListsArePointers(run: seq<World>, j: nat, t: nat)
    requires Legal(run) && j < |run| && t < |run[j].threads|
    ensures Follows(run[j].mrNext, run[j].freelist, run[j].chain)
    ensures var th := run[j].threads[t];
            th.pc.Ready? || th.pc.Popping? || th.pc.Giving? ==> Follows(run[j].mrNext, th.lfl, th.chain)
  {
    RunInv(run, j);
    assert ThreadOk(run[j], t);
  }

  /** The node get_free returns was in the thread's own list: nobody uses it. */
  lemma PoppedIsFree(run: seq<World>, j: nat, t: nat, c: Choice)
    requires Legal(run) && j + 1 < |run| && Taken(run[j], t, c, run[j + 1]) && run[j].threads[t].pc.Popping?
    ensures var n := run[j].threads[t].lfl.value;
            n < |run[j].place| && run[j].place[n] == Local(t) && run[j + 1].place == run[j].place[n := InUse]
  {
    RunInv(run, j);
    PopInv(run[j], t);
  }
}
