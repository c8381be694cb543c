/** The three forms of list_gecos.c's `search`: the default one, GECOS_R, which
    rereads a link that moved, and GECOS_B, which steps back to the previous
    node when the current one was recycled.

    Each method is the C loop, one load per instant; `when` schedules the loads,
    arbitrarily.  Each proves that its answer held at an instant of the call, and
    that it attempts at most once more than there were stores to a link or a
    generation during the call. */
module Gecos {
  import opened Buckets
  import opened Worlds
  import opened Readers
  import opened Trails

  /** What the two checks of one loop iteration establish.  The loads of `cur`'s
      key and link, of the next node's generation, and the two rechecks happen
      at the instants t1 <= t3 <= t4 <= t5. */
  lemma Validated(run: seq<World>, call: nat, t0: nat, t1: nat, t3: nat, t4: nat, t5: nat, b: nat, key: int,
                  cur: Ref, curGc: nat, curKey: int, next: Option<Ref>, nextGc: nat)
    requires Legal(run) && run[0].scheme == Scheme.Gecos && b < |run[0].tb.heads|
    requires call <= t0 <= t1 <= t3 <= t4 <= t5 < |run|
    requires Good(run, call, t0, b, key, cur, curGc)
    requires cur < |run[t1].tb.mem| && curKey == run[t1].tb.mem[cur].key
    requires next.Some? ==> next.value < |run[t3].tb.mem| && nextGc == run[t3].tb.mem[next.value].gc
    requires cur < |run[t4].tb.mem| && next == run[t4].tb.mem[cur].next
    requires cur < |run[t5].tb.mem| && curGc == run[t5].tb.mem[cur].gc
    ensures run[t0].tb.mem[cur].key == curKey && run[t0].tb.mem[cur].gc == curGc
    ensures Witnessed(run, call, t5, b, key, curKey)
    ensures curKey < key && next.None? ==> Saw(run, call, t5, b, key, false)
    ensures curKey < key && next.Some? ==> Good(run, call, t5, b, key, next.value, nextGc)
    ensures curKey < key && next.Some? && run[t5].tb.mem[next.value].gc == nextGc ==>
        curKey < run[t5].tb.mem[next.value].key
    ensures curKey < key ==> Spans(run, t0, t5, b, Some(curKey), next, nextGc)
  {
    RunInv(run, t0); RunInv(run, t1); RunInv(run, t3); RunInv(run, t4); RunInv(run, t5);
    GoodLater(run, call, t0, t1, b, key, cur, curGc);
    GoodLater(run, call, t1, t4, b, key, cur, curGc);
    GoodLater(run, call, t4, t5, b, key, cur, curGc);
    if curKey < key {
      OwnedDecides(run[t4], b, cur, key);
      VerdictIsGood(run, call, t3, t4, b, key, next, nextGc);
      FirstSpans(run, call, t0, t4, t5, b, key, Some(curKey), next, nextGc);
      if next.Some? {
        assert curKey < run[t4].tb.mem[next.value].key;
        GoodLater(run, call, t4, t5, b, key, next.value, nextGc);
        assert Stamp(run[t5], b, next.value) == run[t5].tb.mem[next.value].gc;
      }
    }
  }

  /** What the head re-check establishes. */
  lemma HeadValidated(run: seq<World>, call: nat, t1: nat, t2: nat, b: nat, key: int, cur: Option<Ref>, curGc: nat)
    requires Legal(run) && run[0].scheme == Scheme.Gecos && b < |run[0].tb.heads|
    requires call <= t1 <= t2 < |run|
    requires cur.Some? ==> cur.value < |run[t1].tb.mem| && curGc == run[t1].tb.mem[cur.value].gc
    requires b < |run[t2].tb.heads| && run[t2].tb.heads[b] == cur
    ensures cur.None? ==> Answered(run, call, t2, b, key, false)
    ensures cur.Some? ==> Good(run, call, t2, b, key, cur.value, curGc)
    ensures Spans(run, t2, t2, b, None, cur, curGc)
  {
    RunInv(run, t1); RunInv(run, t2);
    HeadDecides(run[t2], b, key);
    VerdictIsGood(run, call, t1, t2, b, key, cur, curGc);
    assert BucketOk(run[t2].tb, b);
    FirstSpans(run, call, t2, t2, t2, b, key, None, cur, curGc);
    if cur.None? {
      SawContains(run, call, t2, b, key, false);
    }
  }

  /** The instant of the search's load number `c`, none before `t`. */
  function LoadAt(run: seq<World>, when: seq<nat>, c: nat, t: nat): (t': nat)
    requires t < |run|
    ensures t <= t' < |run|
  {
    if c < |when| && t <= when[c] < |run| then when[c] else t
  }

  /** The head of an attempt: load `*head`, load the node's generation, load
      `*head` again.  `stamped` is the instant of the generation load. */
  method EnterList(run: seq<World>, when: seq<nat>, c: nat, b: nat, key: int, ghost call: nat, t: nat)
    returns (cur: Option<Ref>, curGc: nat, ok: bool, t': nat, ghost stamped: nat)
    requires Legal(run) && run[0].scheme == Scheme.Gecos && b < |run[0].tb.heads| && call <= t < |run|
    ensures t <= stamped <= t' < |run|
    ensures cur.Some? ==> Stamped(run, stamped, cur.value, curGc)
    ensures ok && cur.None? ==> Answered(run, call, t', b, key, false)
    ensures ok && cur.Some? ==> Good(run, call, t', b, key, cur.value, curGc)
    ensures ok ==> Spans(run, t', t', b, None, cur, curGc)
    ensures ok && cur.Some? ==> FirstNode(run, b, cur.value, t, stamped, t')
    ensures Entering(run, when, c, t, b, cur, ok, stamped, t')
    ensures !ok ==> t < t' && Disturbances(run, call, t) + 1 <= Disturbances(run, call, t')
  {
    t' := LoadAt(run, when, c, t);
    LoadsInRange(run, t', b, 0);
    cur, curGc, ok, stamped := run[t'].tb.heads[b], 0, true, t';
    ghost var loaded := t';
    assert cur.Some? ==> WasHead(run, b, cur.value, t');
    if cur == None {
      HeadValidated(run, call, t', t', b, key, cur, 0);
      return;
    }
    t' := LoadAt(run, when, c + 1, t');
    stamped := t';
    LoadsInRange(run, t', b, 0);
    curGc := run[t'].tb.mem[cur.value].gc;
    t' := LoadAt(run, when, c + 2, t');
    LoadsInRange(run, t', b, 0);
    if cur != run[t'].tb.heads[b] {
      FailureIsDisturbed(run, call, t, loaded, t');
      ok := false;
      return;
    }
    HeadValidated(run, call, stamped, t', b, key, cur, curGc);
  }

  /** What the schedule determines of the head of an attempt. */
  ghost predicate Entering(run: seq<World>, when: seq<nat>, c: nat, t: nat, b: nat,
                           cur: Option<Ref>, ok: bool, g: nat, h: nat) {
    && t < |run|
    && var a := LoadAt(run, when, c, t);
       && b < |run[a].tb.heads| && cur == run[a].tb.heads[b]
       && (cur.Some? ==>
             && g == LoadAt(run, when, c + 1, a) && h == LoadAt(run, when, c + 2, g)
             && b < |run[h].tb.heads| && (ok <==> run[h].tb.heads[b] == cur))
  }

  /** Generation `g` was read from node `n` at instant `i`. */
  predicate Stamped(run: seq<World>, i: nat, n: Ref, g: nat) {
    i < |run| && n < |run[i].tb.mem| && run[i].tb.mem[n].gc == g
  }

  /** Node `n` was the head at an instant from `i` to `g`, and again at `h`. */
  ghost predicate FirstNode(run: seq<World>, b: nat, n: Ref, i: nat, g: nat, h: nat) {
    g <= h && WasHead(run, b, n, h) && exists a: nat :: i <= a <= g && WasHead(run, b, n, a)
  }

  predicate WasHead(run: seq<World>, b: nat, n: Ref, a: nat) {
    a < |run| && b < |run[a].tb.heads| && run[a].tb.heads[b] == Some(n)
  }

  ghost predicate SameNext(run: seq<World>, n: Ref, x: nat, y: nat) {
    x <= y < |run| && n < |run[x].tb.mem| && n < |run[y].tb.mem| && run[x].tb.mem[n].next == run[y].tb.mem[n].next
  }

  /** The link of `n` passed its recheck, then its generation differed from `g`. */
  ghost predicate Lost(run: seq<World>, n: Ref, g: nat, i: nat, z: nat) {
    && z < |run| && n < |run[z].tb.mem| && run[z].tb.mem[n].gc != g
    && exists x: nat, y: nat :: i <= x && y <= z && SameNext(run, n, x, y)
  }

  datatype Check = LinkMoved | Recycled | Passed

  /** The schedule lets the link pass its recheck and the generation fail its own. */
  ghost predicate Recycles(run: seq<World>, when: seq<nat>, c: nat, t: nat, n: Ref, g: nat) {
    && t < |run|
    && var x := LoadAt(run, when, c, t);
       var y := LoadAt(run, when, c + 2, LoadAt(run, when, c + 1, x));
       var z := LoadAt(run, when, c + 3, y);
       SameNext(run, n, x, y) && n < |run[z].tb.mem| && run[z].tb.mem[n].gc != g
  }

  /** The loads between `cur_key = cur->key` and the end of the two checks. */
  method Peek(run: seq<World>, when: seq<nat>, c: nat, b: nat, key: int, ghost call: nat, ghost begun: nat,
              ghost stamped: nat, ghost t0: nat, ghost t1: nat, t: nat, cur: Ref, curGc: nat, curKey: int)
    returns (next: Option<Ref>, nextGc: nat, check: Check, t': nat, ghost nextStamped: nat)
    requires Legal(run) && run[0].scheme == Scheme.Gecos && b < |run[0].tb.heads|
    requires call <= begun <= stamped <= t0 <= t1 <= t < |run|
    requires Stamped(run, stamped, cur, curGc) && Good(run, call, t0, b, key, cur, curGc)
    requires cur < |run[t1].tb.mem| && run[t1].tb.mem[cur].key == curKey
    ensures t <= nextStamped <= t' < |run|
    ensures next.Some? ==> Stamped(run, nextStamped, next.value, nextGc)
    ensures check != Passed ==> begun < t' && Disturbances(run, call, begun) + 1 <= Disturbances(run, call, t')
    ensures check == LinkMoved ==> t < t' && Disturbances(run, call, t) + 1 <= Disturbances(run, call, t')
    ensures Recycles(run, when, c, t, cur, curGc) ==> check == Recycled
    ensures check == Recycled ==> Lost(run, cur, curGc, t, t')
    ensures check == Passed ==> Hop(run, call, t0, t', b, key, cur, curGc, curKey, next, nextGc)
  {
    t' := LoadAt(run, when, c, t);
    LoadsInRange(run, t', b, cur);
    LoadsInRange(run, stamped, b, cur);
    next := run[t'].tb.mem[cur].next;
    ghost var t2 := t';
    t' := LoadAt(run, when, c + 1, t');
    LoadsInRange(run, t', b, cur);
    nextGc := if next != None then run[t'].tb.mem[next.value].gc else 0;
    nextStamped := t';
    t' := LoadAt(run, when, c + 2, t');
    LoadsInRange(run, t', b, cur);
    if next != run[t'].tb.mem[cur].next {
      FailureIsDisturbed(run, call, begun, t2, t');
      FailureIsDisturbed(run, call, t, t2, t');
      check := LinkMoved;
      return;
    }
    ghost var t4 := t';
    t' := LoadAt(run, when, c + 3, t');
    LoadsInRange(run, t', b, cur);
    if curGc != run[t'].tb.mem[cur].gc {
      FailureIsDisturbed(run, call, begun, stamped, t');
      assert SameNext(run, cur, t2, t4);
      check := Recycled;
      return;
    }
    Validated(run, call, t0, t1, nextStamped, t4, t', b, key, cur, curGc, curKey, next, nextGc);
    check := Passed;
  }

  /** What a passed check tells the reader that held `cur` at instant `t0`. */
  ghost predicate Hop(run: seq<World>, call: nat, t0: nat, t: nat, b: nat, key: int,
                      cur: Ref, curGc: nat, curKey: int, next: Option<Ref>, nextGc: nat) {
    && t0 < |run| && t < |run| && cur < |run[t0].tb.mem|
    && run[t0].tb.mem[cur].key == curKey && run[t0].tb.mem[cur].gc == curGc
    && Witnessed(run, call, t, b, key, curKey)
    && (curKey < key && next.None? ==> Saw(run, call, t, b, key, false))
    && (curKey < key && next.Some? ==> Good(run, call, t, b, key, next.value, nextGc))
    && (curKey < key && next.Some? && run[t].tb.mem[next.value].gc == nextGc ==> curKey < run[t].tb.mem[next.value].key)
    && (curKey < key ==> Spans(run, t0, t, b, Some(curKey), next, nextGc))
  }

  /** `low`, the last validated key, is below the search key and the current node's. */
  ghost predicate Beyond(run: seq<World>, t: nat, key: int, cur: Option<Ref>, curGc: nat, low: Option<int>) {
    low.Some? ==>
      && low.value < key
      && (cur.Some? ==>
            && t < |run| && cur.value < |run[t].tb.mem|
            && (run[t].tb.mem[cur.value].gc == curGc ==> low.value < run[t].tb.mem[cur.value].key))
  }

  /** The trail so far, its last key, and what CHECK_CCRT has found on it. */
  ghost predicate Checked(trail: seq<int>, key: int, low: Option<int>, prevKey: int, ccrt: bool) {
    && Increasing(trail) && (forall i :: 0 <= i < |trail| ==> trail[i] < key)
    && (trail == [] <==> low.None?) && (trail != [] ==> trail[|trail| - 1] == low.value)
    && prevKey == (if low.None? then 0 else low.value)
    && (ccrt <==> trail == [] || 0 <= trail[0])
  }

  lemma CheckedOn(trail: seq<int>, key: int, low: Option<int>, prevKey: int, ccrt: bool, curKey: int)
    requires Checked(trail, key, low, prevKey, ccrt) && curKey < key && (low.Some? ==> low.value < curKey)
    ensures Checked(trail + [curKey], key, Some(curKey), curKey, ccrt && prevKey <= curKey)
  {
  }

  /** One iteration up to the verdict of its checks: `cur_key = cur->key`, then `Peek`. */
  method Visit(run: seq<World>, when: seq<nat>, c: nat, b: nat, key: int, ghost call: nat, ghost begun: nat,
               ghost stamped: nat, t: nat, cur: Ref, curGc: nat, relink: bool)
    returns (curKey: int, next: Option<Ref>, nextGc: nat, ok: bool, t': nat, ghost nextStamped: nat, relinks: nat, c': nat)
    requires Legal(run) && run[0].scheme == Scheme.Gecos && b < |run[0].tb.heads|
    requires call <= begun <= stamped <= t < |run|
    requires Stamped(run, stamped, cur, curGc) && Good(run, call, t, b, key, cur, curGc)
    ensures t <= nextStamped <= t' < |run|
    ensures Disturbances(run, call, t) + relinks <= Disturbances(run, call, t')
    ensures next.Some? ==> Stamped(run, nextStamped, next.value, nextGc)
    ensures Good(run, call, t', b, key, cur, curGc)
    ensures !ok ==> begun < t' && Disturbances(run, call, begun) + 1 <= Disturbances(run, call, t')
    ensures Recycles(run, when, c + 1, LoadAt(run, when, c, t), cur, curGc) ==> !ok
    ensures !ok && relink ==> Lost(run, cur, curGc, t, t')
    ensures ok ==> Hop(run, call, t, t', b, key, cur, curGc, curKey, next, nextGc)
    ensures ok && curKey >= key ==> Answered(run, call, t', b, key, curKey == key)
    ensures ok && curKey < key && next.None? ==> Answered(run, call, t', b, key, false)
  {
    t' := LoadAt(run, when, c, t);
    c' := c + 1;
    ghost var t1 := t';
    DisturbancesAdd(run, call, t, t1);
    LoadsInRange(run, t1, b, 0);
    LoadsInRange(run, t, b, 0);
    curKey := run[t'].tb.mem[cur].key;
    relinks := 0;
    var check;
    while true
      invariant t <= t1 <= t' < |run|
      invariant Disturbances(run, call, t) + relinks <= Disturbances(run, call, t')
      invariant Recycles(run, when, c + 1, t1, cur, curGc) ==> t' == t1 && c' == c + 1
      decreases |run| - t'
    {
      ghost var before := t';
      next, nextGc, check, t', nextStamped :=
        Peek(run, when, c', b, key, call, begun, stamped, t, t1, t', cur, curGc, curKey);
      c' := c' + 4;
      DisturbancesAdd(run, call, before, t');
      if check != LinkMoved || !relink {
        break;
      }
      relinks := relinks + 1;  // goto relink
    }
    ok := check == Passed;
    GoodLater(run, call, t, t', b, key, cur, curGc);
    if ok && curKey >= key {
      SawContains(run, call, t', b, key, curKey == key);
    } else if ok && next.None? {
      SawContains(run, call, t', b, key, false);
    }
  }

  /** What every attempt that began at `begun` leaves behind: an answer that held
      at an instant of the call, or a store that made it fail. */
  ghost predicate Attempted(run: seq<World>, b: nat, key: int, call: nat, begun: nat, t: nat, outcome: Outcome) {
    && begun <= t < |run|
    && match outcome
       case Return(found) => Answered(run, call, t, b, key, found)
       case Retry => begun < t && Disturbances(run, call, begun) + 1 <= Disturbances(run, call, t)
       case Blocked => false
  }

  /** The default loop, from `retry:` to a return or to `goto retry`, with its
      CHECK_CCRT code.  `trail` is the keys on which the assertion
      `prev_key <= cur_key` ran: keys of the bucket's nodes, strictly increasing,
      and when the attempt returns, every key below the search key that stayed in
      the bucket meanwhile.  `ccrt` says that the assertion held on all of them:
      `prev_key` starts at 0, so it fails if and only if the first is negative. */
  method Attempt(run: seq<World>, when: seq<nat>, c: nat, b: nat, key: int, ghost call: nat, begun: nat)
    returns (outcome: Outcome, t: nat, trail: seq<int>, ccrt: bool, c': nat)
    requires Legal(run) && run[0].scheme == Scheme.Gecos && b < |run[0].tb.heads| && call <= begun < |run|
    ensures Attempted(run, b, key, call, begun, t, outcome)
    ensures AllMet(run, begun, t, b, trail)
    ensures Increasing(trail) && forall i :: 0 <= i < |trail| ==> trail[i] < key
    ensures outcome.Return? ==> Complete(run, begun, t, b, key, trail)
    ensures ccrt <==> trail == [] || 0 <= trail[0]
  {
    trail, ccrt := [], true;
    var prevKey := 0;
    ghost var low := None;
    var cur, curGc, ok;
    ghost var stamped;
    cur, curGc, ok, t, stamped := EnterList(run, when, c, b, key, call, begun);
    c' := c + 3;
    if !ok {
      return Retry, t, trail, ccrt, c';
    }
    EnterSkipsNone(run, begun, t, b, key, cur, curGc);
    while cur.Some?
      invariant begun <= stamped <= t < |run|
      invariant cur.Some? ==> Stamped(run, stamped, cur.value, curGc) && Good(run, call, t, b, key, cur.value, curGc)
      invariant cur.None? ==> Answered(run, call, t, b, key, false)
      invariant Beyond(run, t, key, cur, curGc, low) && Checked(trail, key, low, prevKey, ccrt)
      invariant AllMet(run, begun, t, b, trail) && NoneSkipped(run, begun, t, b, key, cur, curGc, trail)
      decreases low.None?, if low.None? then 0 else key - low.value
    {
      ghost var t0 := t;
      var curKey, next, nextGc, relinks;
      ghost var nextStamped;
      curKey, next, nextGc, ok, t, nextStamped, relinks, c' :=
        Visit(run, when, c', b, key, call, begun, stamped, t, cur.value, curGc, false);
      AllMetLater(run, begun, begun, t0, t, b, trail);
      if !ok {
        return Retry, t, trail, ccrt, c';
      }
      if curKey >= key {
        VisitEnds(run, call, begun, t0, t, b, key, cur.value, curGc, curKey, next, nextGc, trail);
        return Return(curKey == key), t, trail, ccrt, c';
      }
      VisitHops(run, call, begun, t0, t, b, key, cur.value, curGc, curKey, next, nextGc, trail);
      CheckedOn(trail, key, low, prevKey, ccrt, curKey);
      ccrt := ccrt && prevKey <= curKey;
      prevKey, trail := curKey, trail + [curKey];
      cur, curGc, stamped, low := next, nextGc, nextStamped, Some(curKey);
    }
    NoneLeft(run, begun, t, t, b, key, None, curGc, trail);
    return Return(false), t, trail, ccrt, c';
  }

  lemma EnterSkipsNone(run: seq<World>, i: nat, t: nat, b: nat, key: int, cur: Option<Ref>, g: nat)
    requires Spans(run, t, t, b, None, cur, g) && i <= t < |run|
    ensures NoneSkipped(run, i, t, b, key, cur, g, [])
  {
    forall n: Ref, k: int | Stays(run, i, t, b, n, k) && k < key ensures Ahead(run, t, b, cur, g, k) {
      StaysWithin(run, i, t, t, t, b, n, k);
    }
  }

  /** A validated node below the key joins the trail. */
  lemma VisitHops(run: seq<World>, call: nat, i: nat, t0: nat, t: nat, b: nat, key: int,
                  cur: Ref, curGc: nat, curKey: int, next: Option<Ref>, nextGc: nat, trail: seq<int>)
    requires Legal(run) && run[0].scheme == Scheme.Gecos && b < |run[0].tb.heads| && i <= t0 <= t < |run|
    requires Good(run, call, t0, b, key, cur, curGc) && curKey < key
    requires Hop(run, call, t0, t, b, key, cur, curGc, curKey, next, nextGc)
    requires AllMet(run, i, t, b, trail) && NoneSkipped(run, i, t0, b, key, Some(cur), curGc, trail)
    ensures AllMet(run, i, t, b, trail + [curKey]) && NoneSkipped(run, i, t, b, key, next, nextGc, trail + [curKey])
  {
    RunInv(run, t0);
    assert Owned(run[t0].tb, b, cur);
    assert Met(run, i, t, b, curKey);
    NoneSkippedHop(run, i, t0, t, b, key, cur, curGc, curKey, next, nextGc, trail);
  }

  lemma VisitEnds(run: seq<World>, call: nat, i: nat, t0: nat, t: nat, b: nat, key: int,
                  cur: Ref, curGc: nat, curKey: int, next: Option<Ref>, nextGc: nat, trail: seq<int>)
    requires Legal(run) && run[0].scheme == Scheme.Gecos && b < |run[0].tb.heads| && i <= t0 <= t < |run|
    requires Good(run, call, t0, b, key, cur, curGc) && curKey >= key
    requires Hop(run, call, t0, t, b, key, cur, curGc, curKey, next, nextGc)
    requires NoneSkipped(run, i, t0, b, key, Some(cur), curGc, trail)
    ensures Complete(run, i, t, b, key, trail)
  {
    RunInv(run, t0);
    NoneLeft(run, i, t0, t, b, key, Some(cur), curGc, trail);
  }

  /** The default `search`.  `trail` is that of its last attempt; `ccrt` says that
      the CHECK_CCRT assertion held in every attempt.  It holds when no insert or
      delete was ever called with a negative key; it fails when a negative key
      below the search key stays in the bucket, and only when one is met there. */
  method Search(run: seq<World>, when: seq<nat>, b: nat, key: int, call: nat)
    returns (found: bool, ret: nat, attempts: nat, trail: seq<int>, ccrt: bool)
    requires Legal(run) && run[0].scheme == Scheme.Gecos && b < |run[0].tb.heads| && call < |run|
    ensures call <= ret < |run|
    ensures Answered(run, call, ret, b, key, found)
    ensures 0 < attempts <= 1 + Disturbances(run, call, ret)
    ensures AllMet(run, call, ret, b, trail) && Increasing(trail) && Complete(run, call, ret, b, key, trail)
    ensures NonNegativeCalls(run) ==> ccrt
    ensures !ccrt ==> exists k: int :: k < 0 && Met(run, call, ret, b, k)
    ensures forall n: Ref, k: int :: Stays(run, call, ret, b, n, k) && k < key && k < 0 ==> !ccrt
  {
    ret, attempts, ccrt := call, 0, true;
    var c := 0;
    while true
      invariant call <= ret < |run|
      invariant attempts <= Disturbances(run, call, ret)
      invariant !ccrt ==> exists k: int :: k < 0 && Met(run, call, ret, b, k)
      decreases |run| - ret
    {
      ghost var begun := ret;
      attempts := attempts + 1;
      var outcome, held;
      outcome, ret, trail, held, c := Attempt(run, when, c, b, key, call, ret);
      AllMetLater(run, begun, call, ret, ret, b, trail);
      NegativeMet(run, call, begun, ret, b, trail, ccrt, held);
      ccrt := ccrt && held;
      if outcome.Return? {
        DisturbancesAdd(run, call, begun, ret);
        CompleteWithin(run, call, begun, ret, b, key, trail);
        AssertionHolds(run, call, ret, b, ccrt);
        return outcome.found, ret, attempts, trail, ccrt;
      }
    }
  }

  /** A failed assertion names a negative key of the bucket. */
  lemma NegativeMet(run: seq<World>, call: nat, before: nat, t: nat, b: nat, trail: seq<int>, ccrt: bool, held: bool)
    requires AllMet(run, call, t, b, trail) && before <= t && (held <==> trail == [] || 0 <= trail[0])
    requires !ccrt ==> exists k: int :: k < 0 && Met(run, call, before, b, k)
    ensures !(ccrt && held) ==> exists k: int :: k < 0 && Met(run, call, t, b, k)
  {
    if !ccrt {
      var k: int :| k < 0 && Met(run, call, before, b, k);
      assert Met(run, call, t, b, k);
    } else if !held {
      assert Met(run, call, t, b, trail[0]);
    }
  }

  lemma AssertionHolds(run: seq<World>, call: nat, t: nat, b: nat, ccrt: bool)
    requires Legal(run) && (!ccrt ==> exists k: int :: k < 0 && Met(run, call, t, b, k))
    ensures NonNegativeCalls(run) ==> ccrt
  {
    if NonNegativeCalls(run) && !ccrt {
      var k: int :| k < 0 && Met(run, call, t, b, k);
      MetNonNegative(run, call, t, b, k);
    }
  }

  // ----- GECOS_R

  /** The GECOS_R loop, from `retry:` to a return or to `goto retry`. */
  method AttemptRelink(run: seq<World>, when: seq<nat>, c: nat, b: nat, key: int, ghost call: nat, begun: nat)
    returns (outcome: Outcome, t: nat, relinks: nat, c': nat)
    requires Legal(run) && run[0].scheme == Scheme.Gecos && b < |run[0].tb.heads| && call <= begun < |run|
    ensures Attempted(run, b, key, call, begun, t, outcome)
    ensures Disturbances(run, call, begun) + relinks <= Disturbances(run, call, t)
  {
    relinks := 0;
    ghost var low := None;
    var cur, curGc, ok;
    ghost var stamped;
    cur, curGc, ok, t, stamped := EnterList(run, when, c, b, key, call, begun);
    c' := c + 3;
    DisturbancesAdd(run, call, begun, t);
    if !ok {
      return Retry, t, relinks, c';
    }
    while cur.Some?
      invariant begun <= stamped <= t < |run|
      invariant Disturbances(run, call, begun) + relinks <= Disturbances(run, call, t)
      invariant cur.Some? ==> Stamped(run, stamped, cur.value, curGc) && Good(run, call, t, b, key, cur.value, curGc)
      invariant cur.None? ==> Answered(run, call, t, b, key, false)
      invariant Beyond(run, t, key, cur, curGc, low)
      decreases low.None?, if low.None? then 0 else key - low.value
    {
      var curKey, next, nextGc, more;
      ghost var nextStamped;
      curKey, next, nextGc, ok, t, nextStamped, more, c' :=
        Visit(run, when, c', b, key, call, begun, stamped, t, cur.value, curGc, true);
      relinks := relinks + more;
      if !ok {
        return Retry, t, relinks, c';
      }
      if curKey >= key {
        return Return(curKey == key), t, relinks, c';
      }
      cur, curGc, stamped, low := next, nextGc, nextStamped, Some(curKey);
    }
    return Return(false), t, relinks, c';
  }

  /** The GECOS_R `search`. */
  method SearchRelink(run: seq<World>, when: seq<nat>, b: nat, key: int, call: nat)
    returns (found: bool, ret: nat, attempts: nat, relinks: nat)
    requires Legal(run) && run[0].scheme == Scheme.Gecos && b < |run[0].tb.heads| && call < |run|
    ensures call <= ret < |run|
    ensures Answered(run, call, ret, b, key, found)
    ensures attempts <= 1 + Disturbances(run, call, ret)
    ensures relinks <= Disturbances(run, call, ret)
  {
    ret, attempts, relinks := call, 0, 0;
    var c := 0;
    while true
      invariant call <= ret < |run|
      invariant attempts <= Disturbances(run, call, ret)
      invariant relinks <= Disturbances(run, call, ret)
      decreases |run| - ret
    {
      ghost var begun := ret;
      attempts := attempts + 1;
      var outcome, more;
      outcome, ret, more, c := AttemptRelink(run, when, c, b, key, call, ret);
      relinks := relinks + more;
      if outcome.Return? {
        DisturbancesAdd(run, call, begun, ret);
        return outcome.found, ret, attempts, relinks;
      }
    }
  }

  // ----- GECOS_B

  datatype BackOutcome = Restart | Found(found: bool) | PrevUnset

  /** The node `prev` recorded, if any, is still good. */
  ghost predicate PrevGood(run: seq<World>, call: nat, t: nat, b: nat, key: int, prev: Option<(Ref, nat)>) {
    prev.Some? ==> Good(run, call, t, b, key, prev.value.0, prev.value.1)
  }

  /** The loads that lead to line 59 before line 72 ever ran: of `*head` at `a` and
      `h`, of the node's generation at `g` and `z`, of its link at `x` and `y`. */
  ghost predicate UnsetTrace(run: seq<World>, b: nat, i: nat, j: nat, n: Ref,
                             a: nat, g: nat, h: nat, x: nat, y: nat, z: nat) {
    && i <= a <= g <= h <= x <= y <= z <= j && z < |run|
    && WasHead(run, b, n, a) && WasHead(run, b, n, h)
    && n < |run[g].tb.mem| && n < |run[z].tb.mem| && run[g].tb.mem[n].gc != run[z].tb.mem[n].gc
    && SameNext(run, n, x, y)
  }

  /** Between `i` and `j` a search can read `prev_gc` unassigned. */
  ghost predicate CanReadUnset(run: seq<World>, b: nat, i: nat, j: nat) {
    exists n: Ref, a: nat, g: nat, h: nat, x: nat, y: nat, z: nat :: UnsetTrace(run, b, i, j, n, a, g, h, x, y, z)
  }

  /** The schedule's first loads, from number `c` on, lose the first node. */
  ghost predicate FirstLost(run: seq<World>, when: seq<nat>, c: nat, b: nat, t: nat) {
    && t < |run|
    && var a := LoadAt(run, when, c, t);
       var g := LoadAt(run, when, c + 1, a);
       var h := LoadAt(run, when, c + 2, g);
       && b < |run[a].tb.heads| && run[a].tb.heads[b].Some?
       && var n := run[a].tb.heads[b].value;
          && WasHead(run, b, n, h) && n < |run[g].tb.mem|
          && Recycles(run, when, c + 4, LoadAt(run, when, c + 3, h), n, run[g].tb.mem[n].gc)
  }

  /** The condition is exact: the loads of a trace are a schedule on which the search
      called at `i` loses its first node, and `SearchBack` is then undefined. */
  lemma TraceIsSchedule(run: seq<World>, b: nat, i: nat, j: nat) returns (when: seq<nat>)
    requires CanReadUnset(run, b, i, j)
    ensures i < |run| && FirstLost(run, when, 0, b, i)
  {
    var n: Ref, a: nat, g: nat, h: nat, x: nat, y: nat, z: nat :| UnsetTrace(run, b, i, j, n, a, g, h, x, y, z);
    when := ScheduleOf(run, b, i, j, n, a, g, h, x, y, z);
  }

  lemma ScheduleOf(run: seq<World>, b: nat, i: nat, j: nat, n: Ref, a: nat, g: nat, h: nat, x: nat, y: nat, z: nat)
    returns (when: seq<nat>)
    requires UnsetTrace(run, b, i, j, n, a, g, h, x, y, z)
    ensures i < |run| && FirstLost(run, when, 0, b, i)
  {
    when := [a, g, h, h, x, x, y, z];
    assert LoadAt(run, when, 0, i) == a && LoadAt(run, when, 1, a) == g && LoadAt(run, when, 2, g) == h;
    assert LoadAt(run, when, 3, h) == h && LoadAt(run, when, 4, h) == x && LoadAt(run, when, 5, x) == x;
    assert LoadAt(run, when, 6, x) == y && LoadAt(run, when, 7, y) == z;
    assert Recycles(run, when, 4, h, n, run[g].tb.mem[n].gc);
  }

  lemma LostFirstNode(run: seq<World>, b: nat, n: Ref, call: nat, i: nat, g: nat, h: nat, gc: nat, z: nat)
    requires call <= i && FirstNode(run, b, n, i, g, h) && Stamped(run, g, n, gc) && Lost(run, n, gc, h, z)
    ensures CanReadUnset(run, b, call, z)
  {
    var a: nat :| i <= a <= g && WasHead(run, b, n, a);
    var x: nat, y: nat :| h <= x && y <= z && SameNext(run, n, x, y);
    assert UnsetTrace(run, b, call, z, n, a, g, h, x, y, z);
  }

  /** What an attempt of GECOS_B leaves behind.  `backs` counts its back-steps. */
  ghost predicate BackAttempted(run: seq<World>, b: nat, key: int, call: nat, begun: nat, t: nat,
                                outcome: BackOutcome, backs: nat) {
    && begun <= t < |run|
    && Disturbances(run, call, begun) + backs <= Disturbances(run, call, t)
    && match outcome
       case Found(found) => Answered(run, call, t, b, key, found)
       case Restart => begun < t && Disturbances(run, call, begun) + backs + 1 <= Disturbances(run, call, t)
       case PrevUnset => Disturbances(run, call, begun) + backs + 1 <= Disturbances(run, call, t)
  }

  /** The GECOS_B loop, from `retry:` to a return or to `goto retry`.  `prev`
      keeps its value from earlier attempts, as the C local does. */
  method AttemptBack(run: seq<World>, when: seq<nat>, c: nat, b: nat, key: int, ghost call: nat, begun: nat,
                     prev0: Option<(Ref, nat)>)
    returns (outcome: BackOutcome, t: nat, backs: nat, prev: Option<(Ref, nat)>, c': nat)
    requires Legal(run) && run[0].scheme == Scheme.Gecos && b < |run[0].tb.heads| && call <= begun < |run|
    requires PrevGood(run, call, begun, b, key, prev0)
    ensures BackAttempted(run, b, key, call, begun, t, outcome, backs)
    ensures PrevGood(run, call, t, b, key, prev)
    ensures prev0.Some? || backs > 0 ==> prev.Some?
    ensures outcome == PrevUnset ==> prev.None? && CanReadUnset(run, b, call, t)
    ensures prev0.None? && FirstLost(run, when, c, b, begun) ==> outcome == PrevUnset
  {
    prev, backs := prev0, 0;
    ghost var low := None;
    var cur, curGc, ok;
    ghost var stamped;
    cur, curGc, ok, t, stamped := EnterList(run, when, c, b, key, call, begun);
    c' := c + 3;
    DisturbancesAdd(run, call, begun, t);
    PrevGoodLater(run, call, begun, t, b, key, prev);
    if !ok {
      return Restart, t, backs, prev, c';
    }
    ghost var mark := begun;  // the attempt's start or its last back-step
    while cur.Some?
      invariant begun <= mark <= stamped <= t < |run|
      invariant Disturbances(run, call, begun) + backs <= Disturbances(run, call, mark) <= Disturbances(run, call, t)
      invariant PrevGood(run, call, t, b, key, prev) && (prev0.Some? || backs > 0 ==> prev.Some?)
      invariant prev.None? && cur.Some? ==> FirstNode(run, b, cur.value, begun, stamped, t)
      invariant prev0.None? && FirstLost(run, when, c, b, begun) ==>
                  prev.None? && cur.Some? && c' == c + 3 && Recycles(run, when, c + 4, LoadAt(run, when, c + 3, t), cur.value, curGc)
      invariant cur.Some? ==> Stamped(run, stamped, cur.value, curGc) && Good(run, call, t, b, key, cur.value, curGc)
      invariant cur.None? ==> Answered(run, call, t, b, key, false)
      invariant Beyond(run, t, key, cur, curGc, low)
      decreases |run| - mark, low.None?, if low.None? then 0 else key - low.value
    {
      ghost var t0 := t;
      var curKey, next, nextGc, relinks;
      ghost var nextStamped;
      curKey, next, nextGc, ok, t, nextStamped, relinks, c' :=
        Visit(run, when, c', b, key, call, mark, stamped, t, cur.value, curGc, true);
      DisturbancesAdd(run, call, mark, t);
      PrevGoodLater(run, call, t0, t, b, key, prev);
      if ok {
        if curKey >= key {
          return Found(curKey == key), t, backs, prev, c';
        }
        prev := Some((cur.value, curGc));
        cur, curGc, stamped, low := next, nextGc, nextStamped, Some(curKey);
      } else if prev.None? {
        LostFirstNode(run, b, cur.value, call, begun, stamped, t0, curGc, t);
        return PrevUnset, t, backs, prev, c';
      } else {
        var same;
        same, t := Recheck(run, when, c', b, key, call, t, prev.value.0, prev.value.1);
        c' := c' + 1;
        if !same {
          return Restart, t, backs, prev, c';
        }
        cur, curGc, low := Some(prev.value.0), prev.value.1, None;
        backs, stamped, mark := backs + 1, t, t;
      }
    }
    return Found(false), t, backs, prev, c';
  }

  /** `prev_gc == prev->gc` */
  method Recheck(run: seq<World>, when: seq<nat>, c: nat, b: nat, key: int, ghost call: nat, t: nat, prev: Ref, prevGc: nat)
    returns (same: bool, t': nat)
    requires Legal(run) && run[0].scheme == Scheme.Gecos && b < |run[0].tb.heads| && call <= t < |run|
    requires Good(run, call, t, b, key, prev, prevGc)
    ensures t <= t' < |run| && Disturbances(run, call, t) <= Disturbances(run, call, t')
    ensures Good(run, call, t', b, key, prev, prevGc)
    ensures same ==> Stamped(run, t', prev, prevGc)
  {
    t' := LoadAt(run, when, c, t);
    DisturbancesAdd(run, call, t, t');
    GoodLater(run, call, t, t', b, key, prev, prevGc);
    same := prevGc == run[t'].tb.mem[prev].gc;
  }

  lemma PrevGoodLater(run: seq<World>, call: nat, t: nat, t': nat, b: nat, key: int, prev: Option<(Ref, nat)>)
    requires Legal(run) && run[0].scheme == Scheme.Gecos && call <= t <= t' < |run| && b < |run[0].tb.heads|
    requires PrevGood(run, call, t, b, key, prev)
    ensures PrevGood(run, call, t', b, key, prev)
  {
    if prev.Some? {
      GoodLater(run, call, t, t', b, key, prev.value.0, prev.value.1);
    }
  }

  /** The GECOS_B `search`.  The C code reads `prev_gc` before any assignment when
      the first node it visits is recycled between the load of its generation and
      its first validation; then `defined` is false and nothing is claimed about
      the answer.  A run in which that can happen is `Witness.UnsetPrevHappens`. */
  method SearchBack(run: seq<World>, when: seq<nat>, b: nat, key: int, call: nat)
    returns (found: bool, ret: nat, attempts: nat, backs: nat, defined: bool)
    requires Legal(run) && run[0].scheme == Scheme.Gecos && b < |run[0].tb.heads| && call < |run|
    ensures call <= ret < |run|
    ensures defined ==> Answered(run, call, ret, b, key, found)
    ensures 0 < attempts && attempts + backs <= 1 + Disturbances(run, call, ret)
    ensures !defined ==> backs == 0 && attempts <= Disturbances(run, call, ret)
    ensures !defined ==> CanReadUnset(run, b, call, ret)
    ensures FirstLost(run, when, 0, b, call) ==> !defined
  {
    ret, attempts, backs := call, 0, 0;
    var c := 0;
    var prev: Option<(Ref, nat)> := None;
    while true
      invariant call <= ret < |run|
      invariant attempts + backs <= Disturbances(run, call, ret)
      invariant PrevGood(run, call, ret, b, key, prev)
      invariant prev.None? ==> backs == 0
      invariant FirstLost(run, when, 0, b, call) ==> attempts == 0 && c == 0 && prev.None? && ret == call
      decreases |run| - ret
    {
      attempts := attempts + 1;
      var outcome, more;
      outcome, ret, more, prev, c := AttemptBack(run, when, c, b, key, call, ret, prev);
      backs := backs + more;
      match outcome
      case Found(answer) => return answer, ret, attempts, backs, true;
      case PrevUnset => return false, ret, attempts, backs, false;
      case Restart =>
    }
  }
}
