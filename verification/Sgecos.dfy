/** `search` of list_sgecos.c: one generation per bucket, read before the walk
    and compared after every node. */
module Sgecos {
  import opened Buckets
  import opened Worlds
  import opened Readers
  import opened Trails

  /** The bucket counter at an instant of the run. */
  function Counter(run: seq<World>, t: nat, b: nat): nat {
    if t < |run| && b < |run[t].count| then run[t].count[b] else 0
  }

  lemma {:induction false} CounterGrows(run: seq<World>, i: nat, j: nat, b: nat)
    requires Legal(run) && i <= j < |run| && b < |run[0].tb.heads|
    ensures Counter(run, i, b) <= Counter(run, j, b)
  {
    if i < j {
      CounterGrows(run, i, j - 1, b);
      RunInv(run, j - 1);
      assert StepAt(run, j - 1);
    }
  }

  /** What an unchanged counter establishes after one loop iteration.  The loads
      of the counter, of the node's key and link, and the second load of the
      counter happen at the instants s <= t0 <= t1 <= t2 <= t3. */
  lemma Validated(run: seq<World>, call: nat, s: nat, t0: nat, t1: nat, t2: nat, t3: nat, b: nat, key: int,
                  cur: Ref, lgc: nat, curKey: int, next: Option<Ref>)
    requires Legal(run) && run[0].scheme == Scheme.Sgecos && b < |run[0].tb.heads|
    requires call <= s <= t0 <= t1 <= t2 <= t3 < |run|
    requires Counter(run, s, b) == lgc == Counter(run, t3, b)
    requires Good(run, call, t0, b, key, cur, lgc)
    requires cur < |run[t1].tb.mem| && curKey == run[t1].tb.mem[cur].key
    requires cur < |run[t2].tb.mem| && next == run[t2].tb.mem[cur].next
    ensures run[t0].tb.mem[cur].key == curKey
    ensures curKey >= key ==> Answered(run, call, t3, b, key, curKey == key)
    ensures curKey < key && next.None? ==> Answered(run, call, t3, b, key, false)
    ensures curKey < key && next.Some? ==> Good(run, call, t3, b, key, next.value, lgc)
    ensures curKey < key && next.Some? ==> curKey < run[t3].tb.mem[next.value].key
    ensures Stamp(run[t0], b, cur) == lgc && (curKey < key ==> Spans(run, t0, t3, b, Some(curKey), next, lgc))
  {
    RunInv(run, s); RunInv(run, t0); RunInv(run, t1); RunInv(run, t2); RunInv(run, t3);
    GoodLater(run, call, t0, t1, b, key, cur, lgc);
    GoodLater(run, call, t1, t2, b, key, cur, lgc);
    GoodLater(run, call, t2, t3, b, key, cur, lgc);
    if curKey < key {
      OwnedDecides(run[t2], b, cur, key);
      VerdictIsGood(run, call, s, t2, b, key, next, lgc);
      FirstSpans(run, call, t0, t2, t3, b, key, Some(curKey), next, lgc);
      if next.None? {
        SawContains(run, call, t3, b, key, false);
      } else {
        GoodLater(run, call, t2, t3, b, key, next.value, lgc);
      }
    } else {
      SawContains(run, call, t3, b, key, curKey == key);
    }
  }

  /** One iteration: load the node's key and link, then compare the counter. */
  method Visit(run: seq<World>, b: nat, key: int, ghost call: nat, ghost s: nat, t: nat, cur: Ref, lgc: nat)
    returns (curKey: int, next: Option<Ref>, ok: bool, t': nat)
    requires Legal(run) && run[0].scheme == Scheme.Sgecos && b < |run[0].tb.heads| && call <= s <= t < |run|
    requires Counter(run, s, b) == lgc && Good(run, call, t, b, key, cur, lgc)
    ensures t <= t' < |run|
    ensures !ok ==> Counter(run, s, b) < Counter(run, t', b)
    ensures ok ==> cur < |run[t].tb.mem| && run[t].tb.mem[cur].key == curKey
    ensures ok ==> b < |run[t].count| && Stamp(run[t], b, cur) == lgc
    ensures ok && curKey < key ==> Spans(run, t, t', b, Some(curKey), next, lgc)
    ensures ok && curKey >= key ==> Answered(run, call, t', b, key, curKey == key)
    ensures ok && curKey < key && next.None? ==> Answered(run, call, t', b, key, false)
    ensures ok && curKey < key && next.Some? ==>
              Good(run, call, t', b, key, next.value, lgc) && curKey < run[t'].tb.mem[next.value].key
  {
    t' := Later(run, t);
    ghost var t1 := t';
    LoadsInRange(run, t, b, cur);
    LoadsInRange(run, t', b, cur);
    curKey := run[t'].tb.mem[cur].key;
    t' := Later(run, t');
    ghost var t2 := t';
    LoadsInRange(run, t', b, cur);
    next := run[t'].tb.mem[cur].next;
    t' := Later(run, t');
    LoadsInRange(run, t', b, cur);
    ok := lgc == run[t'].count[b];
    if ok {
      Validated(run, call, s, t, t1, t2, t', b, key, cur, lgc, curKey, next);
    } else {
      CounterGrows(run, s, t', b);
    }
  }

  /** The loads at the head of an attempt: the counter, then `*head`. */
  method EnterList(run: seq<World>, b: nat, key: int, ghost call: nat, begun: nat)
    returns (lgc: nat, cur: Option<Ref>, t: nat, ghost s: nat)
    requires Legal(run) && run[0].scheme == Scheme.Sgecos && b < |run[0].tb.heads| && call <= begun < |run|
    ensures begun <= s <= t < |run| && Counter(run, s, b) == lgc
    ensures cur.None? ==> Answered(run, call, t, b, key, false)
    ensures cur.Some? ==> Good(run, call, t, b, key, cur.value, lgc)
    ensures NoneSkipped(run, begun, t, b, key, cur, lgc, [])
  {
    t := Later(run, begun);
    LoadsInRange(run, t, b, 0);
    s := t;
    lgc := run[t].count[b];
    t := Later(run, t);
    LoadsInRange(run, t, b, 0);
    cur := run[t].tb.heads[b];
    RunInv(run, t);
    HeadDecides(run[t], b, key);
    VerdictIsGood(run, call, s, t, b, key, cur, lgc);
    assert BucketOk(run[t].tb, b);
    FirstSpans(run, call, begun, t, t, b, key, None, cur, lgc);
    if cur.None? {
      SawContains(run, call, t, b, key, false);
    }
  }

  /** From `retry:` to a return or to `goto retry`.  `trail` is the validated keys
      below the search key: keys of the bucket's nodes, strictly increasing, and
      when the attempt returns, every one that stayed in the bucket meanwhile. */
  method Attempt(run: seq<World>, b: nat, key: int, ghost call: nat, begun: nat)
    returns (outcome: Outcome, t: nat, trail: seq<int>)
    requires Legal(run) && run[0].scheme == Scheme.Sgecos && b < |run[0].tb.heads| && call <= begun < |run|
    ensures begun <= t < |run|
    ensures outcome.Return? ==> Answered(run, call, t, b, key, outcome.found)
    ensures outcome.Retry? ==> Counter(run, begun, b) < Counter(run, t, b)
    ensures !outcome.Blocked?
    ensures AllMet(run, begun, t, b, trail) && Increasing(trail)
    ensures outcome.Return? ==> Complete(run, begun, t, b, key, trail)
  {
    var lgc, cur;
    ghost var s;
    lgc, cur, t, s := EnterList(run, b, key, call, begun);
    trail := [];
    CounterGrows(run, begun, s, b);
    while cur.Some?
      invariant s <= t < |run|
      invariant cur.Some? ==> Good(run, call, t, b, key, cur.value, lgc)
      invariant cur.None? ==> Answered(run, call, t, b, key, false)
      invariant Increasing(trail) && (trail != [] ==> trail[|trail| - 1] < key)
      invariant AllMet(run, begun, t, b, trail) && NoneSkipped(run, begun, t, b, key, cur, lgc, trail)
      invariant cur.Some? && trail != [] ==> trail[|trail| - 1] < run[t].tb.mem[cur.value].key
      decreases trail == [], if trail == [] then 0 else key - trail[|trail| - 1]
    {
      ghost var t0 := t;
      var curKey, next, ok;
      curKey, next, ok, t := Visit(run, b, key, call, s, t, cur.value, lgc);
      AllMetLater(run, begun, begun, t0, t, b, trail);
      if !ok {
        return Retry, t, trail;
      }
      if curKey >= key {
        NoneLeft(run, begun, t0, t, b, key, cur, lgc, trail);
        return Return(curKey == key), t, trail;
      }
      assert Owned(run[t0].tb, b, cur.value);
      assert Met(run, begun, t, b, curKey);
      NoneSkippedHop(run, begun, t0, t, b, key, cur.value, lgc, curKey, next, lgc, trail);
      trail, cur := trail + [curKey], next;
    }
    NoneLeft(run, begun, t, t, b, key, None, lgc, trail);
    return Return(false), t, trail;
  }

  /** The SGECOS `search`.  A call retries at most once per delete that its
      bucket's counter recorded during the call. */
  method Search(run: seq<World>, b: nat, key: int, call: nat)
    returns (found: bool, ret: nat, retries: nat, trail: seq<int>)
    requires Legal(run) && run[0].scheme == Scheme.Sgecos && b < |run[0].tb.heads| && call < |run|
    ensures call <= ret < |run|
    ensures Answered(run, call, ret, b, key, found)
    ensures Counter(run, call, b) + retries <= Counter(run, ret, b)
    ensures AllMet(run, call, ret, b, trail) && Increasing(trail) && Complete(run, call, ret, b, key, trail)
  {
    ret, retries := call, 0;
    while true
      invariant call <= ret < |run|
      invariant Counter(run, call, b) + retries <= Counter(run, ret, b)
      decreases |run| - ret
    {
      ghost var begun := ret;
      var outcome;
      outcome, ret, trail := Attempt(run, b, key, call, ret);
      if outcome.Return? {
        CounterGrows(run, begun, ret, b);
        AllMetLater(run, begun, call, ret, ret, b, trail);
        CompleteWithin(run, call, begun, ret, b, key, trail);
        return outcome.found, ret, retries, trail;
      }
      retries := retries + 1;
    }
  }
}
