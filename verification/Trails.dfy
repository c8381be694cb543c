/** Which keys a search validates: only keys of nodes of its bucket, and every key
    that stays in the bucket while the search passes. */
module Trails {
  import opened Buckets
  import opened ListWriter
  import opened Worlds
  import opened Readers

  ghost predicate Increasing(keys: seq<int>) {
    forall i, j :: 0 <= i < j < |keys| ==> keys[i] < keys[j]
  }

  /** A node of the bucket, linked or just unlinked, had the key between `i` and `t`. */
  ghost predicate Met(run: seq<World>, i: nat, t: nat, b: nat, key: int) {
    exists m: nat, n: Ref :: i <= m <= t && m < |run| && Owned(run[m].tb, b, n) && run[m].tb.mem[n].key == key
  }

  ghost predicate AllMet(run: seq<World>, i: nat, t: nat, b: nat, trail: seq<int>) {
    forall x :: 0 <= x < |trail| ==> Met(run, i, t, b, trail[x])
  }

  lemma AllMetLater(run: seq<World>, i: nat, i': nat, t: nat, t': nat, b: nat, trail: seq<int>)
    requires AllMet(run, i, t, b, trail) && i' <= i && t <= t'
    ensures AllMet(run, i', t', b, trail)
  {
    forall x | 0 <= x < |trail| ensures Met(run, i', t', b, trail[x]) {
      assert Met(run, i, t, b, trail[x]);
    }
  }

  /** Node `n` is linked with key `k` from instant `i` to instant `t`. */
  ghost predicate Stays(run: seq<World>, i: nat, t: nat, b: nat, n: Ref, k: int) {
    i <= t < |run| && forall m: nat :: i <= m <= t ==> LinkedIn(run[m].tb, b, n) && run[m].tb.mem[n].key == k
  }

  lemma StaysWithin(run: seq<World>, i: nat, i': nat, t': nat, t: nat, b: nat, n: Ref, k: int)
    requires Stays(run, i, t, b, n, k) && i <= i' <= t' <= t
    ensures Stays(run, i', t', b, n, k)
  {
  }

  /** Key `k` is not behind the node the reader holds, as long as that node's
      generation is the one the reader holds. */
  ghost predicate Ahead(run: seq<World>, t: nat, b: nat, cur: Option<Ref>, g: nat, k: int) {
    && cur.Some? && t < |run| && cur.value < |run[t].tb.mem| && b < |run[t].count|
    && (Stamp(run[t], b, cur.value) == g ==> run[t].tb.mem[cur.value].key <= k)
  }

  /** The link leads over no node that stays. */
  ghost predicate Spans(run: seq<World>, i: nat, t: nat, b: nat, low: Option<int>, next: Option<Ref>, g: nat) {
    forall n: Ref, k: int :: Stays(run, i, t, b, n, k) && Above(low, k) ==> Ahead(run, t, b, next, g, k)
  }

  /** What stays in the bucket was validated or is ahead. */
  ghost predicate NoneSkipped(run: seq<World>, i: nat, t: nat, b: nat, key: int, cur: Option<Ref>, g: nat,
                              trail: seq<int>) {
    forall n: Ref, k: int :: Stays(run, i, t, b, n, k) && k < key ==> k in trail || Ahead(run, t, b, cur, g, k)
  }

  /** Every key below the search key that stayed in the bucket was validated. */
  ghost predicate Complete(run: seq<World>, i: nat, t: nat, b: nat, key: int, trail: seq<int>) {
    forall n: Ref, k: int :: Stays(run, i, t, b, n, k) && k < key ==> k in trail
  }

  lemma CompleteWithin(run: seq<World>, i': nat, i: nat, t: nat, b: nat, key: int, trail: seq<int>)
    requires Complete(run, i, t, b, key, trail) && i' <= i <= t < |run|
    ensures Complete(run, i', t, b, key, trail)
  {
    forall n: Ref, k: int | Stays(run, i', t, b, n, k) && k < key ensures k in trail {
      StaysWithin(run, i', i, t, t, b, n, k);
    }
  }

  /** A pointer that is first above `low` at instant `m`, with a generation read no
      later, spans the nodes that stay. */
  lemma FirstSpans(run: seq<World>, call: nat, i: nat, m: nat, t: nat, b: nat, key: int, low: Option<int>,
                   next: Option<Ref>, g: nat)
    requires Legal(run) && run[0].scheme != SeqLock && call <= m && i <= m <= t < |run| && b < |run[0].tb.heads|
    requires First(run[m].tb, b, low, next)
    requires next.Some? ==> Good(run, call, m, b, key, next.value, g)
    ensures Spans(run, i, t, b, low, next, g)
  {
    RunInv(run, t);
    RunInv(run, m);
    if next.Some? {
      GoodLater(run, call, m, t, b, key, next.value, g);
    }
    forall n: Ref, k: int | Stays(run, i, t, b, n, k) && Above(low, k) ensures Ahead(run, t, b, next, g, k) {
      assert LinkedIn(run[m].tb, b, n) && run[m].tb.mem[n].key == k;
    }
  }

  /** One validated node further. */
  lemma NoneSkippedHop(run: seq<World>, i: nat, t: nat, t': nat, b: nat, key: int, cur: Ref, g: nat, curKey: int,
                       next: Option<Ref>, nextG: nat, trail: seq<int>)
    requires NoneSkipped(run, i, t, b, key, Some(cur), g, trail) && i <= t <= t' < |run|
    requires cur < |run[t].tb.mem| && b < |run[t].count|
    requires run[t].tb.mem[cur].key == curKey && Stamp(run[t], b, cur) == g
    requires Spans(run, t, t', b, Some(curKey), next, nextG)
    ensures NoneSkipped(run, i, t', b, key, next, nextG, trail + [curKey])
  {
    forall n: Ref, k: int | Stays(run, i, t', b, n, k) && k < key
      ensures k in trail + [curKey] || Ahead(run, t', b, next, nextG, k)
    {
      StaysWithin(run, i, i, t, t', b, n, k);
      StaysWithin(run, i, t, t', t', b, n, k);
    }
  }

  /** The walk has reached a node at or beyond the key, or the end. */
  lemma NoneLeft(run: seq<World>, i: nat, t: nat, t': nat, b: nat, key: int, cur: Option<Ref>, g: nat, trail: seq<int>)
    requires NoneSkipped(run, i, t, b, key, cur, g, trail) && i <= t <= t' < |run|
    requires cur.Some? ==>
               && cur.value < |run[t].tb.mem| && b < |run[t].count|
               && run[t].tb.mem[cur.value].key >= key && Stamp(run[t], b, cur.value) == g
    ensures Complete(run, i, t', b, key, trail)
  {
    forall n: Ref, k: int | Stays(run, i, t', b, n, k) && k < key ensures k in trail {
      StaysWithin(run, i, i, t, t', b, n, k);
    }
  }

  // ----- CHECK_CCRT

  function KeyOf(th: Thread): int {
    match th
    case Resting => 0
    case Probing(_, key) => key
    case Spinning(_, _, key) => key
    case Trying(_, _, key, _) => key
    case Entered(_, _, key) => key
    case Inside(_, op) => if op.Idle? || op.Reclaiming? then 0 else op.key
    case Freeing(_, _) => 0
  }

  /** No insert or delete of the run was ever called with a negative key. */
  ghost predicate NonNegativeCalls(run: seq<World>) {
    forall i: nat, t: nat :: i < |run| && t < |run[i].threads| ==> KeyOf(run[i].threads[t]) >= 0
  }

  ghost predicate NonNegativeKeys(w: World) {
    forall n: Ref :: n < |w.tb.mem| ==> w.tb.mem[n].key >= 0
  }

  lemma StepNonNegative(w: World, t: nat, c: Choice, w': World)
    requires WriterStep(w, t, c, w') && NonNegativeKeys(w) && KeyOf(w.threads[t]) >= 0
    ensures NonNegativeKeys(w')
  {
  }

  lemma {:induction false} RunNonNegative(run: seq<World>, i: nat)
    requires Legal(run) && NonNegativeCalls(run) && i < |run|
    ensures NonNegativeKeys(run[i])
  {
    if i > 0 {
      RunNonNegative(run, i - 1);
      assert StepAt(run, i - 1);
      var t: nat, c: Choice :| WriterStep(run[i - 1], t, c, run[i]);
      StepNonNegative(run[i - 1], t, c, run[i]);
    }
  }

  lemma MetNonNegative(run: seq<World>, i: nat, t: nat, b: nat, key: int)
    requires Legal(run) && NonNegativeCalls(run) && Met(run, i, t, b, key)
    ensures key >= 0
  {
    var m: nat, n: Ref :| i <= m <= t && m < |run| && Owned(run[m].tb, b, n) && run[m].tb.mem[n].key == key;
    RunNonNegative(run, m);
  }
}
