/** What a lock-free reader may conclude from an unchanged generation.

    A reader never stores, so its execution is a choice of instants, in
    increasing order, at which its loads happen in a run of the writers.  The
    answer of a search is linearizable when it held at one instant between the
    call and the return. */
module Readers {
  import opened Buckets
  import opened ListWriter
  import opened Worlds

  /** How an attempt of a search ends.  Only SEQLOCK readers can be blocked. */
  datatype Outcome = Retry | Return(found: bool) | Blocked

  /** Any number of writer steps may happen before the next load. */
  method Later(run: seq<World>, t: nat) returns (t': nat)
    requires t < |run|
    ensures t <= t' < |run|
  {
    t' :| t <= t' < |run|;
  }

  /** The generation a reader checks for node `n` of bucket `b`. */
  function Stamp(w: World, b: nat, n: Ref): nat
    requires n < |w.tb.mem| && b < |w.count|
  {
    match w.scheme
    case Gecos => w.tb.mem[n].gc
    case Sgecos => w.count[b]
    case SeqLock => w.count[b]
    case GcLock => w.count[b] / 2
  }

  /** One step: the generation does not decrease, and while it is unchanged an
      owned node stays owned by its bucket and keeps its key.  (SeqLock is apart:
      it frees a node while its word is odd, and its readers rely on more.) */
  lemma StepKeeps(w: World, w': World, b: nat, n: Ref)
    requires Inv(w) && Step(w, w') && b < |w.count| && n < |w.tb.mem|
    ensures Inv(w') && |w'.count| == |w.count| && |w'.tb.mem| == |w.tb.mem| && w'.scheme == w.scheme
    ensures Stamp(w, b, n) <= Stamp(w', b, n)
    ensures w.scheme != SeqLock && Owned(w.tb, b, n) && Stamp(w, b, n) == Stamp(w', b, n)
            ==> Owned(w'.tb, b, n) && w'.tb.mem[n].key == w.tb.mem[n].key
  {
    var t: nat, c: Choice :| WriterStep(w, t, c, w');
    StepInv(w, t, c, w');
    assert ThreadOk(w, t);
    if w.threads[t].Inside? {
      assert HolderOk(w, w.threads[t].b);
      InsideKeeps(w, t, c, w', b, n);
    }
  }

  lemma InsideKeeps(w: World, t: nat, c: Choice, w': World, b: nat, n: Ref)
    requires Inv(w) && WriterStep(w, t, c, w') && b < |w.count| && n < |w.tb.mem| && w.threads[t].Inside?
    ensures |w'.count| == |w.count| && |w'.tb.mem| == |w.tb.mem| && w'.scheme == w.scheme
    ensures Stamp(w, b, n) <= Stamp(w', b, n)
    ensures w.scheme != SeqLock && Owned(w.tb, b, n) && Stamp(w, b, n) == Stamp(w', b, n)
            ==> Owned(w'.tb, b, n) && w'.tb.mem[n].key == w.tb.mem[n].key
  {
    assert ThreadOk(w, t) && HolderOk(w, w.threads[t].b);
    if w.threads[t].op.Reclaiming? {
      ReclaimKeeps(w, t, c, w', b, n);
    } else {
      OpKeeps(w, t, c, w', b, n);
    }
  }

  lemma OpKeeps(w: World, t: nat, c: Choice, w': World, b: nat, n: Ref)
    requires Inv(w) && WriterStep(w, t, c, w') && b < |w.count| && n < |w.tb.mem|
    requires w.threads[t].Inside? && !w.threads[t].op.Reclaiming?
    ensures |w'.count| == |w.count| && |w'.tb.mem| == |w.tb.mem| && w'.scheme == w.scheme
    ensures Stamp(w, b, n) <= Stamp(w', b, n)
    ensures Owned(w.tb, b, n) ==> Owned(w'.tb, b, n) && w'.tb.mem[n].key == w.tb.mem[n].key
  {
    OpStamps(w, t, c, w', b, n);
    if w.threads[t].b != b {
      InsideInv(w, t, c, w');
      if Owned(w.tb, b, n) {
        ConfinedOwned(w.tb, w'.tb, w.threads[t].b, t, b, n);
      }
    } else {
      assert ThreadOk(w, t);
      OwnOpKeeps(w, t, c, w', n);
    }
  }

  lemma OpStamps(w: World, t: nat, c: Choice, w': World, b: nat, n: Ref)
    requires Inv(w) && WriterStep(w, t, c, w') && b < |w.count| && n < |w.tb.mem|
    requires w.threads[t].Inside? && !w.threads[t].op.Reclaiming?
    ensures |w'.count| == |w.count| && |w'.tb.mem| == |w.tb.mem| && w'.scheme == w.scheme
    ensures Stamp(w, b, n) <= Stamp(w', b, n)
  {
    assert ThreadOk(w, t) && HolderOk(w, w.threads[t].b);
  }

  lemma ConfinedOwned(tb: Table, tb': Table, b: nat, t: nat, b': nat, n: Ref)
    requires Confined(tb, tb', b, t) && b' != b && Owned(tb, b', n)
    ensures Owned(tb', b', n) && tb'.mem[n].key == tb.mem[n].key
  {
  }

  lemma OwnOpKeeps(w: World, t: nat, c: Choice, w': World, n: Ref)
    requires WriterStep(w, t, c, w') && w.threads[t].Inside? && !w.threads[t].op.Reclaiming? && n < |w.tb.mem|
    requires OpOk(w.tb, w.threads[t].b, t, w.threads[t].op)
    ensures |w'.tb.mem| == |w.tb.mem|
    ensures Owned(w.tb, w.threads[t].b, n) ==> Owned(w'.tb, w.threads[t].b, n) && w'.tb.mem[n].key == w.tb.mem[n].key
  {
  }

  lemma ReclaimKeeps(w: World, t: nat, c: Choice, w': World, b: nat, n: Ref)
    requires Inv(w) && WriterStep(w, t, c, w') && b < |w.count| && n < |w.tb.mem|
    requires w.threads[t].Inside? && w.threads[t].op.Reclaiming?
    ensures |w'.count| == |w.count| && |w'.tb.mem| == |w.tb.mem| && w'.scheme == w.scheme
    ensures Stamp(w, b, n) <= Stamp(w', b, n)
    ensures w.scheme != SeqLock && Owned(w.tb, b, n) && Stamp(w, b, n) == Stamp(w', b, n)
            ==> Owned(w'.tb, b, n) && w'.tb.mem[n].key == w.tb.mem[n].key
  {
  }

  lemma {:induction false} RunKeeps(run: seq<World>, i: nat, j: nat, b: nat, n: Ref)
    requires Legal(run) && run[0].scheme != SeqLock && i <= j < |run| && b < |run[0].tb.heads| && n < |run[0].tb.mem|
    ensures |run[i].count| == |run[j].count| == |run[0].tb.heads| && |run[i].tb.mem| == |run[j].tb.mem| == |run[0].tb.mem|
    ensures Stamp(run[i], b, n) <= Stamp(run[j], b, n)
    ensures Owned(run[i].tb, b, n) && Stamp(run[i], b, n) == Stamp(run[j], b, n)
            ==> Owned(run[j].tb, b, n) && run[j].tb.mem[n].key == run[i].tb.mem[n].key
  {
    if i == j {
      RunInv(run, i);
    } else {
      RunKeeps(run, i, j - 1, b, n);
      RunInv(run, j - 1);
      assert StepAt(run, j - 1);
      StepKeeps(run[j - 1], run[j], b, n);
    }
  }

  /** The bounds every load relies on. */
  lemma LoadsInRange(run: seq<World>, i: nat, b: nat, n: Ref)
    requires Legal(run) && i < |run| && b < |run[0].tb.heads|
    ensures |run[i].tb.mem| == |run[0].tb.mem| && |run[i].tb.heads| == |run[0].tb.heads| == |run[i].count|
    ensures run[i].scheme == run[0].scheme
    ensures run[i].tb.heads[b].Some? ==> run[i].tb.heads[b].value < |run[0].tb.mem|
    ensures n < |run[0].tb.mem| && run[i].tb.mem[n].next.Some? ==> run[i].tb.mem[n].next.value < |run[0].tb.mem|
  {
    RunInv(run, i);
    assert BucketOk(run[i].tb, b);
  }

  /** At some instant from `t0` to `t` the bucket's membership of `key` was `ans`. */
  ghost predicate Saw(run: seq<World>, t0: nat, t: nat, b: nat, key: int, ans: bool) {
    exists i: nat :: t0 <= i <= t && i < |run| && (Has(run[i].tb, b, key) <==> ans)
  }

  /** Node key `k`, met by a search for `key`, carries the answer it implies. */
  ghost predicate Witnessed(run: seq<World>, t0: nat, t: nat, b: nat, key: int, k: int) {
    && (k == key ==> Saw(run, t0, t, b, key, true))
    && (k > key ==> Saw(run, t0, t, b, key, false))
  }

  /** A reader that holds node `n` with generation `g` at instant `t`: if the
      generation is still `g`, the node is still the bucket's and its key is
      already backed by an instant of the call. */
  ghost predicate Good(run: seq<World>, t0: nat, t: nat, b: nat, key: int, n: Ref, g: nat) {
    && t < |run| && n < |run[t].tb.mem| && b < |run[t].count|
    && g <= Stamp(run[t], b, n)
    && (g == Stamp(run[t], b, n) ==> Owned(run[t].tb, b, n) && Witnessed(run, t0, t, b, key, run[t].tb.mem[n].key))
  }

  lemma GoodLater(run: seq<World>, t0: nat, t: nat, t': nat, b: nat, key: int, n: Ref, g: nat)
    requires Legal(run) && run[0].scheme != SeqLock && t0 <= t <= t' < |run| && b < |run[0].tb.heads|
    requires Good(run, t0, t, b, key, n, g)
    ensures Good(run, t0, t', b, key, n, g)
    ensures Stamp(run[t], b, n) <= Stamp(run[t'], b, n)
    ensures g == Stamp(run[t'], b, n) ==> g == Stamp(run[t], b, n) && run[t].tb.mem[n].key == run[t'].tb.mem[n].key
  {
    RunInv(run, t);
    RunKeeps(run, t, t', b, n);
  }

  /** An owned node leads to the list: its next pointer decides every larger key. */
  lemma OwnedDecides(w: World, b: nat, n: Ref, key: int)
    requires Inv(w) && b < |w.tb.heads| && Owned(w.tb, b, n) && w.tb.mem[n].key < key
    ensures Verdict(w.tb, b, key, w.tb.mem[n].next) && First(w.tb, b, Some(w.tb.mem[n].key), w.tb.mem[n].next)
    ensures w.tb.mem[n].next.Some? ==> w.tb.mem[n].key < w.tb.mem[w.tb.mem[n].next.value].key
  {
    assert BucketOk(w.tb, b);
    assert Accounted(w, n) && HolderOk(w, b) && (w.holder[b].Some? ==> ThreadOk(w, w.holder[b].value));
    assert Anchored(w.tb, b, n);
    FirstDecides(w.tb, b, Some(w.tb.mem[n].key), w.tb.mem[n].next, key);
  }

  lemma HeadDecides(w: World, b: nat, key: int)
    requires Inv(w) && b < |w.tb.heads|
    ensures Verdict(w.tb, b, key, w.tb.heads[b])
  {
  }

  /** A pointer that decides `key` at instant `t` makes its target good with any
      generation read from it no later than `t`. */
  lemma VerdictIsGood(run: seq<World>, t0: nat, tg: nat, t: nat, b: nat, key: int, p: Option<Ref>, g: nat)
    requires Legal(run) && run[0].scheme != SeqLock && t0 <= tg <= t < |run| && b < |run[0].tb.heads|
    requires Verdict(run[t].tb, b, key, p)
    requires p.Some? ==> p.value < |run[tg].tb.mem| && b < |run[tg].count| && g == Stamp(run[tg], b, p.value)
    ensures p.None? ==> Saw(run, t0, t, b, key, false)
    ensures p.Some? ==> Good(run, t0, t, b, key, p.value, g)
  {
    RunInv(run, tg);
    RunInv(run, t);
    if p.Some? {
      RunKeeps(run, tg, t, b, p.value);
    }
  }

  lemma SawContains(run: seq<World>, t0: nat, t: nat, b: nat, key: int, ans: bool)
    requires Legal(run) && b < |run[0].tb.heads| && t < |run| && Saw(run, t0, t, b, key, ans)
    ensures Answered(run, t0, t, b, key, ans)
  {
    var i: nat :| t0 <= i <= t && i < |run| && (Has(run[i].tb, b, key) <==> ans);
    RunInv(run, i);
    ContainsIsHas(run[i].tb, b, key);
  }

  /** Linearizability of an answer: at some instant of the call, walking from
      the bucket's head met the key exactly if the answer is true. */
  ghost predicate Answered(run: seq<World>, t0: nat, t: nat, b: nat, key: int, ans: bool) {
    exists i: nat :: t0 <= i <= t && i < |run| && b < |run[i].tb.heads| && (Contains(run[i].tb, b, key) <==> ans)
  }

  // ----- counting the stores that can make an attempt fail

  /** No store to a head, a next field or a node generation separates the two. */
  ghost predicate Quiet(w: World, w': World) {
    && w.tb.heads == w'.tb.heads
    && |w.tb.mem| == |w'.tb.mem|
    && forall n: Ref :: n < |w.tb.mem| ==> w.tb.mem[n].next == w'.tb.mem[n].next && w.tb.mem[n].gc == w'.tb.mem[n].gc
  }

  ghost function Disturbances(run: seq<World>, i: nat, j: nat): nat
    requires j < |run|
    decreases j
  {
    if j <= i then 0
    else Disturbances(run, i, j - 1) + if Quiet(run[j - 1], run[j]) then 0 else 1
  }

  lemma {:induction false} DisturbancesAdd(run: seq<World>, i: nat, m: nat, j: nat)
    requires i <= m <= j < |run|
    ensures Disturbances(run, i, j) == Disturbances(run, i, m) + Disturbances(run, m, j)
    decreases j
  {
    if m < j {
      DisturbancesAdd(run, i, m, j - 1);
    }
  }

  lemma {:induction false} UndisturbedIsQuiet(run: seq<World>, i: nat, j: nat)
    requires i <= j < |run| && Disturbances(run, i, j) == 0
    ensures Quiet(run[i], run[j])
    decreases j
  {
    if i < j {
      UndisturbedIsQuiet(run, i, j - 1);
    }
  }

  /** A failed attempt from `i` to `j` saw a link or a generation change. */
  lemma FailureIsDisturbed(run: seq<World>, call: nat, begun: nat, i: nat, j: nat)
    requires call <= begun <= i <= j < |run| && !Quiet(run[i], run[j])
    ensures Disturbances(run, call, begun) + 1 <= Disturbances(run, call, j)
    ensures begun < j
  {
    if Disturbances(run, i, j) == 0 {
      UndisturbedIsQuiet(run, i, j);
    }
    DisturbancesAdd(run, call, begun, j);
    DisturbancesAdd(run, begun, i, j);
  }
}
