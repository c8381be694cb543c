/** `insert` and `delete` of list_writer.c and list_sgecos.c as the C loops they
    are, executed on the shared world while the writers of other buckets take
    any number of steps between any two of their own. */
module Writers {
  import opened Buckets
  import opened ListWriter
  import opened Worlds

  /** The list operation that thread `t` is about to step in bucket `b`. */
  function Stepping(w: World, t: nat, b: nat): Op {
    if t < |w.threads| && w.threads[t].Inside? && w.threads[t].b == b then w.threads[t].op else Idle(false)
  }

  /** The set of bucket `b` changes only at its writer's two stores to `*prev`:
      one removes exactly the key it looked for, which was present, the other
      adds exactly the key it looked for, which was absent.  This holds in every
      scheme and for every step of every thread. */
  lemma StepChangesSet(w: World, t: nat, c: Choice, w': World, b: nat)
    requires Inv(w) && WriterStep(w, t, c, w') && b < |w.tb.heads|
    ensures var op := Stepping(w, t, b);
            if op.Unlinking? then Removes(w.tb, w'.tb, b, op.key)
            else if op.Publishing? then Adds(w.tb, w'.tb, b, op.key)
            else SameKeys(w.tb, w'.tb, b)
  {
    assert ThreadOk(w, t);
    if !w.threads[t].Inside? {
      if w.threads[t].Freeing? {
        FreeInv(w, t, c, w');
        SameBucketKeeps(w.tb, w'.tb, b);
      } else {
        OutsideInv(w, t, c, w');
      }
    } else if w.threads[t].b != b {
      InsideInv(w, t, c, w');
      ConfinedOthers(w.tb, w'.tb, w.threads[t].b, t, b);
      SameBucketKeeps(w.tb, w'.tb, b);
    } else {
      var op := w.threads[t].op;
      if op.Unlinking? {
        UnlinkEffect(w.tb, b, op.prev, op.node, op.key);
      } else if op.Publishing? {
        PublishEffect(w.tb, b, op.prev, op.cur, op.node, op.key);
      } else {
        OffListKeys(w, t, c, w', b);
      }
    }
  }

  lemma OffListKeys(w: World, t: nat, c: Choice, w': World, b: nat)
    requires Inv(w) && WriterStep(w, t, c, w') && w.threads[t].Inside? && w.threads[t].b == b
    requires !w.threads[t].op.Unlinking? && !w.threads[t].op.Publishing?
    ensures SameKeys(w.tb, w'.tb, b)
  {
    assert ThreadOk(w, t);
    assert SameBucket(w.tb, w'.tb, b);
    SameBucketKeeps(w.tb, w'.tb, b);
  }

  /** After every single store of every run, in every scheme, each bucket's list is
      strictly sorted and acyclic, and meets exactly the linked nodes' keys. */
  lemma AlwaysSorted(run: seq<World>, i: nat, b: nat)
    requires Legal(run) && i < |run| && b < |run[0].tb.heads|
    ensures b < |run[i].tb.heads|
    ensures forall n: Ref, m: Ref, x: nat, y: nat ::
              x < y && Reaches(run[i].tb.mem, run[i].tb.heads[b], n, x)
                  && Reaches(run[i].tb.mem, run[i].tb.heads[b], m, y)
              ==> n != m && run[i].tb.mem[n].key < run[i].tb.mem[m].key
    ensures forall key: int :: Contains(run[i].tb, b, key) <==> Has(run[i].tb, b, key)
  {
    RunInv(run, i);
    var tb := run[i].tb;
    forall n: Ref, m: Ref, x: nat, y: nat | x < y && Reaches(tb.mem, tb.heads[b], n, x)
        && Reaches(tb.mem, tb.heads[b], m, y)
      ensures n != m && tb.mem[n].key < tb.mem[m].key
    {
      WalkSorted(tb, b, n, x, m, y);
    }
    forall key: int ensures Contains(tb, b, key) <==> Has(tb, b, key) {
      ContainsIsHas(tb, b, key);
    }
  }

  function Last(run: seq<World>): World
    requires |run| > 0
  {
    run[|run| - 1]
  }

  /** The set of bucket `b` is the same from instant `i` on. */
  ghost predicate SteadyFrom(run: seq<World>, i: nat, b: nat) {
    forall m: nat :: i <= m < |run| ==> SameKeys(run[i].tb, run[m].tb, b)
  }

  /** The run went on for any number of steps and bucket `b` kept its set. */
  ghost predicate Continues(past: seq<World>, run: seq<World>, b: nat) {
    && 0 < |past| <= |run| && past == run[..|past|]
    && Legal(run) && Inv(Last(run)) && Last(run).scheme == Last(past).scheme
    && b < |Last(run).holder| == |Last(past).holder| && |Last(run).threads| == |Last(past).threads|
    && SteadyFrom(run, |past| - 1, b)
  }

  /** `at` is the only instant from `i` on after which the set of bucket `b` changed. */
  ghost predicate ChangesOnce(run: seq<World>, i: nat, at: nat, b: nat) {
    && i <= at && at + 1 < |run|
    && (forall m: nat :: i <= m <= at ==> SameKeys(run[i].tb, run[m].tb, b))
    && SteadyFrom(run, at + 1, b)
  }

  lemma Continue(past: seq<World>, mid: seq<World>, run: seq<World>, b: nat)
    requires Continues(past, mid, b) && Continues(mid, run, b)
    ensures Continues(past, run, b)
  {
  }

  /** One step of thread `u`. */
  lemma Append(past: seq<World>, u: nat, c: Choice, b: nat)
    requires Legal(past) && Enabled(Last(past), u, c) && b < |Last(past).holder|
    ensures var w, w' := Last(past), Next(Last(past), u, c);
            var op := Stepping(w, u, b);
            && Inv(w) && Inv(w') && Legal(past + [w'])
            && (if op.Unlinking? then Removes(w.tb, w'.tb, b, op.key)
                else if op.Publishing? then Adds(w.tb, w'.tb, b, op.key)
                else Continues(past, past + [w'], b))
  {
    var w, w' := Last(past), Next(Last(past), u, c);
    var run := past + [w'];
    RunInv(past, |past| - 1);
    assert WriterStep(w, u, c, w');
    StepInv(w, u, c, w');
    StepChangesSet(w, u, c, w', b);
    forall i: nat ensures StepAt(run, i) {
      assert StepAt(past, i);
    }
  }

  /** Thread `t` is the only writer of bucket `b` (ONE_WRITER). */
  predicate Exclusive(w: World, t: nat, b: nat) {
    b < |w.holder| && t < |w.threads| && !Locked(w.scheme) && (w.holder[b] == None || w.holder[b] == Some(t))
  }

  /** The thread may start an operation on bucket `b`. */
  predicate Ready(w: World, t: nat, b: nat) {
    Exclusive(w, t, b) && w.threads[t] == Resting && w.holder[b] == None
  }

  /** Other threads run for a while, in other buckets. */
  method Others(past: seq<World>, t: nat, b: nat) returns (run: seq<World>)
    requires Legal(past) && Exclusive(Last(past), t, b)
    ensures Continues(past, run, b) && Last(run).threads[t] == Last(past).threads[t]
    ensures Exclusive(Last(run), t, b) && Last(run).holder[b] == Last(past).holder[b]
    ensures SameBucket(Last(past).tb, Last(run).tb, b)
  {
    run := past;
    RunInv(run, |run| - 1);
    var fuel: nat := *;
    while fuel > 0
      invariant Continues(past, run, b) && Last(run).threads[t] == Last(past).threads[t]
      invariant Last(run).holder[b] == Last(past).holder[b]
      invariant SameBucket(Last(past).tb, Last(run).tb, b)
    {
      var u: nat, c: Choice := *, *;
      if u != t && Enabled(Last(run), u, c) && !(Last(run).threads[u].Resting? && c.b == b) {
        OthersKeep(Last(run), t, u, c, b);
        Append(run, u, c, b);
        Continue(past, run, run + [Next(Last(run), u, c)], b);
        run := run + [Next(Last(run), u, c)];
      }
      fuel := fuel - 1;
    }
  }

  lemma OthersKeep(w: World, t: nat, u: nat, c: Choice, b: nat)
    requires Inv(w) && Exclusive(w, t, b) && u != t && Enabled(w, u, c) && !(w.threads[u].Resting? && c.b == b)
    ensures var w' := Next(w, u, c);
            && |w'.holder| == |w.holder| && |w'.threads| == |w.threads|
            && SameBucket(w.tb, w'.tb, b) && w'.threads[t] == w.threads[t] && w'.holder[b] == w.holder[b]
            && Stepping(w, u, b).Idle?
  {
    var w' := Next(w, u, c);
    assert ThreadOk(w, u) && HolderOk(w, b);
    assert WriterStep(w, u, c, w');
    if w.threads[u].Inside? {
      InsideInv(w, u, c, w');
      ConfinedOthers(w.tb, w'.tb, w.threads[u].b, u, b);
    } else if w.threads[u].Freeing? {
      FreeInv(w, u, c, w');
    } else {
      OutsideInv(w, u, c, w');
    }
  }

  /** A step of thread `t` that is not its list store. */
  method Local(past: seq<World>, t: nat, b: nat, c: Choice) returns (run: seq<World>)
    requires Legal(past) && Enabled(Last(past), t, c) && b < |Last(past).holder|
    requires !Stepping(Last(past), t, b).Unlinking? && !Stepping(Last(past), t, b).Publishing?
    ensures Continues(past, run, b) && Last(run) == Next(Last(past), t, c)
  {
    Append(past, t, c, b);
    run := past + [Next(Last(past), t, c)];
  }

  /** The thread is at the top of its loop; `low` is the key of the node that
      `prev` belongs to. */
  ghost predicate Seeking(w: World, t: nat, b: nat, del: bool, key: int, prev: Loc, cur: Option<Ref>, low: int) {
    && Exclusive(w, t, b) && w.threads[t] == Inside(b, Walking(del, key, prev, cur))
    && (prev.NextOf? ==> low < key && LinkedIn(w.tb, b, prev.node) && w.tb.mem[prev.node].key == low)
  }

  /** Where the traversal leaves the thread. */
  predicate Landed(w: World, t: nat, b: nat, del: bool, key: int, found: bool) {
    && Exclusive(w, t, b) && w.threads[t].Inside? && w.threads[t].b == b
    && var op := w.threads[t].op;
       if del == found then (if del then op.Unlinking? else op.Allocating?) && op.key == key else op == Idle(false)
  }

  /** One iteration of the traversal, after the others ran. */
  method Walk(past: seq<World>, t: nat, b: nat, del: bool, key: int, prev: Loc, cur: Option<Ref>, ghost low: int)
    returns (run: seq<World>, node: Option<Node>)
    requires Legal(past) && Seeking(Last(past), t, b, del, key, prev, cur, low)
    ensures Continues(past, run, b)
    ensures node.Some? ==>
              && cur.Some?
              && Seeking(Last(run), t, b, del, key, NextOf(cur.value), node.value.next, node.value.key)
              && (prev.NextOf? ==> low < node.value.key)
    ensures node.None? ==> Landed(Last(run), t, b, del, key, Has(Last(run).tb, b, key))
  {
    var mid := Others(past, t, b);
    RunInv(mid, |mid| - 1);
    assert ThreadOk(Last(mid), t);
    AtDecides(Last(mid).tb, b, prev, cur, key);
    run := Local(mid, t, b, Choice(b, false, 0, 0));
    Continue(past, mid, run, b);
    node := if cur.Some? && Last(run).tb.mem[cur.value].key < key then Some(Last(run).tb.mem[cur.value]) else None;
  }

  /** `lock_wlock`, then the traversal loop of `insert` and `delete`, to the
      store, the allocation or the return it ends with. */
  method Find(past: seq<World>, t: nat, b: nat, del: bool, key: int) returns (run: seq<World>, found: bool)
    requires Legal(past) && Ready(Last(past), t, b)
    ensures Continues(past, run, b)
    ensures found <==> Has(Last(past).tb, b, key)
    ensures Landed(Last(run), t, b, del, key, found)
  {
    run := Others(past, t, b);
    var prev: Loc, cur: Option<Ref> := Head, Last(run).tb.heads[b];
    ghost var low := key;
    var next := Local(run, t, b, Choice(b, del, key, 0));
    Continue(past, run, next, b);
    run := next;
    while true
      invariant Continues(past, run, b) && Seeking(Last(run), t, b, del, key, prev, cur, low)
      decreases prev.Head?, if prev.Head? then 0 else key - low
    {
      var node;
      next, node := Walk(run, t, b, del, key, prev, cur, low);
      Continue(past, run, next, b);
      run := next;
      if node.None? {
        found := if del then Last(run).threads[t].op.Unlinking? else Last(run).threads[t].op.Idle?;
        assert SameKeys(run[|past| - 1].tb, Last(run).tb, b);
        return run, found;
      }
      prev, cur, low := NextOf(cur.value), node.value.next, node.value.key;
    }
  }

  /** What the stores outside the list lead to. */
  function AfterQuiet(b: nat, op: Op): Thread {
    match op
    case Keying(n, key, prev, cur) => Inside(b, Linking(n, key, prev, cur))
    case Linking(n, key, prev, cur) => Inside(b, Publishing(n, key, prev, cur))
    case Reclaiming(n, stage) => Inside(b, if stage == 0 then Reclaiming(n, 1) else Idle(true))
    case _ => Resting
  }

  /** `new->key = key`, `new->next = cur`, the generation bump, `free_node` or
      `lock_wunlock`, after the others ran. */
  method Quiet(past: seq<World>, t: nat, b: nat) returns (run: seq<World>)
    requires Legal(past) && Exclusive(Last(past), t, b) && Last(past).threads[t].Inside? && Last(past).threads[t].b == b
    requires var op := Last(past).threads[t].op; op.Keying? || op.Linking? || op.Reclaiming? || op.Idle?
    ensures Continues(past, run, b) && Exclusive(Last(run), t, b)
    ensures Last(run).threads[t] == AfterQuiet(b, Last(past).threads[t].op)
  {
    var mid := Others(past, t, b);
    assert ThreadOk(Last(mid), t);
    run := Local(mid, t, b, Choice(b, false, 0, 0));
    Continue(past, mid, run, b);
  }

  /** The store to `*prev`, after the others ran. */
  method ListStore(past: seq<World>, t: nat, b: nat) returns (mid: seq<World>, run: seq<World>)
    requires Legal(past) && Exclusive(Last(past), t, b) && Last(past).threads[t].Inside? && Last(past).threads[t].b == b
    requires Last(past).threads[t].op.Unlinking? || Last(past).threads[t].op.Publishing?
    ensures Continues(past, mid, b) && |run| == |mid| + 1 && mid == run[..|mid|]
    ensures Legal(run) && Exclusive(Last(run), t, b)
    ensures var op := Last(past).threads[t].op;
            if op.Unlinking?
            then Removes(Last(mid).tb, Last(run).tb, b, op.key) && Last(run).threads[t] == Inside(b, Reclaiming(op.node, 0))
            else Adds(Last(mid).tb, Last(run).tb, b, op.key) && Last(run).threads[t] == Inside(b, Idle(true))
  {
    mid := Others(past, t, b);
    assert ThreadOk(Last(mid), t);
    Append(mid, t, Choice(b, false, 0, 0), b);
    run := mid + [Next(Last(mid), t, Choice(b, false, 0, 0))];
  }

  /** Quiet, one store, quiet again. */
  lemma Switch(past: seq<World>, mid: seq<World>, stored: seq<World>, run: seq<World>, b: nat)
    requires Continues(past, mid, b) && |stored| == |mid| + 1 && mid == stored[..|mid|] && Continues(stored, run, b)
    ensures past == run[..|past|] && ChangesOnce(run, |past| - 1, |mid| - 1, b)
    ensures run[|mid| - 1] == Last(mid) && run[|mid|] == Last(stored)
  {
  }

  /** `*prev = cur->next; free_node_later(cur); lock_wunlock(lock)` */
  method UnlinkAndFree(past: seq<World>, t: nat, b: nat) returns (run: seq<World>, at: nat)
    requires Legal(past) && Exclusive(Last(past), t, b)
    requires Last(past).threads[t].Inside? && Last(past).threads[t].b == b && Last(past).threads[t].op.Unlinking?
    ensures 0 < |past| <= |run| && past == run[..|past|] && Legal(run)
    ensures t < |Last(run).threads| && Last(run).threads[t] == Resting
    ensures |past| - 1 <= at && ChangesOnce(run, |past| - 1, at, b)
    ensures Removes(run[at].tb, run[at + 1].tb, b, Last(past).threads[t].op.key)
  {
    var mid, unlinked := ListStore(past, t, b);
    at := |mid| - 1;
    var bumped := Quiet(unlinked, t, b);
    var freed := Quiet(bumped, t, b);
    Continue(unlinked, bumped, freed, b);
    run := Quiet(freed, t, b);
    Continue(unlinked, freed, run, b);
    Switch(past, mid, unlinked, run, b);
  }

  /** `delete`.  It returns true exactly when the key was in the set; the set then
      changes once, at its store to `*prev`, and loses exactly that key. */
  method Delete(past: seq<World>, t: nat, b: nat, key: int) returns (run: seq<World>, r: bool, at: nat)
    requires Legal(past) && Ready(Last(past), t, b)
    ensures 0 < |past| <= |run| && past == run[..|past|] && Legal(run)
    ensures t < |Last(run).threads| && Last(run).threads[t] == Resting
    ensures r <==> Has(Last(past).tb, b, key)
    ensures !r ==> SteadyFrom(run, |past| - 1, b)
    ensures r ==> |past| - 1 <= at && ChangesOnce(run, |past| - 1, at, b) && Removes(run[at].tb, run[at + 1].tb, b, key)
  {
    at := 0;
    run := Others(past, t, b);
    assert SameKeys(run[|past| - 1].tb, Last(run).tb, b);
    if Last(run).tb.heads[b] == None {
      assert BucketOk(Last(run).tb, b);
      return run, false, at;
    }
    var mid;
    mid, r := Find(run, t, b, true, key);
    Continue(past, run, mid, b);
    if r {
      run, at := UnlinkAndFree(mid, t, b);
      Prefixed(past, mid, run, at, b);
    } else {
      run := Quiet(mid, t, b);
      Continue(past, mid, run, b);
    }
  }

  /** `new = new_node()` */
  method Take(past: seq<World>, t: nat, b: nat, node: Ref) returns (run: seq<World>)
    requires Legal(past) && Exclusive(Last(past), t, b)
    requires Last(past).threads[t].Inside? && Last(past).threads[t].b == b && Last(past).threads[t].op.Allocating?
    requires node < |Last(past).tb.mem| && node < |Last(past).tb.status| && Last(past).tb.status[node] == Free
    ensures Continues(past, run, b) && Exclusive(Last(run), t, b)
    ensures var op := Last(past).threads[t].op;
            Last(run).threads[t] == Inside(b, Keying(node, op.key, op.prev, op.cur))
  {
    RunInv(past, |past| - 1);
    assert ThreadOk(Last(past), t);
    run := Local(past, t, b, Choice(b, false, 0, node));
  }

  /** `new->key = key; new->next = cur; *prev = new; lock_wunlock(lock)` on a
      node from `new_node`. */
  method Fill(past: seq<World>, t: nat, b: nat, node: Ref) returns (run: seq<World>, at: nat)
    requires Legal(past) && Exclusive(Last(past), t, b)
    requires Last(past).threads[t].Inside? && Last(past).threads[t].b == b && Last(past).threads[t].op.Allocating?
    requires node < |Last(past).tb.mem| && node < |Last(past).tb.status| && Last(past).tb.status[node] == Free
    ensures 0 < |past| <= |run| && past == run[..|past|] && Legal(run)
    ensures t < |Last(run).threads| && Last(run).threads[t] == Resting
    ensures |past| - 1 <= at && ChangesOnce(run, |past| - 1, at, b)
    ensures Adds(run[at].tb, run[at + 1].tb, b, Last(past).threads[t].op.key)
  {
    var taken := Take(past, t, b, node);
    var keyed := Quiet(taken, t, b);
    Continue(past, taken, keyed, b);
    var linked := Quiet(keyed, t, b);
    Continue(past, keyed, linked, b);
    var mid, published := ListStore(linked, t, b);
    Continue(past, linked, mid, b);
    at := |mid| - 1;
    run := Quiet(published, t, b);
    Switch(past, mid, published, run, b);
  }

  /** `insert`.  It returns true exactly when the key was not in the set; the set
      then changes once, at its store to `*prev`, and gains exactly that key.
      The node is any node that is free when the allocator is asked; `served` is
      false when the pool, whose size is arbitrary, has none left. */
  method Insert(past: seq<World>, t: nat, b: nat, key: int) returns (run: seq<World>, r: bool, at: nat, served: bool)
    requires Legal(past) && Ready(Last(past), t, b)
    ensures 0 < |past| <= |run| && past == run[..|past|] && Legal(run) && t < |Last(run).threads|
    ensures r <==> !Has(Last(past).tb, b, key) && served
    ensures !r ==> SteadyFrom(run, |past| - 1, b)
    ensures r ==> |past| - 1 <= at && ChangesOnce(run, |past| - 1, at, b) && Adds(run[at].tb, run[at + 1].tb, b, key)
    ensures served ==> Last(run).threads[t] == Resting
    ensures !served ==> forall n: Ref :: n < |Last(run).tb.status| ==> Last(run).tb.status[n] != Free
  {
    at, served := 0, true;
    var mid, found;
    mid, found := Find(past, t, b, false, key);
    if found {
      run := Quiet(mid, t, b);
      Continue(past, mid, run, b);
      return run, false, at, served;
    }
    run := Others(mid, t, b);
    Continue(past, mid, run, b);
    if node: nat :| node < |Last(run).tb.status| && Last(run).tb.status[node] == Free {
      mid := run;
      run, at := Fill(mid, t, b, node);
      Prefixed(past, mid, run, at, b);
      r := true;
    } else {
      r, served := false, false;
    }
  }

  lemma Prefixed(past: seq<World>, mid: seq<World>, run: seq<World>, at: nat, b: nat)
    requires Continues(past, mid, b) && |mid| <= |run| && mid == run[..|mid|]
    requires |mid| - 1 <= at && ChangesOnce(run, |mid| - 1, at, b)
    ensures past == run[..|past|] && ChangesOnce(run, |past| - 1, at, b)
  {
  }
}
