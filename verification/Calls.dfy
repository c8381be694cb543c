/** What the return value of `insert` and `delete` tells, in every scheme: a call
    that returns 1 made the one change of the set it was called for, a call that
    returns 0 changed nothing and there was nothing to change.

    The calls of one thread are seen as a sequence of views, one per instant of a
    run: the shared table and how far the thread has come.  The files
    `WorldCalls`, `RefCountCalls` and `HazardCalls` show that the steps of each
    machine are steps of such views. */
module Calls {
  import opened Buckets
  import opened ListWriter

  datatype Phase =
    | Outside                                   // in no insert or delete
    | Waiting(b: nat, del: bool, key: int)      // called, not traversing yet
    | Working(b: nat, op: Op)
    | Leaving(b: nat)                           // past the unlink; will return 1

  datatype View = View(tb: Table, phase: Phase)

  /** The arguments of a call, in its first phase. */
  ghost predicate Called(p: Phase, b: nat, del: bool, key: int) {
    p == Waiting(b, del, key) || (p.Working? && p.b == b && p.op.Walking? && p.op.del == del && p.op.key == key)
  }

  /** The operation moves on.  Its list store removes or adds its key; it returns 0
      only where the table shows that there is nothing to do. */
  ghost predicate OpMoves(tb: Table, tb': Table, b: nat, op: Op, p': Phase) {
    match op
    case Idle(_) => p'.Outside?
    case Walking(del, key, _, _) =>
      p'.Working? && p'.b == b &&
      (match p'.op
       case Walking(del', key', _, _) => del' == del && key' == key
       case Idle(done) => !done && (Has(tb, b, key) <==> !del)
       case Unlinking(key', _, _) => del && key' == key && Has(tb, b, key)
       case Allocating(key', _, _) => !del && key' == key && !Has(tb, b, key)
       case Reclaiming(_, _) => false
       case Keying(_, _, _, _) => false
       case Linking(_, _, _, _) => false
       case Publishing(_, _, _, _) => false)
    case Unlinking(key, _, _) =>
      Removes(tb, tb', b, key) && (p' == Leaving(b) || (p'.Working? && p'.b == b && p'.op.Reclaiming?))
    case Reclaiming(_, _) =>
      p' == Leaving(b) || (p'.Working? && p'.b == b && (p'.op.Reclaiming? || p'.op == Idle(true)))
    case Allocating(key, _, _) => p'.Working? && p'.b == b && p'.op.Keying? && p'.op.key == key
    case Keying(_, key, _, _) => p'.Working? && p'.b == b && (p'.op.Keying? || p'.op.Linking?) && p'.op.key == key
    case Linking(_, key, _, _) => p'.Working? && p'.b == b && p'.op.Publishing? && p'.op.key == key
    case Publishing(_, key, _, _) => Adds(tb, tb', b, key) && (p'.Outside? || p' == Working(b, Idle(true)))
  }

  /** Some thread steps; the phase changes only if it is this one. */
  ghost predicate Advances(v: View, v': View) {
    v'.phase == v.phase ||
    match v.phase
    case Outside => v'.phase.Waiting? || (v'.phase.Working? && v'.phase.op.Walking?)
    case Waiting(b, del, key) =>
      if v'.phase.Outside? then del && !Has(v.tb, b, key)  // *head == NULL
      else Called(v'.phase, b, del, key)
    case Working(b, op) => OpMoves(v.tb, v'.tb, b, op, v'.phase)
    case Leaving(b) => v'.phase.Outside? || v'.phase == Working(b, Idle(true))
  }

  /** The traversal returns 0 only where the table shows why. */
  lemma WalkTells(tb: Table, b: nat, who: nat, op: Op)
    requires WellFormed(tb) && op.Walking? && OpOk(tb, b, who, op)
    ensures OpMoves(tb, tb, b, op, Working(b, WalkNext(tb, op)))
  {
    AtDecides(tb, b, op.prev, op.cur, op.key);
  }

  lemma UnlinkTells(tb: Table, b: nat, who: nat, op: Op)
    requires WellFormed(tb) && op.Unlinking? && OpOk(tb, b, who, op)
    ensures OpMoves(tb, Unlink(tb, b, op.prev, op.node), b, op, Working(b, Reclaiming(op.node, 0)))
  {
    UnlinkEffect(tb, b, op.prev, op.node, op.key);
  }

  lemma PublishTells(tb: Table, b: nat, who: nat, op: Op, p': Phase)
    requires WellFormed(tb) && op.Publishing? && OpOk(tb, b, who, op) && (p'.Outside? || p' == Working(b, Idle(true)))
    ensures OpMoves(tb, Publish(tb, b, op.prev, op.node), b, op, p')
  {
    PublishEffect(tb, b, op.prev, op.cur, op.node, op.key);
  }

  ghost predicate AdvanceAt(vs: seq<View>, i: nat) {
    i + 1 < |vs| ==> Advances(vs[i], vs[i + 1])
  }

  /** The return value of a call whose last phase is `p`. */
  predicate Returns(p: Phase) {
    match p
    case Outside => false
    case Waiting(_, _, _) => false
    case Working(_, op) => if op.Idle? then op.done else op.Publishing?
    case Leaving(_) => true
  }

  /** The thread's own store to `*prev` is the step from instant `k` to `k + 1`. */
  ghost predicate OwnStore(vs: seq<View>, k: nat) {
    k + 1 < |vs| && Stores(vs[k], vs[k + 1])
  }

  predicate Stores(v: View, v': View) {
    v'.phase != v.phase && v.phase.Working? && (v.phase.op.Unlinking? || v.phase.op.Publishing?)
  }

  ghost predicate NoStore(vs: seq<View>, i: nat, j: nat) {
    forall k: nat :: i <= k < j ==> !OwnStore(vs, k)
  }

  /** Exactly one of the thread's own stores falls into i..j, and it does to the set
      what the call is for. */
  ghost predicate OneStore(vs: seq<View>, i: nat, j: nat, b: nat, del: bool, key: int) {
    exists k: nat :: StoreIs(vs, i, j, k, b, del, key)
  }

  ghost predicate StoreIs(vs: seq<View>, i: nat, j: nat, k: nat, b: nat, del: bool, key: int) {
    && i <= k < j && OwnStore(vs, k)
    && (forall m: nat :: i <= m < j && OwnStore(vs, m) ==> m == k)
    && if del then Removes(vs[k].tb, vs[k + 1].tb, b, key) else Adds(vs[k].tb, vs[k + 1].tb, b, key)
  }

  /** At some instant there was nothing to delete, or nothing to insert. */
  ghost predicate NothingToDo(vs: seq<View>, i: nat, j: nat, b: nat, del: bool, key: int) {
    exists k: nat :: i <= k <= j && k < |vs| && (Has(vs[k].tb, b, key) <==> !del)
  }

  /** What holds during a call that began after instant `s`. */
  ghost predicate During(vs: seq<View>, s: nat, j: nat, b: nat, del: bool, key: int) {
    && s < j < |vs|
    && match vs[j].phase
       case Outside => false
       case Waiting(b', del', key') => b' == b && del' == del && key' == key && NoStore(vs, s, j)
       case Leaving(b') => b' == b && OneStore(vs, s, j, b, del, key)
       case Working(b', op) =>
         && b' == b
         && match op
            case Idle(done) =>
              if done then OneStore(vs, s, j, b, del, key) else NoStore(vs, s, j) && NothingToDo(vs, s, j, b, del, key)
            case Walking(del', key', _, _) => del' == del && key' == key && NoStore(vs, s, j)
            case Unlinking(key', _, _) => del && key' == key && NoStore(vs, s, j)
            case Reclaiming(_, _) => OneStore(vs, s, j, b, del, key)
            case Allocating(key', _, _) => !del && key' == key && NoStore(vs, s, j)
            case Keying(_, key', _, _) => !del && key' == key && NoStore(vs, s, j)
            case Linking(_, key', _, _) => !del && key' == key && NoStore(vs, s, j)
            case Publishing(_, key', _, _) => !del && key' == key && NoStore(vs, s, j)
  }

  lemma NoStoreOn(vs: seq<View>, i: nat, j: nat)
    requires NoStore(vs, i, j) && !OwnStore(vs, j)
    ensures NoStore(vs, i, j + 1)
  {
  }

  lemma OneStoreOn(vs: seq<View>, i: nat, j: nat, b: nat, del: bool, key: int)
    requires OneStore(vs, i, j, b, del, key) && !OwnStore(vs, j)
    ensures OneStore(vs, i, j + 1, b, del, key)
  {
    var k: nat :| StoreIs(vs, i, j, k, b, del, key);
    assert StoreIs(vs, i, j + 1, k, b, del, key);
  }

  lemma NothingToDoOn(vs: seq<View>, i: nat, j: nat, b: nat, del: bool, key: int)
    requires NothingToDo(vs, i, j, b, del, key)
    ensures NothingToDo(vs, i, j + 1, b, del, key)
  {
  }

  lemma FirstStore(vs: seq<View>, i: nat, j: nat, b: nat, del: bool, key: int)
    requires NoStore(vs, i, j) && i <= j && OwnStore(vs, j)
    requires if del then Removes(vs[j].tb, vs[j + 1].tb, b, key) else Adds(vs[j].tb, vs[j + 1].tb, b, key)
    ensures OneStore(vs, i, j + 1, b, del, key)
  {
    assert StoreIs(vs, i, j + 1, j, b, del, key);
  }

  /** The call's account after one more step, which may be its last. */
  ghost predicate Settled(vs: seq<View>, s: nat, j: nat, b: nat, del: bool, key: int, r: bool) {
    if r then OneStore(vs, s, j, b, del, key) else NoStore(vs, s, j) && NothingToDo(vs, s, j, b, del, key)
  }

  lemma DuringStep(vs: seq<View>, s: nat, j: nat, b: nat, del: bool, key: int)
    requires During(vs, s, j, b, del, key) && AdvanceAt(vs, j) && j + 1 < |vs|
    ensures if vs[j + 1].phase.Outside? then Settled(vs, s, j + 1, b, del, key, Returns(vs[j].phase))
            else During(vs, s, j + 1, b, del, key)
  {
    var p := vs[j].phase;
    if vs[j + 1].phase == p {
      QuietStep(vs, s, j, b, del, key);
    } else if p.Waiting? {
      NoStoreOn(vs, s, j);
    } else if p.Leaving? {
      OneStoreOn(vs, s, j, b, del, key);
    } else {
      OpStep(vs, s, j, b, del, key);
    }
  }

  lemma QuietStep(vs: seq<View>, s: nat, j: nat, b: nat, del: bool, key: int)
    requires During(vs, s, j, b, del, key) && j + 1 < |vs| && vs[j + 1].phase == vs[j].phase
    ensures During(vs, s, j + 1, b, del, key)
  {
    if NoStore(vs, s, j) { NoStoreOn(vs, s, j); }
    if OneStore(vs, s, j, b, del, key) { OneStoreOn(vs, s, j, b, del, key); }
    if NothingToDo(vs, s, j, b, del, key) { NothingToDoOn(vs, s, j, b, del, key); }
  }

  lemma OpStep(vs: seq<View>, s: nat, j: nat, b: nat, del: bool, key: int)
    requires During(vs, s, j, b, del, key) && AdvanceAt(vs, j) && j + 1 < |vs|
    requires vs[j].phase.Working? && vs[j + 1].phase != vs[j].phase
    ensures if vs[j + 1].phase.Outside? then Settled(vs, s, j + 1, b, del, key, Returns(vs[j].phase))
            else During(vs, s, j + 1, b, del, key)
  {
    var op := vs[j].phase.op;
    if op.Unlinking? || op.Publishing? {
      FirstStore(vs, s, j, b, del, key);
    } else {
      if NoStore(vs, s, j) { NoStoreOn(vs, s, j); }
      if OneStore(vs, s, j, b, del, key) { OneStoreOn(vs, s, j, b, del, key); }
      if NothingToDo(vs, s, j, b, del, key) { NothingToDoOn(vs, s, j, b, del, key); }
      if op.Walking? && vs[j + 1].phase.op.Idle? {
        assert Has(vs[j].tb, b, key) <==> !del;
      }
    }
  }

  /** The instant before the call in progress at instant `j`. */
  ghost function CallStart(vs: seq<View>, j: nat): (s: nat)
    requires j < |vs|
    ensures s <= j && (vs[j].phase.Outside? ==> s == j)
    ensures vs[0].phase.Outside? && !vs[j].phase.Outside? ==>
              s < j && vs[s].phase.Outside? && !vs[s + 1].phase.Outside?
  {
    if vs[j].phase.Outside? || j == 0 then j else CallStart(vs, j - 1)
  }

  lemma {:induction false} CallSoFar(vs: seq<View>, j: nat, b: nat, del: bool, key: int)
    requires 0 < j < |vs| && vs[0].phase.Outside? && !vs[j].phase.Outside? && forall i: nat :: AdvanceAt(vs, i)
    requires Called(vs[CallStart(vs, j) + 1].phase, b, del, key)
    ensures During(vs, CallStart(vs, j), j, b, del, key)
  {
    assert AdvanceAt(vs, j - 1);
    if vs[j - 1].phase.Outside? {
      assert NoStore(vs, j - 1, j);
    } else {
      CallSoFar(vs, j - 1, b, del, key);
      DuringStep(vs, CallStart(vs, j - 1), j - 1, b, del, key);
    }
  }

  /** The call of an operation on `key` in bucket `b` returns after instant `j`.  If
      it returns 1, exactly one store of its own fell into it, and that store removed
      (delete) or added (insert) exactly its key.  If it returns 0, it stored nothing,
      and at an instant of the call the key was absent (delete) or present (insert). */
  ghost predicate HonestCall(vs: seq<View>, j: nat, b: nat, del: bool, key: int) {
    && j + 1 < |vs|
    && var s := CallStart(vs, j);
       s < j && Called(vs[s + 1].phase, b, del, key) && Settled(vs, s, j + 1, b, del, key, Returns(vs[j].phase))
  }

  lemma ReturnIsHonest(vs: seq<View>, j: nat, b: nat, del: bool, key: int)
    requires j + 1 < |vs| && vs[0].phase.Outside? && forall i: nat :: AdvanceAt(vs, i)
    requires !vs[j].phase.Outside? && vs[j + 1].phase.Outside?
    requires Called(vs[CallStart(vs, j) + 1].phase, b, del, key)
    ensures HonestCall(vs, j, b, del, key)
  {
    CallSoFar(vs, j, b, del, key);
    assert AdvanceAt(vs, j);
    DuringStep(vs, CallStart(vs, j), j, b, del, key);
  }

  ghost predicate InsideAt(vs: seq<View>, k: nat) {
    k < |vs| && !vs[k].phase.Outside?
  }

  lemma {:induction false} CallStartIs(vs: seq<View>, i: nat, j: nat)
    requires i <= j < |vs| && vs[i].phase.Outside? && forall k: nat :: i < k <= j ==> InsideAt(vs, k)
    ensures CallStart(vs, j) == i
  {
    if i < j {
      assert InsideAt(vs, j);
      CallStartIs(vs, i, j - 1);
    }
  }

  /** Each instant of a call belongs to it. */
  lemma {:induction false} InCall(vs: seq<View>, k: nat, j: nat, b: nat, del: bool, key: int)
    requires 0 < j < |vs| && vs[0].phase.Outside? && !vs[j].phase.Outside? && forall i: nat :: AdvanceAt(vs, i)
    requires Called(vs[CallStart(vs, j) + 1].phase, b, del, key) && CallStart(vs, j) < k <= j
    ensures During(vs, CallStart(vs, j), k, b, del, key)
    decreases j
  {
    if k == j {
      CallSoFar(vs, j, b, del, key);
    } else {
      InCall(vs, k, j - 1, b, del, key);
    }
  }

  // ----- a call that no other writer of the bucket disturbs

  /** From instant `i` to `j` nothing but the thread's own stores changes the set. */
  ghost predicate Undisturbed(vs: seq<View>, i: nat, j: nat, b: nat) {
    forall k: nat :: i <= k < j ==> QuietAt(vs, k, b)
  }

  ghost predicate QuietAt(vs: seq<View>, k: nat, b: nat) {
    k + 1 < |vs| && (!OwnStore(vs, k) ==> SameKeys(vs[k].tb, vs[k + 1].tb, b))
  }

  lemma {:induction false} NoStoreKeeps(vs: seq<View>, i: nat, j: nat, b: nat)
    requires i <= j < |vs| && Undisturbed(vs, i, j, b) && NoStore(vs, i, j)
    ensures SameKeys(vs[i].tb, vs[j].tb, b)
  {
    if i < j {
      NoStoreKeeps(vs, i, j - 1, b);
      assert QuietAt(vs, j - 1, b);
    }
  }

  /** The set after an operation on `key`. */
  ghost predicate Applied(tb: Table, tb': Table, b: nat, del: bool, key: int) {
    forall k: int :: Has(tb', b, k) <==> if k == key then !del else Has(tb, b, k)
  }

  /** An undisturbed call returns 1 exactly if the key was present (delete) or absent
      (insert) when it was called; after it the key is absent or present, and the set
      is otherwise the same. */
  lemma UndisturbedCall(vs: seq<View>, j: nat, b: nat, del: bool, key: int)
    requires HonestCall(vs, j, b, del, key) && Undisturbed(vs, CallStart(vs, j), j + 1, b)
    ensures var s := CallStart(vs, j);
            && (Returns(vs[j].phase) <==> (Has(vs[s].tb, b, key) <==> del))
            && Applied(vs[s].tb, vs[j + 1].tb, b, del, key)
  {
    var s := CallStart(vs, j);
    if Returns(vs[j].phase) {
      var k: nat :| StoreIs(vs, s, j + 1, k, b, del, key);
      NoStoreKeeps(vs, s, k, b);
      NoStoreKeeps(vs, k + 1, j + 1, b);
    } else {
      var k: nat :| s <= k <= j + 1 && k < |vs| && (Has(vs[k].tb, b, key) <==> !del);
      NoStoreKeeps(vs, s, k, b);
      NoStoreKeeps(vs, s, j + 1, b);
    }
  }
}
