/** A legal run in which a search reads a field of a free node.

    Thread 1 searches and stands at node 0, whose successor is node 1.  Thread 0
    deletes both, and then inserts and deletes until it scans: the scan finds node 0
    in a slot and frees node 1.  Node 0's link still leads to node 1, so the
    re-check of thread 1 succeeds. */
module HazardWitness {
  import opened Buckets
  import opened HazardParameters
  import opened ListWriter
  import opened HazardPointers

  const POOL: nat := 120

  ghost predicate Reachable(w: World) {
    exists run: seq<World> :: Ending(run, w)
  }

  ghost predicate Ending(run: seq<World>, w: World) {
    Legal(run) && run[|run| - 1] == w
  }

  lemma Extend(w: World, t: nat, c: Choice, w': World)
    requires Reachable(w) && Taken(w, t, c, w')
    ensures Reachable(w')
  {
    var run: seq<World> :| Ending(run, w);
    var more := run + [w'];
    forall i: nat ensures StepAt(more, i) {
      assert StepAt(run, i);
      if i + 1 == |run| {
        assert Taken(more[i], t, c, more[i + 1]);
      }
    }
    assert more[0] == run[0];
    assert Ending(more, w');
  }

  predicate Sized(w: World) {
    Shape(w) && |w.tb.heads| == 1 && |w.tb.mem| == POOL && |w.threads| == 2
  }

  /** Thread 1, the slots and all nodes but `n` are as before. */
  ghost predicate Only(w: World, w': World, n: Ref) {
    && Sized(w) && Sized(w') && w'.slots == w.slots && w'.threads[1] == w.threads[1]
    && forall m: Ref :: m < POOL && m != n ==> w'.tb.mem[m] == w.tb.mem[m] && w'.tb.status[m] == w.tb.status[m]
  }

  predicate Rests(w: World, z: seq<Ref>) {
    Sized(w) && w.writer[0] == None && w.threads[0].pc.Resting? && w.threads[0].zombies == z
  }

  predicate Writes(w: World, z: seq<Ref>, op: Op) {
    Sized(w) && w.threads[0].pc == Writing(op) && w.threads[0].zombies == z && w.threads[0].b == 0
  }

  // ----- insert at the head of the bucket

  lemma Prepare(w: World, z: seq<Ref>, key: int, n: Ref) returns (w': World)
    requires Reachable(w) && Rests(w, z) && n < POOL && w.tb.status[n] == Free
    requires w.tb.heads[0].Some? ==> w.tb.heads[0].value < POOL && key < w.tb.mem[w.tb.heads[0].value].key
    ensures Reachable(w') && Only(w, w', n) && Writes(w', z, Keying(n, key, Head, w.tb.heads[0])) && w'.tb.heads == w.tb.heads
  {
    var c := Choice(false, 0, false, key, n);
    var w1 := Act(w, 0, c);
    Extend(w, 0, c, w1);
    var w2 := Act(w1, 0, c);
    Extend(w1, 0, c, w2);
    w' := Act(w2, 0, c);
    Extend(w2, 0, c, w');
  }

  lemma Fill(w: World, z: seq<Ref>, key: int, n: Ref, cur: Option<Ref>) returns (w': World)
    requires Reachable(w) && n < POOL && Writes(w, z, Keying(n, key, Head, cur))
    ensures Reachable(w') && Only(w, w', n) && Writes(w', z, Publishing(n, key, Head, cur))
    ensures w'.tb.mem[n].key == key && w'.tb.mem[n].next == cur
  {
    var c := Choice(false, 0, false, key, n);
    var w1 := Act(w, 0, c);
    Extend(w, 0, c, w1);
    w' := Act(w1, 0, c);
    Extend(w1, 0, c, w');
  }

  lemma PublishFirst(w: World, z: seq<Ref>, key: int, n: Ref, cur: Option<Ref>) returns (w': World)
    requires Reachable(w) && n < POOL && Writes(w, z, Publishing(n, key, Head, cur))
    ensures Reachable(w') && Only(w, w', n) && Rests(w', z)
    ensures w'.tb.heads == [Some(n)] && w'.tb.status[n] == Linked(0) && w'.tb.mem[n] == w.tb.mem[n]
  {
    var c := Choice(false, 0, false, key, n);
    var w1 := Act(w, 0, c);
    Extend(w, 0, c, w1);
    w' := Act(w1, 0, c);
    Extend(w1, 0, c, w');
  }

  lemma InsertFirst(w: World, z: seq<Ref>, key: int, n: Ref) returns (w': World)
    requires Reachable(w) && Rests(w, z) && n < POOL && w.tb.status[n] == Free
    requires w.tb.heads[0].Some? ==>
               w.tb.heads[0].value < POOL && w.tb.heads[0].value != n && key < w.tb.mem[w.tb.heads[0].value].key
    ensures Reachable(w') && Only(w, w', n) && Rests(w', z)
    ensures w'.tb.heads == [Some(n)] && w'.tb.status[n] == Linked(0)
    ensures w'.tb.mem[n].key == key && w'.tb.mem[n].next == w.tb.heads[0]
  {
    var w1 := Prepare(w, z, key, n);
    var w2 := Fill(w1, z, key, n, w.tb.heads[0]);
    w' := PublishFirst(w2, z, key, n, w.tb.heads[0]);
  }

  // ----- delete at the head of the bucket

  lemma UnlinkFirst(w: World, z: seq<Ref>, n: Ref) returns (w': World)
    requires Reachable(w) && Rests(w, z) && n < POOL && w.tb.heads[0] == Some(n)
    ensures Reachable(w') && Only(w, w', n) && Writes(w', z, Reclaiming(n, 0))
    ensures w'.tb.heads == [w.tb.mem[n].next] && w'.tb.mem[n] == w.tb.mem[n]
  {
    var c := Choice(false, 0, true, w.tb.mem[n].key, n);
    var w1 := Act(w, 0, c);
    Extend(w, 0, c, w1);
    var w2 := Act(w1, 0, c);
    Extend(w1, 0, c, w2);
    w' := Act(w2, 0, c);
    Extend(w2, 0, c, w');
  }

  lemma DeleteFirst(w: World, z: seq<Ref>, n: Ref) returns (w': World)
    requires Reachable(w) && Rests(w, z) && n < POOL && w.tb.heads[0] == Some(n) && |z| < R(2)
    ensures Reachable(w') && Only(w, w', n) && Rests(w', [n] + z)
    ensures w'.tb.heads == [w.tb.mem[n].next] && w'.tb.mem[n] == w.tb.mem[n] && w'.tb.status[n] == Retired(0)
  {
    var c := Choice(false, 0, true, 0, n);
    var w1 := UnlinkFirst(w, z, n);
    var w2 := Act(w1, 0, c);
    Extend(w1, 0, c, w2);
    w' := Act(w2, 0, c);
    Extend(w2, 0, c, w');
  }

  // ----- the reader, up to the store to its second slot

  /** Thread 1 stands at node 0 and has read the link to node 1. */
  predicate Standing(w: World) {
    && Sized(w)
    && w.threads[1].pc == Posting(1) && w.threads[1].prev == NextOf(0) && w.threads[1].off == 1 && w.threads[1].b == 0
    && w.tb.mem[0].next == Some(1)
    && w.slots[Slot(1, 0)] == Some(0) && forall i: nat :: i < H && i != Slot(1, 0) ==> w.slots[i] == None
  }

  lemma Read(w: World) returns (w': World)
    requires Reachable(w) && Rests(w, []) && w.tb.heads[0] == Some(0) && w.tb.mem[0].key == 1 && w.tb.mem[0].next == Some(1)
    requires w.threads[1].pc.Resting? && forall i: nat :: i < H ==> w.slots[i] == None
    ensures Reachable(w') && Standing(w') && w'.tb == w.tb && Rests(w', [])
  {
    var w1 := Approach(w);
    var c := Choice(true, 0, false, 3, 0);
    var w2 := Act(w1, 1, c);
    Extend(w1, 1, c, w2);
    var w3 := Act(w2, 1, c);
    Extend(w2, 1, c, w3);
    w' := Act(w3, 1, c);
    Extend(w3, 1, c, w');
  }

  lemma Approach(w: World) returns (w': World)
    requires Reachable(w) && Rests(w, []) && w.tb.heads[0] == Some(0)
    requires w.threads[1].pc.Resting? && forall i: nat :: i < H ==> w.slots[i] == None
    ensures Reachable(w') && w'.tb == w.tb && Rests(w', [])
    ensures w'.threads[1].pc == Rechecking(0) && w'.threads[1].prev.Head? && w'.threads[1].b == 0
    ensures w'.threads[1].key == 3 && w'.threads[1].off == 0
    ensures w'.slots == w.slots[Slot(1, 0) := Some(0)]
  {
    var c := Choice(true, 0, false, 3, 0);
    var w1 := Act(w, 1, c);
    Extend(w, 1, c, w1);
    var w2 := Act(w1, 1, c);
    Extend(w1, 1, c, w2);
    w' := Act(w2, 1, c);
    Extend(w2, 1, c, w');
  }

  // ----- the zombies pile up

  /** The zombie list ends with nodes 1 and 0, the nodes from `|z|` on are free, and
      the bucket is empty. */
  ghost predicate Piled(w: World, z: seq<Ref>) {
    && Rests(w, z) && Standing(w) && w.tb.heads[0] == None && Tailed(z) && !w.tb.status[0].Linked?
    && forall m: Ref :: |z| <= m < POOL ==> w.tb.status[m] == Free
  }

  ghost predicate Tailed(z: seq<Ref>) {
    && 2 <= |z| <= POOL && z[|z| - 2] == 1 && z[|z| - 1] == 0
    && forall i :: 0 <= i < |z| - 2 ==> 2 <= z[i] < POOL
  }

  lemma Cycle(w: World, z: seq<Ref>) returns (w': World)
    requires Reachable(w) && Piled(w, z) && |z| < R(2)
    ensures Reachable(w') && Piled(w', [|z|] + z)
  {
    var w1 := InsertFirst(w, z, 5, |z|);
    w' := DeleteFirst(w1, z, |z|);
  }

  lemma {:induction false} Pile(w: World, z: seq<Ref>) returns (w': World, z': seq<Ref>)
    requires Reachable(w) && Piled(w, z) && |z| <= R(2)
    ensures Reachable(w') && Piled(w', z') && |z'| == R(2)
    decreases R(2) - |z|
  {
    if |z| == R(2) {
      w', z' := w, z;
    } else {
      var w1 := Cycle(w, z);
      w', z' := Pile(w1, [|z|] + z);
    }
  }

  // ----- the scan

  /** Thread 0 scans or sweeps; thread 1 stands. */
  ghost predicate Scans(w: World, pc: Pc) {
    Standing(w) && w.threads[0].pc == pc && !w.tb.status[0].Linked?
  }

  lemma Trigger(w: World, z: seq<Ref>) returns (w': World)
    requires Reachable(w) && Piled(w, z) && |z| == R(2)
    ensures Reachable(w') && Scans(w', Scanning(0, [])) && w'.threads[0].zombies == [|z|] + z
  {
    var w1 := InsertFirst(w, z, 5, |z|);
    var w2 := UnlinkFirst(w1, z, |z|);
    var c := Choice(false, 0, true, 0, 0);
    w' := Act(w2, 0, c);
    Extend(w2, 0, c, w');
  }

  function Seen(i: nat): seq<Ref> {
    if i <= Slot(1, 0) then [] else [0]
  }

  lemma {:induction false} Collect(w: World, i: nat) returns (w': World)
    requires Reachable(w) && i <= H && Scans(w, Scanning(i, Seen(i)))
    ensures Reachable(w') && Scans(w', Sweeping(w.threads[0].zombies, [0])) && w'.threads[0].zombies == []
    decreases H - i
  {
    var c := Choice(false, 0, true, 0, 0);
    var w1 := Act(w, 0, c);
    Extend(w, 0, c, w1);
    if i == H {
      w' := w1;
    } else {
      assert Seen(i + 1) == if i == Slot(1, 0) then Seen(i) + [0] else Seen(i);
      w' := Collect(w1, i + 1);
    }
  }

  /** The sweep frees all but node 0, node 1 after the others. */
  lemma {:induction false} Sweep(w: World, rest: seq<Ref>) returns (w': World)
    requires Reachable(w) && Tailed(rest) && Scans(w, Sweeping(rest, [0]))
    ensures Reachable(w') && Standing(w') && w'.tb.status[1] == Free && !w'.tb.status[0].Linked?
    decreases |rest|
  {
    var c := Choice(false, 0, true, 0, 0);
    assert rest[0] != 0;
    w' := Act(w, 0, c);
    Extend(w, 0, c, w');
    if |rest| > 2 {
      assert Tailed(rest[1..]);
      w' := Sweep(w', rest[1..]);
    }
  }

  // ----- the whole run

  function Start(): World {
    World(Table([None], seq(POOL, _ => Node(0, None, 0, 0)), seq(POOL, _ => Free)), seq(H, _ => None),
          [Thread(Resting, 0, 0, Head, 0, [], false, false, 0, 0, 0), Thread(Resting, 0, 0, Head, 0, [], false, false, 0, 0, 0)],
          [None])
  }

  lemma StartIsReachable()
    ensures Reachable(Start()) && Rests(Start(), [])
  {
    var run := [Start()];
    forall i: nat ensures StepAt(run, i) {}
    assert Ending(run, Start());
  }

  /** Two nodes, the reader between them, both deleted. */
  lemma SetUp() returns (w: World)
    ensures Reachable(w) && Piled(w, [1, 0])
  {
    StartIsReachable();
    var w0 := Start();
    var w1 := InsertFirst(w0, [], 2, 1);
    var w2 := InsertFirst(w1, [], 1, 0);
    var w3 := Read(w2);
    var w4 := DeleteFirst(w3, [], 0);
    w := DeleteFirst(w4, [0], 1);
  }

  /** A search is about to read `cur->next` and `cur->key` of a free node: the
      re-check read the link of a node that was unlinked. */
  lemma FreeNodeIsRead() returns (w: World)
    ensures Reachable(w) && 1 < |w.threads| && w.threads[1].pc == Hopping(1) && !w.threads[1].known
    ensures 1 < |w.tb.status| && w.tb.status[1] == Free
  {
    var w1 := SetUp();
    var w2, z := Pile(w1, [1, 0]);
    var w3 := Trigger(w2, z);
    var w4 := Collect(w3, 0);
    var w5 := Sweep(w4, [|z|] + z);
    w := Fall(w5);
  }

  lemma Fall(w: World) returns (w': World)
    requires Reachable(w) && Standing(w) && w.tb.status[1] == Free && !w.tb.status[0].Linked?
    ensures Reachable(w') && 1 < |w'.threads| && w'.threads[1].pc == Hopping(1) && !w'.threads[1].known
    ensures 1 < |w'.tb.status| && w'.tb.status[1] == Free
  {
    var c := Choice(true, 0, false, 3, 0);
    var w1 := Act(w, 1, c);
    Extend(w, 1, c, w1);
    w' := Act(w1, 1, c);
    Extend(w1, 1, c, w');
  }
}
