/** rc.c's recursive `lfrc_refcnt_dec`, run without interference, on nodes linked
    in any way: a chain, or a chain that runs into itself. */
module Cascade {
  class Node {
    var key: int
    var next: Node?
    var rc: nat
    var gc: nat

    constructor (key: int, next: Node?)
      ensures this.key == key && this.next == next && rc == 0 && gc == 0
    {
      this.key, this.next, rc, gc := key, next, 0, 0;
    }
  }

  /** The free list: last in, first out. */
  class Pool {
    var list: seq<Node>

    constructor ()
      ensures list == []
    {
      list := [];
    }

    method FreeNode(n: Node)
      modifies this
      ensures list == [n] + old(list)
    {
      list := [n] + list;
    }
  }

  ghost predicate Closed(all: set<Node>)
    reads all
  {
    forall n :: n in all && n.next != null ==> n.next in all
  }

  /** The nodes from `p` on whose only reference is the one that is dropped.
      `left` are the nodes not yet visited. */
  ghost function Doomed(p: Node?, left: set<Node>): seq<Node>
    reads left
    decreases left
  {
    if p == null || p !in left || p.rc != 1 then [] else [p] + Doomed(p.next, left - {p})
  }

  /** The first node that is not among them. */
  ghost function Survivor(p: Node?, left: set<Node>): Node?
    reads left
    decreases left
  {
    if p == null || p !in left || p.rc != 1 then p else Survivor(p.next, left - {p})
  }

  /** The assertion `p->rc > 0` holds in every call of the cascade: it ends at a
      null pointer or at a node that has further references and was not visited. */
  ghost predicate Sound(p: Node?, left: set<Node>)
    reads left
    decreases left
  {
    p == null || (p in left && p.rc > 0 && (p.rc == 1 ==> Sound(p.next, left - {p})))
  }

  lemma {:induction false} DoomedAreLeft(p: Node?, left: set<Node>)
    ensures forall n :: n in Doomed(p, left) ==> n in left && n.rc == 1
    ensures forall i, j :: 0 <= i < j < |Doomed(p, left)| ==> Doomed(p, left)[i] != Doomed(p, left)[j]
    ensures Sound(p, left) && Survivor(p, left) != null ==>
              Survivor(p, left) in left && Survivor(p, left) !in Doomed(p, left)
    decreases left
  {
    if p != null && p in left && p.rc == 1 {
      DoomedAreLeft(p.next, left - {p});
    }
  }

  /** `lfrc_refcnt_dec(p)`.  `ok` is false when its assertion fails.  Every call
      zeroes one positive count, so the recursion ends whatever the shape. */
  method Dec(p: Node?, pool: Pool, ghost all: set<Node>, ghost left: set<Node>) returns (ok: bool)
    requires Closed(all) && (p != null ==> p in all) && left <= all
    requires forall n :: n in all - left ==> n.rc == 0
    modifies left, pool
    ensures ok <==> old(Sound(p, left))
    ensures ok ==> pool.list == old(Doomed(p, left)) + old(pool.list)
    ensures ok ==> forall n :: n in left ==>
              && n.rc == (if n in old(Doomed(p, left)) then 0
                          else if n == old(Survivor(p, left)) then old(n.rc) - 1
                          else old(n.rc))
              && n.gc == (if n in old(Doomed(p, left)) then old(n.gc) + 1 else old(n.gc))
    ensures forall n :: n in left ==> n.key == old(n.key) && n.next == old(n.next)
    decreases left
  {
    if p == null {
      return true;
    }
    if p.rc == 0 {
      return false;
    }
    assert p in left;
    DoomedAreLeft(p, left);
    p.rc := p.rc - 1;
    if p.rc == 0 {
      p.gc := p.gc + 1;
      ok := Dec(p.next, pool, all, left - {p});
      if !ok {
        return;
      }
      pool.FreeNode(p);
    }
    ok := true;
  }

  /** A null-terminated chain of distinct nodes starting at `p`. */
  ghost predicate Chain(p: Node?, chain: seq<Node>)
    reads chain
  {
    && (p == null <==> chain == [])
    && (chain != [] ==> chain[0] == p && chain[|chain| - 1].next == null)
    && (forall i :: 0 <= i < |chain| - 1 ==> chain[i].next == chain[i + 1])
    && (forall i, j :: 0 <= i < j < |chain| ==> chain[i] != chain[j])
  }

  lemma ChainTail(p: Node, chain: seq<Node>)
    requires Chain(p, chain)
    ensures Chain(p.next, chain[1..])
  {
    forall i | 0 <= i < |chain| - 2 ensures chain[1..][i].next == chain[1..][i + 1] {
      assert chain[i + 1].next == chain[i + 2];
    }
    assert |chain| > 1 ==> chain[0].next == chain[0 + 1];
  }

  /** On an acyclic chain the cascade frees exactly the maximal prefix of nodes
      with `rc == 1`, and lowers the count of the node behind it. */
  lemma {:induction false} FreesMaximalPrefix(p: Node?, left: set<Node>, chain: seq<Node>) returns (k: nat)
    requires Chain(p, chain) && forall i :: 0 <= i < |chain| ==> chain[i] in left
    ensures k <= |chain| && Doomed(p, left) == chain[..k]
    ensures forall i :: 0 <= i < k ==> chain[i].rc == 1
    ensures k < |chain| ==> chain[k].rc != 1
    ensures Survivor(p, left) == if k < |chain| then chain[k] else null
    ensures Sound(p, left) <==> (k < |chain| ==> chain[k].rc > 0)
    decreases |chain|
  {
    if p == null || p.rc != 1 {
      k := 0;
    } else {
      ChainTail(p, chain);
      var rest := FreesMaximalPrefix(p.next, left - {p}, chain[1..]);
      k := rest + 1;
      assert chain[..k] == [p] + chain[1..][..rest];
    }
  }

  /** A ring of nodes, each referenced only by its predecessor and one of them
      dropped, would trip the assertion: lists must be acyclic. */
  lemma {:induction false} RingTripsAssertion(p: Node, left: set<Node>, ring: seq<Node>, i: nat)
    requires 0 < |ring| && i <= |ring| && ring[0] == p
    requires forall j :: 0 <= j < |ring| ==> ring[j].rc == 1
    requires (forall j :: 0 <= j < |ring| - 1 ==> ring[j].next == ring[j + 1]) && ring[|ring| - 1].next == p
    requires forall j, k :: 0 <= j < k < |ring| ==> ring[j] != ring[k]
    requires forall j :: 0 <= j < |ring| ==> (ring[j] in left <==> i <= j)
    ensures !Sound(if i < |ring| then ring[i] else p, left)
    decreases |ring| - i
  {
    if i < |ring| {
      var n := ring[i];
      RingTripsAssertion(p, left - {n}, ring, i + 1);
      assert n.next == if i + 1 < |ring| then ring[i + 1] else p;
    }
  }
}
