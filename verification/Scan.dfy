/** hp.c's `compare`, `scan` and `free_node_later` as they run in one thread, on
    nodes linked through `mr_next`.  What the loads of the hazard slots return is
    a parameter: other threads store to the slots while the scan reads them.
    Freed nodes go to the SIMPLE_ALLOC free list, which reuses `mr_next`. */
module Scan {
  import opened HazardParameters
  import opened Sequences

  const TWO31: int := 0x8000_0000
  const TWO32: int := 0x1_0000_0000

  /** `at` is the node's address in units of its size. */
  class Node {
    const at: nat
    var mrNext: Node?

    constructor (at: nat)
      ensures this.at == at && mrNext == null
    {
      this.at := at;
      mrNext := null;
    }
  }

  // ----- compare

  /** Truncation of a pointer difference to a 32-bit `int`. */
  function Int32(x: int): int {
    (x + TWO31) % TWO32 - TWO31
  }

  function Compare(a: int, b: int): int {
    Int32(a - b)
  }

  /** Over the nodes of a contiguous pool `compare` is antisymmetric, as qsort and
      bsearch require, if and only if the pool spans at most 2^31 nodes; it then
      is the order of the addresses. */
  lemma CompareIsOrderIff(lo: nat, hi: nat)
    requires lo < hi
    ensures hi - lo <= TWO31 <==>
            (forall a: nat, b: nat :: lo <= a < hi && lo <= b < hi && a != b ==>
               (Compare(a, b) < 0 <==> !(Compare(b, a) < 0)))
    ensures hi - lo <= TWO31 ==>
              forall a: nat, b: nat :: lo <= a < hi && lo <= b < hi ==>
                (Compare(a, b) < 0 <==> a < b) && (Compare(a, b) == 0 <==> a == b)
  {
    if hi - lo <= TWO31 {
      forall a: nat, b: nat | lo <= a < hi && lo <= b < hi ensures Compare(a, b) == a - b {
        NearDifference(a - b);
      }
    } else {
      FarPair(lo);
    }
  }

  lemma NearDifference(x: int)
    requires -TWO31 < x < TWO31
    ensures Int32(x) == x
  {
  }

  /** The first pair that goes wrong: each of the two nodes compares as smaller. */
  lemma FarPair(lo: nat)
    ensures Compare(lo + TWO31, lo) < 0 && Compare(lo, lo + TWO31) < 0
  {
  }

  /** All addresses lie close enough for `compare`. */
  ghost predicate Near(nodes: set<Node>) {
    forall a, b :: a in nodes && b in nodes ==> -TWO31 < a.at - b.at < TWO31
  }

  ghost predicate OneAddressEach(nodes: set<Node>) {
    forall a, b :: a in nodes && b in nodes && a.at == b.at ==> a == b
  }

  lemma CompareNear(nodes: set<Node>, a: Node, b: Node)
    requires Near(nodes) && a in nodes && b in nodes
    ensures Compare(a.at, b.at) == a.at - b.at
  {
  }

  // ----- qsort and bsearch, with `compare`

  ghost predicate Collected(nodes: set<Node>, s: seq<Node?>, n: nat) {
    n <= |s| && forall i :: 0 <= i < n ==> s[i] != null && s[i] in nodes
  }

  ghost predicate Sorted(s: seq<Node?>, n: nat) {
    n <= |s| && forall i, j :: 0 <= i < j < n && s[i] != null && s[j] != null ==> s[i].at <= s[j].at
  }

  /** Sorted up to element `i`, but for element `j`, which may belong further left. */
  ghost predicate SortedBut(s: seq<Node?>, i: nat, j: nat) {
    i < |s| && forall x, y :: 0 <= x < y <= i && y != j && s[x] != null && s[y] != null ==> s[x].at <= s[y].at
  }

  function Swapped(s: seq<Node?>, j: nat): seq<Node?>
    requires j + 1 < |s|
  {
    s[j := s[j + 1]][j + 1 := s[j]]
  }

  lemma SwapSorts(s: seq<Node?>, i: nat, j: nat, n: nat, nodes: set<Node>)
    requires 0 < j <= i < n && Collected(nodes, s, n) && SortedBut(s, i, j) && s[j - 1].at > s[j].at
    ensures SortedBut(Swapped(s, j - 1), i, j - 1) && Collected(nodes, Swapped(s, j - 1), n)
    ensures Swapped(s, j - 1)[n..] == s[n..] && Bag(Swapped(s, j - 1)) == Bag(s)
  {
  }

  function Bag(s: seq<Node?>): multiset<Node?> {
    multiset(s)
  }

  lemma PrefixBag(s: seq<Node?>, t: seq<Node?>, n: nat)
    requires n <= |s| == |t| && Bag(s) == Bag(t) && s[n..] == t[n..]
    ensures Bag(s[..n]) == Bag(t[..n])
  {
    assert s == s[..n] + s[n..] && t == t[..n] + t[n..];
    assert Bag(s[..n]) == Bag(s) - Bag(s[n..]);
    assert Bag(t[..n]) == Bag(t) - Bag(t[n..]);
  }

  /** Stands for libc's `qsort`. */
  method Qsort(a: array<Node?>, n: nat, ghost nodes: set<Node>)
    requires Near(nodes) && Collected(nodes, a[..], n)
    modifies a
    ensures Collected(nodes, a[..], n) && Sorted(a[..], n)
    ensures Bag(a[..n]) == Bag(old(a[..n]))
  {
    var i := 0;
    while i < n
      invariant i <= n && Collected(nodes, a[..], n) && Sorted(a[..], i)
      invariant Bag(a[..]) == Bag(old(a[..])) && a[n..] == old(a[n..])
    {
      Sink(a, i, n, nodes);
      i := i + 1;
    }
    PrefixBag(a[..], old(a[..]), n);
    assert a[..][..n] == a[..n] && old(a[..])[..n] == old(a[..n]);
  }

  /** Element `i` sinks to its place among the sorted ones before it. */
  method Sink(a: array<Node?>, i: nat, n: nat, ghost nodes: set<Node>)
    requires i < n && Near(nodes) && Collected(nodes, a[..], n) && Sorted(a[..], i)
    modifies a
    ensures Collected(nodes, a[..], n) && Sorted(a[..], i + 1)
    ensures Bag(a[..]) == Bag(old(a[..])) && a[n..] == old(a[n..])
  {
    var j := i;
    while j > 0 && Compare(a[j - 1].at, a[j].at) > 0
      invariant 0 <= j <= i && Collected(nodes, a[..], n) && SortedBut(a[..], i, j)
      invariant Bag(a[..]) == Bag(old(a[..])) && a[..][n..] == old(a[..])[n..]
    {
      CompareNear(nodes, a[j - 1], a[j]);
      SwapSorts(a[..], i, j, n, nodes);
      ghost var s := a[..];
      a[j - 1], a[j] := a[j], a[j - 1];
      assert a[..] == Swapped(s, j - 1);
      j := j - 1;
    }
    if j > 0 {
      CompareNear(nodes, a[j - 1], a[j]);
    }
    SunkIsSorted(a[..], i, j, n, nodes);
  }

  lemma SunkIsSorted(s: seq<Node?>, i: nat, j: nat, n: nat, nodes: set<Node>)
    requires j <= i < n && Collected(nodes, s, n) && SortedBut(s, i, j) && (j > 0 ==> s[j - 1].at <= s[j].at)
    ensures Sorted(s, i + 1)
  {
  }

  /** Stands for libc's `bsearch`. */
  method Bsearch(key: Node, a: array<Node?>, n: nat, ghost nodes: set<Node>) returns (found: bool)
    requires Near(nodes) && OneAddressEach(nodes) && key in nodes && Collected(nodes, a[..], n) && Sorted(a[..], n)
    ensures found <==> key in a[..n]
  {
    var l, u := 0, n;
    while l < u
      invariant 0 <= l <= u <= n
      invariant forall i :: 0 <= i < l ==> a[i].at < key.at
      invariant forall i :: u <= i < n ==> key.at < a[i].at
    {
      var m := (l + u) / 2;
      CompareNear(nodes, key, a[m]);
      var c := Compare(key.at, a[m].at);
      if c < 0 {
        u := m;
      } else if c > 0 {
        l := m + 1;
      } else {
        assert a[..n][m] == key;
        return true;
      }
    }
    found := false;
  }

  /** Sorting the collected part permutes it. */
  lemma SameMembers(s: seq<Node?>, n: nat, was: seq<Node?>)
    requires n <= |s| && Bag(s[..n]) == Bag(was)
    ensures forall x: Node? :: x in s[..n] <==> x in was
  {
    forall x: Node? ensures x in s[..n] <==> x in was {
      assert x in Bag(s[..n]) <==> x in Bag(was);
    }
  }

  // ----- lists linked through mr_next

  ghost predicate Linked(p: Node?, s: seq<Node>)
    reads s
  {
    if s == [] then p == null else p == s[0] && Linked(s[0].mrNext, s[1..])
  }

  ghost predicate Apart(a: seq<Node>, b: seq<Node>) {
    forall n :: n in a ==> n !in b
  }

  /** The nodes of `z` that the observed slots hold (or do not hold), in the order
      of a list to whose front they were pushed one after the other. */
  ghost function Pushed(z: seq<Node>, observed: seq<Node?>, held: bool): seq<Node> {
    if z == [] then [] else Pushed(z[1..], observed, held) + if (held <==> z[0] in observed) then [z[0]] else []
  }

  lemma {:induction false} PushedMembers(z: seq<Node>, observed: seq<Node?>, held: bool)
    requires Distinct(z)
    ensures forall n: Node :: n in Pushed(z, observed, held) <==> n in z && (held <==> n in observed)
    ensures Distinct(Pushed(z, observed, held))
  {
    if z != [] {
      PushedMembers(z[1..], observed, held);
      assert z[0] !in z[1..];
      assert z == [z[0]] + z[1..];
    }
  }

  lemma PushedAre(z: seq<Node>, observed: seq<Node?>, held: bool, i: nat)
    requires i < |Pushed(z, observed, held)|
    ensures Pushed(z, observed, held)[i] in z && (held <==> Pushed(z, observed, held)[i] in observed)
  {
  }

  lemma PushedFirst(z: seq<Node>, observed: seq<Node?>, held: bool, s: seq<Node>)
    requires z != []
    ensures Pushed(z, observed, held) + s == Pushed(z[1..], observed, held) + ((if (held <==>
        z[0] in observed) then [z[0]] else []) + s)
  {
  }

  /** A list is its held nodes and its other nodes: none is lost. */
  lemma {:induction false} PushedSplits(z: seq<Node>, observed: seq<Node?>)
    ensures |Pushed(z, observed, true)| + |Pushed(z, observed, false)| == |z|
  {
    if z != [] {
      PushedSplits(z[1..], observed);
    }
  }

  /** A scan keeps no more zombies than it collected nodes. */
  lemma HeldFit(z: seq<Node>, observed: seq<Node?>, seen: seq<Node?>)
    requires Distinct(z) && forall k :: 0 <= k < |observed| && observed[k] != null ==> observed[k] in seen
    ensures |Pushed(z, observed, true)| <= |seen|
  {
    PushedMembers(z, observed, true);
    var kept := Pushed(z, observed, true);
    forall i | 0 <= i < |kept| ensures kept[i] in seen {
      PushedAre(z, observed, true, i);
    }
    DistinctWithin(kept, seen);
  }

  /** One thread's zombie list and its free list. */
  class Reclaimer {
    const nbthreads: nat
    var p: Node?         // zl->p
    var number: nat      // zl->number
    var lfl: Node?       // the allocator's local free list
    ghost var zombies: seq<Node>
    ghost var freed: seq<Node>
    ghost const nodes: set<Node>  // the pool

    ghost predicate Valid()
      reads this, nodes
    {
      && 0 < nbthreads <= MAX_THREAD && Near(nodes) && OneAddressEach(nodes)
      && (forall n :: n in zombies ==> n in nodes) && (forall n :: n in freed ==> n in nodes)
      && Distinct(zombies) && Distinct(freed) && Apart(zombies, freed)
      && Linked(p, zombies) && Linked(lfl, freed)
      && number == |zombies|
    }

    constructor (nbthreads: nat, ghost nodes: set<Node>)
      requires 0 < nbthreads <= MAX_THREAD && Near(nodes) && OneAddressEach(nodes)
      ensures Valid() && this.nbthreads == nbthreads && this.nodes == nodes && zombies == [] && freed == []
    {
      this.nbthreads, this.nodes := nbthreads, nodes;
      p, number, lfl := null, 0, null;
      zombies, freed := [], [];
    }
  
    /** What the loads of HP[0..H] may return: only the slots of running threads
        are ever stored to. */
    ghost predicate Slots(observed: seq<Node?>) {
      |observed| == H && forall i :: 0 <= i < H && observed[i] != null ==> i < K * nbthreads && observed[i] in nodes
    }

    /** Stage 1.  The loop runs over all H slots and `plist` has room for the
        slots of the running threads: every store is in bounds. */
    method Collect(observed: seq<Node?>) returns (plist: array<Node?>, psize: nat)
      requires Valid() && Slots(observed)
      ensures fresh(plist) && plist.Length == K * nbthreads && Collected(nodes, plist[..], psize)
      ensures forall n: Node :: n in plist[..psize] <==> n in observed
    {
      plist := new Node?[K * nbthreads](_ => null);
      psize := 0;
      var i := 0;
      while i < H
        invariant 0 <= i <= H && psize <= i && psize <= plist.Length && Collected(nodes, plist[..], psize)
        invariant forall n: Node :: n in plist[..psize] <==> n in observed[..i]
      {
        assert observed[..i + 1] == observed[..i] + [observed[i]];
        if observed[i] != null {
          plist[psize] := observed[i];
          assert plist[..psize + 1] == plist[..psize] + [observed[i]];
          psize := psize + 1;
        }
        i := i + 1;
      }
      assert observed[..H] == observed;
    }

    /** A zombie goes to the front of the zombie list. */
    method Keep(n: Node)
      requires Valid() && n in nodes && n !in zombies && n !in freed
      modifies this`p, this`number, this`zombies, n
      ensures Valid() && zombies == [n] + old(zombies)
    {
      n.mrNext := p;
      p, number, zombies := n, number + 1, [n] + zombies;
    }

    /** `free_node`: the node goes to the front of the free list. */
    method FreeNode(n: Node)
      requires Valid() && n in nodes && n !in zombies && n !in freed
      modifies this`lfl, this`freed, n
      ensures Valid() && freed == [n] + old(freed)
    {
      n.mrNext := lfl;
      lfl, freed := n, [n] + freed;
    }

    /** `get_free`: the head of the free list.  The zombie list is linked through
        the same field, but no node is on both. */
    method GetFree() returns (node: Node?)
      requires Valid()
      modifies this`lfl, this`freed
      ensures Valid()
      ensures node == null <==> old(freed) == []
      ensures node == null ==> freed == []
      ensures node != null ==> old(freed) == [node] + freed && node !in zombies && node !in freed
    {
      node := lfl;
      if node != null {
        lfl, freed := node.mrNext, freed[1..];
      }
    }

    /** One round of stage 3: keep the zombie exactly if it is in `plist`. */
    method Judge(cur: Node, plist: array<Node?>, psize: nat, ghost observed: seq<Node?>)
      requires Valid() && Collected(nodes, plist[..], psize) && Sorted(plist[..], psize)
      requires forall n: Node :: n in plist[..psize] <==> n in observed
      requires cur in nodes && cur !in zombies && cur !in freed
      modifies this`p, this`number, this`zombies, this`lfl, this`freed, cur
      ensures Valid()
      ensures zombies == (if cur in observed then [cur] else []) + old(zombies)
      ensures freed == (if cur in observed then [] else [cur]) + old(freed)
    {
      var hazardous := Bsearch(cur, plist, psize, nodes);
      if hazardous {
        Keep(cur);
      } else {
        FreeNode(cur);
      }
    }

    /** Stage 3. */
    method Sweep(plist: array<Node?>, psize: nat, ghost observed: seq<Node?>)
      requires Valid() && Collected(nodes, plist[..], psize) && Sorted(plist[..], psize)
      requires forall n: Node :: n in plist[..psize] <==> n in observed
      modifies this, zombies
      ensures Valid()
      ensures zombies == Pushed(old(zombies), observed, true)
      ensures freed == Pushed(old(zombies), observed, false) + old(freed)
    {
      var tmplist := p;
      ghost var z, rest := zombies, zombies;
      p, number, zombies := null, 0, [];
      while tmplist != null
        invariant Linked(tmplist, rest) && Distinct(rest)
        invariant Valid() && Apart(rest, zombies) && Apart(rest, freed)
        invariant forall n :: n in rest ==> n in z && n in nodes
        invariant Pushed(rest, observed, true) + zombies == Pushed(z, observed, true)
        invariant Pushed(rest, observed, false) + freed == Pushed(z, observed, false) + old(freed)
        decreases |rest|
      {
        var cur := tmplist;
        tmplist := tmplist.mrNext;
        assert cur == rest[0] && cur in rest && cur !in rest[1..];
        PushedFirst(rest, observed, true, zombies);
        PushedFirst(rest, observed, false, freed);
        rest := rest[1..];
        Judge(cur, plist, psize, observed);
      }
    }

    /** `scan`: exactly the zombies that no slot was seen to hold are freed, the
        others stay. */
    method ScanSlots(observed: seq<Node?>)
      requires Valid() && Slots(observed)
      modifies this, zombies
      ensures Valid()
      ensures zombies == Pushed(old(zombies), observed, true)
      ensures freed == Pushed(old(zombies), observed, false) + old(freed)
      ensures |zombies| <= K * nbthreads && |zombies| + |freed| == |old(zombies)| + |old(freed)|
    {
      var plist, psize := Collect(observed);
      ghost var seen := plist[..psize];
      assert forall n: Node :: n in seen <==> n in observed;
      Qsort(plist, psize, nodes);
      SameMembers(plist[..], psize, seen);
      PushedSplits(zombies, observed);
      HeldFit(zombies, observed, seen);
      Sweep(plist, psize, observed);
    }

    /** `free_node_later`.  Between calls the zombie list has at most R nodes; a
        call that scans frees at least 101 + K * nbthreads of them. */
    method FreeNodeLater(node: Node, observed: seq<Node?>)
      requires Valid() && Slots(observed) && |zombies| <= R(nbthreads)
      requires node in nodes && node !in zombies && node !in freed
      modifies this, zombies, node
      ensures Valid() && number == |zombies| <= R(nbthreads)
      ensures |old(zombies)| < R(nbthreads) ==> zombies == [node] + old(zombies) && freed == old(freed)
      ensures |old(zombies)| == R(nbthreads) ==>
                && zombies == Pushed([node] + old(zombies), observed, true)
                && freed == Pushed([node] + old(zombies), observed, false) + old(freed)
                && |freed| >= |old(freed)| + 101 + K * nbthreads
    {
      Keep(node);
      if number > R(nbthreads) {
        ScanSlots(observed);
      }
    }
  }
}
