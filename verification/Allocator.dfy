/** The default free lists of allocator_malloc.c, used by one thread: a local list
    that is spliced to the global one every AMORT_FREE_ON frees.  `get_free` does
    not maintain `lfl_tail` and `lcnt`, so `lfl_tail` may name a node that is in
    use again, and a flush may drop nodes; no node is ever handed out twice. */
module Allocator {
  import opened Sequences

  const AMORT_FREE_ON: nat := 100

  class Node {
    var key: int
    var next: Node?
    var mrNext: Node?
    var rc: nat
    var gc: nat

    /** `calloc`. */
    constructor ()
      ensures key == 0 && next == null && mrNext == null && rc == 0 && gc == 0
    {
      key, next, mrNext, rc, gc := 0, null, null, 0, 0;
    }
  }

  /** Following `mr_next` from `p` meets the nodes `s` and then null. */
  ghost predicate Chain(p: Node?, s: seq<Node>)
    reads s
  {
    if s == [] then p == null else p == s[0] && Chain(s[0].mrNext, s[1..])
  }

  ghost predicate Apart(a: seq<Node>, b: seq<Node>) {
    forall i, j :: 0 <= i < |a| && 0 <= j < |b| ==> a[i] != b[j]
  }

  ghost predicate Outside(a: seq<Node>, used: set<Node>) {
    forall i :: 0 <= i < |a| ==> a[i] !in used
  }

  /** The global list after a flush of the local list `s`, when `tail`'s link is
      made to lead to the old global list `g`. */
  ghost function Spliced(s: seq<Node>, tail: Node, g: seq<Node>): seq<Node> {
    if s == [] then [] else if s[0] == tail then [tail] + g else [s[0]] + Spliced(s[1..], tail, g)
  }

  lemma {:induction false} SplicedAt(s: seq<Node>, tail: Node, g: seq<Node>, k: nat)
    requires Distinct(s) && k < |s| && s[k] == tail
    ensures Spliced(s, tail, g) == s[..k + 1] + g
  {
    if k > 0 {
      SplicedAt(s[1..], tail, g, k - 1);
      assert s[..k + 1] == [s[0]] + s[1..][..k];
    } else {
      assert s[..1] == [tail];
    }
  }

  lemma {:induction false} SplicedAbsent(s: seq<Node>, tail: Node, g: seq<Node>)
    requires tail !in s
    ensures Spliced(s, tail, g) == s
  {
    if s != [] {
      SplicedAbsent(s[1..], tail, g);
    }
  }

  /** If `tail` is not the end of `s`, a flush drops what follows it; if `tail` is
      not in `s` at all, the flush drops `g`. */
  lemma SplicedIs(s: seq<Node>, tail: Node, g: seq<Node>, k: nat)
    requires Distinct(s)
    ensures k < |s| && s[k] == tail ==> Spliced(s, tail, g) == s[..k + 1] + g
    ensures tail !in s ==> Spliced(s, tail, g) == s
  {
    if k < |s| && s[k] == tail {
      SplicedAt(s, tail, g, k);
    } else if tail !in s {
      SplicedAbsent(s, tail, g);
    }
  }

  /** A flush makes up no node and repeats none. */
  lemma {:induction false} SplicedParts(s: seq<Node>, tail: Node, g: seq<Node>)
    requires Distinct(s) && Distinct(g) && Apart(s, g)
    ensures Distinct(Spliced(s, tail, g))
    ensures forall i :: 0 <= i < |Spliced(s, tail, g)| ==> Spliced(s, tail, g)[i] in s || Spliced(s, tail, g)[i] in g
  {
    if s != [] && s[0] != tail {
      SplicedParts(s[1..], tail, g);
    }
  }

  /** The link of every node of `s` but `tail` leads to the next node of `s`. */
  ghost predicate LinksBut(p: Node?, s: seq<Node>, tail: Node?)
    reads s
  {
    && (s == [] ==> p == null) && (s != [] ==> p == s[0])
    && (forall i :: 0 <= i < |s| - 1 && s[i] != tail ==> s[i].mrNext == s[i + 1])
    && (s != [] && s[|s| - 1] != tail ==> s[|s| - 1].mrNext == null)
  }

  lemma {:induction false} ChainLinks(p: Node?, s: seq<Node>)
    requires Chain(p, s)
    ensures LinksBut(p, s, null)
  {
    if |s| > 1 {
      ChainLinks(s[0].mrNext, s[1..]);
      forall i | 0 <= i < |s| - 1 ensures s[i].mrNext == s[i + 1] {
        assert i > 0 ==> s[1..][i - 1].mrNext == s[1..][i];
      }
    }
  }

  /** What the store `tail->mr_next = freelist` makes of the two chains. */
  lemma {:induction false} SpliceChain(p: Node?, s: seq<Node>, tail: Node, freelist: Node?, g: seq<Node>)
    requires LinksBut(p, s, tail) && Chain(freelist, g) && (tail in s ==> tail.mrNext == freelist)
    ensures Chain(p, Spliced(s, tail, g))
    decreases |s|
  {
    if s != [] && s[0] != tail {
      assert |s| > 1 ==> s[0].mrNext == s[0 + 1];
      forall i | 0 <= i < |s| - 2 && s[1..][i] != tail ensures s[1..][i].mrNext == s[1..][i + 1] {
        assert s[i + 1].mrNext == s[i + 2];
      }
      SpliceChain(s[0].mrNext, s[1..], tail, freelist, g);
    }
  }

  /** The free lists, and what their one user holds. */
  class Lists {
    var lfl: Node?
    var lflTail: Node?
    var lcnt: nat
    var freelist: Node?
    ghost var local: seq<Node>
    ghost var global: seq<Node>
    ghost var used: set<Node>   // handed out and not freed
    ghost var all: set<Node>    // everything ever obtained from calloc

    ghost predicate Valid()
      reads this, local, global
    {
      && Chain(lfl, local) && Chain(freelist, global)
      && Distinct(local) && Distinct(global) && Apart(local, global)
      && Outside(local, used) && Outside(global, used)
      && (lflTail == null || lflTail in local || lflTail in used)
      && lcnt < AMORT_FREE_ON
      && used <= all
      && (forall i :: 0 <= i < |local| ==> local[i] in all)
      && (forall i :: 0 <= i < |global| ==> global[i] in all)
    }

    constructor ()
      ensures Valid() && local == [] && global == [] && used == {} && all == {}
      ensures lflTail == null && lcnt == 0 && freelist == null
    {
      lfl, lflTail, lcnt, freelist := null, null, 0, null;
      local, global, used, all := [], [], {}, {};
    }

    /** `get_free`: the head of the local list, refilled by the whole global list
        when it is empty. */
    method GetFree() returns (node: Node?)
      requires Valid()
      modifies this
      ensures Valid() && all == old(all)
      ensures var s := old(if local == [] then global else local);
              && (node == null <==> s == [])
              && (node != null ==> node == s[0] && node !in old(used) && used == old(used) + {node})
              && local == (if s == [] then [] else s[1..])
              && global == (if old(local) == [] then [] else old(global))
              && (node == null ==> used == old(used))
      ensures lflTail == old(lflTail) && lcnt == old(lcnt)
      ensures freelist == if old(local) == [] then null else old(freelist)
    {
      if lfl == null {
        lfl, local := freelist, global;
        freelist, global := null, [];
        if lfl == null {
          return null;
        }
      }
      node := lfl;
      lfl := node.mrNext;
      local, used := local[1..], used + {node};
    }

    /** `new_node`: a node nobody uses, from the lists or new. */
    method NewNode() returns (node: Node)
      requires Valid()
      modifies this
      ensures Valid() && node !in old(used) && used == old(used) + {node}
      ensures old(local) + old(global) == [] ==> fresh(node) && all == old(all) + {node} && node.gc == 0 && node.rc == 0
      ensures old(local) + old(global) != [] ==> node in old(all) && all == old(all)
      ensures old(local) != [] ==> node == old(local[0])
      ensures lflTail == old(lflTail) && lcnt == old(lcnt) && (old(freelist) == null ==> freelist == null)
    {
      var got := GetFree();
      if got != null {
        node := got;
      } else {
        node := new Node();
        used, all := used + {node}, all + {node};
      }
    }

    /** `add_free` and with it `free_node`, of a node in use.  Only `mr_next`
        fields are stored to: no node's key, next, rc or gc changes.  Of the nodes
        that stay in use at most one is stored to, the one `lfl_tail` still names,
        and that only by a flush. */
    method AddFree(p: Node)
      requires Valid() && p in used
      modifies this, all`mrNext
      ensures Valid() && used == old(used) - {p} && all == old(all)
      ensures old(lcnt) + 1 < AMORT_FREE_ON ==>
                && local == [p] + old(local) && global == old(global) && lcnt == old(lcnt) + 1
                && lflTail == (if old(lflTail) == null then p else old(lflTail)) && freelist == old(freelist)
      ensures old(lcnt) + 1 == AMORT_FREE_ON ==>
                && local == [] && lcnt == 0 && lflTail == null
                && global == Spliced([p] + old(local), if old(lflTail) == null then p else old(lflTail), old(global))
      ensures forall n :: n in used ==>
                n.mrNext == (if old(lcnt) + 1 == AMORT_FREE_ON && n == old(lflTail) then old(freelist) else old(n.mrNext))
    {
      if lflTail == null {
        lflTail := p;
      }
      p.mrNext := lfl;
      lfl, lcnt := p, lcnt + 1;
      used, local := used - {p}, [p] + local;
      if lcnt >= AMORT_FREE_ON {
        Flush();
      }
    }

    method Flush()
      requires Chain(lfl, local) && Chain(freelist, global) && lflTail != null
      requires Distinct(local) && Distinct(global) && Apart(local, global)
      requires Outside(local, used) && Outside(global, used) && (lflTail in local || lflTail in used)
      requires used <= all && (forall i :: 0 <= i < |local| ==> local[i] in all)
      requires (forall i :: 0 <= i < |global| ==> global[i] in all)
      modifies this, lflTail`mrNext
      ensures Valid() && used == old(used) && all == old(all)
      ensures local == [] && lcnt == 0 && lflTail == null && global == Spliced(old(local), old(lflTail), old(global))
      ensures old(lflTail).mrNext == old(freelist)
    {
      ChainLinks(lfl, local);
      lflTail.mrNext := freelist;
      SpliceChain(lfl, local, lflTail, freelist, global);
      SplicedParts(local, lflTail, global);
      freelist, global := lfl, Spliced(local, lflTail, global);
      lflTail, lfl, lcnt, local := null, null, 0, [];
    }
  }

  /** A reachable run in which a flush stores to a node in use: `a` is freed first,
      so `lfl_tail` names it, and handed out again; its owner links it to `z`, as
      hp.c links its zombies; the 100th free then overwrites that link. */
  method FlushBreaksLink() returns (lists: Lists, a: Node, z: Node)
    ensures fresh(lists) && lists.Valid() && a in lists.used && z in lists.used && a != z && a.mrNext == null
  {
    lists := new Lists();
    a := lists.NewNode();
    z := lists.NewNode();
    assert a in lists.used && z in lists.used && a != z;
    lists.AddFree(a);
    var again := lists.NewNode();
    assert again == a;
    a.mrNext := z;
    var x := lists.NewNode();
    while lists.lcnt + 1 < AMORT_FREE_ON
      invariant lists.Valid() && fresh(lists) && lists.lflTail == a && a.mrNext == z && lists.freelist == null
      invariant a in lists.used && z in lists.used && a != z && x in lists.used && x != a && x != z
      invariant fresh(lists.all)
      decreases AMORT_FREE_ON - lists.lcnt
    {
      lists.AddFree(x);
      x := lists.NewNode();
    }
    lists.AddFree(x);
  }
}
