/** Walks along next links, through nodes on the lists or off them: when a walk ends,
    how long it is, and which stores keep all walks finite. */
module Chains {
  import opened Buckets
  import opened ListWriter
  import opened Sequences

  /** Exactly `k` nodes are met from `p` on before the null pointer. */
  ghost predicate Ends(mem: seq<Node>, p: Option<Ref>, k: nat)
    decreases k
  {
    match p
    case None => k == 0
    case Some(n) => k > 0 && n < |mem| && Ends(mem, mem[n].next, k - 1)
  }

  ghost predicate Finite(mem: seq<Node>, n: Ref) {
    exists k: nat :: Ends(mem, Some(n), k)
  }

  ghost predicate NoCycle(mem: seq<Node>) {
    forall n: Ref :: n < |mem| ==> Finite(mem, n)
  }

  lemma {:induction false} EndsUnique(mem: seq<Node>, p: Option<Ref>, j: nat, k: nat)
    requires Ends(mem, p, j) && Ends(mem, p, k)
    ensures j == k
    decreases j
  {
    if p.Some? {
      EndsUnique(mem, mem[p.value].next, j - 1, k - 1);
    }
  }

  // ----- the length of a walk

  ghost function Walk(mem: seq<Node>, p: Option<Ref>, k: nat): (s: seq<Ref>)
    requires Ends(mem, p, k)
    ensures |s| == k
    decreases k
  {
    if p.None? then [] else [p.value] + Walk(mem, mem[p.value].next, k - 1)
  }

  lemma {:induction false} WalkAt(mem: seq<Node>, p: Option<Ref>, k: nat, i: nat)
    requires Ends(mem, p, k) && i < k
    ensures Walk(mem, p, k)[i] < |mem| && Ends(mem, Some(Walk(mem, p, k)[i]), k - i)
    decreases k
  {
    if i > 0 {
      WalkAt(mem, mem[p.value].next, k - 1, i - 1);
    }
  }

  /** A walk meets no node twice, so it is no longer than the memory. */
  lemma WalkIsShort(mem: seq<Node>, p: Option<Ref>, k: nat)
    requires Ends(mem, p, k)
    ensures k <= |mem|
  {
    var s := Walk(mem, p, k);
    var all := seq(|mem|, i requires 0 <= i < |mem| => i);
    forall i, j | 0 <= i < j < |s| ensures s[i] != s[j] {
      WalkAt(mem, p, k, i);
      WalkAt(mem, p, k, j);
      if s[i] == s[j] {
        EndsUnique(mem, Some(s[i]), k - i, k - j);
      }
    }
    forall i | 0 <= i < |s| ensures s[i] in all {
      WalkAt(mem, p, k, i);
      assert all[s[i]] == s[i];
    }
    DistinctWithin<int>(s, all);
  }

  // ----- stores to a next field

  ghost predicate SameNexts(mem: seq<Node>, mem': seq<Node>) {
    |mem'| == |mem| && forall n: Ref :: n < |mem| ==> mem'[n].next == mem[n].next
  }

  lemma {:induction false} SameEnds(mem: seq<Node>, mem': seq<Node>, p: Option<Ref>, k: nat)
    requires SameNexts(mem, mem') && Ends(mem, p, k)
    ensures Ends(mem', p, k)
    decreases k
  {
    if p.Some? {
      SameEnds(mem, mem', mem[p.value].next, k - 1);
    }
  }

  lemma SameNoCycle(mem: seq<Node>, mem': seq<Node>)
    requires SameNexts(mem, mem') && NoCycle(mem)
    ensures NoCycle(mem')
  {
    forall n: Ref | n < |mem'| ensures Finite(mem', n) {
      assert Finite(mem, n);
      var k: nat :| Ends(mem, Some(n), k);
      SameEnds(mem, mem', Some(n), k);
    }
  }

  /** Only the next field of node `n` changed, to `p`. */
  ghost predicate NextStored(mem: seq<Node>, mem': seq<Node>, n: Ref, p: Option<Ref>) {
    && n < |mem| == |mem'| && mem'[n].next == p
    && forall m: Ref :: m < |mem| && m != n ==> mem'[m].next == mem[m].next
  }

  /** The walk from `p` does not meet `n`. */
  ghost predicate Misses(mem: seq<Node>, p: Option<Ref>, n: Ref) {
    forall steps: nat :: !Reaches(mem, p, n, steps)
  }

  lemma {:induction false} MissEnds(mem: seq<Node>, mem': seq<Node>, n: Ref, target: Option<Ref>, p: Option<Ref>, k: nat)
    requires NextStored(mem, mem', n, target) && Ends(mem, p, k) && Misses(mem, p, n)
    ensures Ends(mem', p, k)
    decreases k
  {
    if p.Some? {
      assert !Reaches(mem, p, n, 0);
      forall steps: nat ensures !Reaches(mem, mem[p.value].next, n, steps) {
        assert !Reaches(mem, p, n, steps + 1);
      }
      MissEnds(mem, mem', n, target, mem[p.value].next, k - 1);
    }
  }

  lemma {:induction false} StoreEnds(
      mem: seq<Node>, mem': seq<Node>, n: Ref, target: Option<Ref>, j: nat, p: Option<Ref>, k: nat)
    returns (k': nat)
    requires NextStored(mem, mem', n, target) && Ends(mem', target, j) && Ends(mem, p, k)
    ensures Ends(mem', p, k')
    decreases k
  {
    if p.None? {
      k' := 0;
    } else if p.value == n {
      k' := j + 1;
    } else {
      var rest := StoreEnds(mem, mem', n, target, j, mem[p.value].next, k - 1);
      k' := rest + 1;
    }
  }

  /** A store whose new target does not lead back to the node stored to closes no cycle. */
  lemma StoreKeepsNoCycle(mem: seq<Node>, mem': seq<Node>, n: Ref, target: Option<Ref>)
    requires NoCycle(mem) && NextStored(mem, mem', n, target)
    requires (target.Some? ==> target.value < |mem|) && Misses(mem, target, n)
    ensures NoCycle(mem')
  {
    var j: nat := 0;
    if target.Some? {
      assert Finite(mem, target.value);
      j :| Ends(mem, target, j);
    }
    MissEnds(mem, mem', n, target, target, j);
    forall m: Ref | m < |mem'| ensures Finite(mem', m) {
      assert Finite(mem, m);
      var k: nat :| Ends(mem, Some(m), k);
      var k' := StoreEnds(mem, mem', n, target, j, Some(m), k);
    }
  }

  // ----- the writers' three stores

  /** From inside a list one only comes to larger keys of the list. */
  lemma MissesBelow(tb: Table, b: nat, lo: Option<int>, p: Option<Ref>, n: Ref)
    requires WellFormed(tb) && b < |tb.heads| && First(tb, b, lo, p)
    requires LinkedIn(tb, b, n) ==> !Above(lo, tb.mem[n].key)
    ensures Misses(tb.mem, p, n)
  {
    forall steps: nat ensures !Reaches(tb.mem, p, n, steps) {
      if Reaches(tb.mem, p, n, steps) {
        WalkStays(tb, b, lo, p, n, steps);
      }
    }
  }

  lemma LowOf(tb: Table, b: nat, prev: Loc, cur: Option<Ref>, key: int) returns (lo: Option<int>)
    requires WellFormed(tb) && At(tb, b, prev, cur, key)
    ensures First(tb, b, lo, cur) && lo == if prev.Head? then None else Some(tb.mem[prev.node].key)
  {
    assert BucketOk(tb, b);
    lo := if prev.Head? then None else Some(tb.mem[prev.node].key);
  }

  /** `new->next = cur` */
  lemma LinkKeeps(tb: Table, b: nat, who: nat, op: Op)
    requires WellFormed(tb) && NoCycle(tb.mem) && op.Linking? && OpOk(tb, b, who, op)
    ensures NoCycle(StoreNext(tb, op.node, op.cur).mem)
  {
    var lo := LowOf(tb, b, op.prev, op.cur, op.key);
    MissesBelow(tb, b, lo, op.cur, op.node);
    StoreKeepsNoCycle(tb.mem, StoreNext(tb, op.node, op.cur).mem, op.node, op.cur);
  }

  /** `*prev = cur->next` */
  lemma UnlinkKeeps(tb: Table, b: nat, who: nat, op: Op)
    requires WellFormed(tb) && NoCycle(tb.mem) && op.Unlinking? && OpOk(tb, b, who, op)
    ensures NoCycle(Unlink(tb, b, op.prev, op.node).mem)
  {
    var next := tb.mem[op.node].next;
    var mem' := Unlink(tb, b, op.prev, op.node).mem;
    var lo := LowOf(tb, b, op.prev, Some(op.node), op.key);
    assert BucketOk(tb, b);
    if op.prev.NextOf? {
      MissesBelow(tb, b, Some(tb.mem[op.node].key), next, op.prev.node);
      StoreKeepsNoCycle(tb.mem, mem', op.prev.node, next);
    } else {
      SameNoCycle(tb.mem, mem');
    }
  }

  /** `*prev = new` */
  lemma PublishKeeps(tb: Table, b: nat, who: nat, op: Op)
    requires WellFormed(tb) && NoCycle(tb.mem) && op.Publishing? && OpOk(tb, b, who, op)
    ensures NoCycle(Publish(tb, b, op.prev, op.node).mem)
  {
    var n := op.node;
    var mem' := Publish(tb, b, op.prev, n).mem;
    if op.prev.NextOf? {
      var lo := LowOf(tb, b, op.prev, op.cur, op.key);
      MissesBelow(tb, b, lo, op.cur, op.prev.node);
      forall steps: nat ensures !Reaches(tb.mem, Some(n), op.prev.node, steps) {
        if steps > 0 {
          assert !Reaches(tb.mem, op.cur, op.prev.node, steps - 1);
        }
      }
      StoreKeepsNoCycle(tb.mem, mem', op.prev.node, Some(n));
    } else {
      SameNoCycle(tb.mem, mem');
    }
  }
}
