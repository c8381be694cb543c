/** How far a traversal is from the end of its list. */
module Progress {
  import opened Buckets
  import opened ListWriter

  /** The nodes of bucket `b` beyond the link `prev`. */
  ghost function Ahead(tb: Table, b: nat, prev: Loc): set<Ref> {
    Beyond(tb, b, if prev.NextOf? && prev.node < |tb.mem| then Some(tb.mem[prev.node].key) else None)
  }

  lemma {:induction false} Within(s: set<Ref>, n: nat)
    requires forall x: Ref :: x in s ==> x < n
    ensures |s| <= n
  {
    if n > 0 {
      Within(s - {n - 1}, n - 1);
      assert s <= (s - {n - 1}) + {n - 1};
    } else {
      assert s == {};
    }
  }

  lemma AheadIsFew(tb: Table, b: nat, prev: Loc)
    ensures |Ahead(tb, b, prev)| <= |tb.mem|
  {
    Within(Ahead(tb, b, prev), |tb.mem|);
  }

  lemma Fewer(x: set<Ref>, y: set<Ref>, n: Ref)
    requires x <= y && n in y && n !in x
    ensures |x| < |y|
  {
    assert y == x + (y - x) && n in y - x;
  }

  /** Every hop of a writer leaves a node behind. */
  lemma HopShortens(tb: Table, b: nat, who: nat, op: Op)
    requires WellFormed(tb) && op.Walking? && OpOk(tb, b, who, op) && WalkNext(tb, op).Walking?
    ensures |Ahead(tb, b, WalkNext(tb, op).prev)| < |Ahead(tb, b, op.prev)|
  {
    AtDecides(tb, b, op.prev, op.cur, op.key);
    var before, after := Ahead(tb, b, op.prev), Ahead(tb, b, WalkNext(tb, op).prev);
    assert op.cur.value in before && op.cur.value !in after;
    assert after <= before;
    Fewer(after, before, op.cur.value);
  }
}
