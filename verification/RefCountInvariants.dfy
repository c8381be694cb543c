/** The counting invariant of the reference-counted list, in every reachable
    state: each node's `rc` is exactly the number of its units. */
module RefCountInvariants {
  import opened Buckets
  import opened ListWriter
  import opened RefCounts

  // ----- units

  function Lookup(owns: map<Token, Ref>, tok: Token): Option<Ref> {
    if tok in owns then Some(owns[tok]) else None
  }

  /** The node a unit belongs to, read from the shared memory and the threads'
      local variables.  The link of a node is counted while the node is linked,
      from its recount after the unlink on, and until a dying node drops it: not
      in a new node, and not between unlink and recount. */
  function Target(w: World, tok: Token): Option<Ref> {
    match tok
    case HeadRef(b) => if b < |w.tb.heads| then w.tb.heads[b] else None
    case NextRef(n) => if n < |w.tb.mem| && n < |w.tb.status| && Counted(w.tb.status[n]) then w.tb.mem[n].next else None
    case Hold(t) => if t < |w.threads| then w.threads[t].hold else None
    case Grab(t) => if t < |w.threads| then w.threads[t].grab else None
    case Drop(t) => if t < |w.threads| then w.threads[t].drop else None
    case Own(t) => if t < |w.threads| then w.threads[t].own else None
  }

  ghost predicate Agree(w: World) {
    forall tok: Token :: Lookup(w.owns, tok) == Target(w, tok)
  }

  ghost function Units(owns: map<Token, Ref>, n: Ref): set<Token> {
    set tok | tok in owns && owns[tok] == n
  }

  ghost predicate Exact(w: World) {
    forall n: Ref {:trigger w.tb.mem[n]} {:trigger Units(w.owns, n)} :: n < |w.tb.mem| ==>
        w.tb.mem[n].rc == |Units(w.owns, n)|
  }

  lemma UnitsGain(owns: map<Token, Ref>, tok: Token, n: Ref)
    requires tok !in owns
    ensures forall m: Ref :: |Units(owns[tok := n], m)| == |Units(owns, m)| + if m == n then 1 else 0
  {
    forall m: Ref ensures |Units(owns[tok := n], m)| == |Units(owns, m)| + if m == n then 1 else 0 {
      UnitsGainAt(owns, tok, n, m);
    }
  }

  lemma UnitsGainAt(owns: map<Token, Ref>, tok: Token, n: Ref, m: Ref)
    requires tok !in owns
    ensures |Units(owns[tok := n], m)| == |Units(owns, m)| + if m == n then 1 else 0
  {
    var more, less := Units(owns[tok := n], m), Units(owns, m);
    forall tk: Token ensures tk in more <==> tk in less || (m == n && tk == tok) {}
    assert more == if m == n then less + {tok} else less;
  }

  lemma UnitsLose(owns: map<Token, Ref>, tok: Token)
    requires tok in owns
    ensures forall m: Ref :: |Units(owns, m)| == |Units(owns - {tok}, m)| + if m == owns[tok] then 1 else 0
    ensures forall tk: Token :: Lookup(owns - {tok}, tk) == if tk == tok then None else Lookup(owns, tk)
  {
    forall m: Ref ensures |Units(owns, m)| == |Units(owns - {tok}, m)| + if m == owns[tok] then 1 else 0 {
      var more, less := Units(owns, m), Units(owns - {tok}, m);
      forall tk: Token ensures tk in more <==> tk in less || (m == owns[tok] && tk == tok) {}
      assert more == if m == owns[tok] then less + {tok} else less;
    }
  }

  lemma UnitsRename(owns: map<Token, Ref>, a: Token, c: Token)
    requires a in owns ==> c !in owns
    ensures forall m: Ref :: |Units(Rename(owns, a, c), m)| == |Units(owns, m)|
    ensures forall tok: Token :: Lookup(Rename(owns, a, c), tok) ==
              if a !in owns then Lookup(owns, tok)
              else if tok == c then Some(owns[a])
              else if tok == a then None
              else Lookup(owns, tok)
  {
    if a in owns {
      UnitsLose(owns, a);
      UnitsGain(owns - {a}, c, owns[a]);
    }
  }

  lemma UnitsPositive(w: World, tok: Token, n: Ref)
    requires Agree(w) && Exact(w) && n < |w.tb.mem| && Target(w, tok) == Some(n)
    ensures w.tb.mem[n].rc > 0 && tok in Units(w.owns, n)
  {
    assert Lookup(w.owns, tok) == Target(w, tok);
    assert tok in Units(w.owns, n);
  }

  lemma UnitsTwo(w: World, tok: Token, tok2: Token, n: Ref)
    requires Agree(w) && Exact(w) && n < |w.tb.mem| && Target(w, tok) == Some(n) == Target(w, tok2) && tok != tok2
    ensures w.tb.mem[n].rc > 1
  {
    UnitsPositive(w, tok, n);
    UnitsPositive(w, tok2, n);
    assert {tok, tok2} <= Units(w.owns, n);
    assert |{tok, tok2}| == 2;
    SubsetSize({tok, tok2}, Units(w.owns, n));
  }

  lemma {:induction false} SubsetSize<T>(x: set<T>, y: set<T>)
    requires x <= y
    ensures |x| <= |y|
  {
    assert y == x + (y - x);
  }

  // ----- threads, nodes and buckets

  predicate InDec(pc: Pc) {
    pc.Asserting? || pc.Lowering? || pc.Bumping? || pc.Following? || pc.Unwinding?
  }

  predicate IsWriter(th: Thread) {
    th.pc.Writing? || th.pc.Initialising? || (InDec(th.pc) && th.after.EndDelete?)
  }

  /** The nodes of the recursion stack whose own link is already dropped. */
  function Dropped(th: Thread): seq<Ref> {
    if (th.pc.Bumping? || th.pc.Following?) && |th.dying| > 0 then th.dying[..|th.dying| - 1] else th.dying
  }

  /** The node a writer holds by a unit of its own. */
  function OwnNode(op: Op): Option<Ref> {
    match op
    case Reclaiming(n, _) => Some(n)
    case Keying(n, _, _, _) => Some(n)
    case Linking(n, _, _, _) => Some(n)
    case Publishing(n, _, _, _) => Some(n)
    case _ => None
  }

  ghost predicate StackOk(w: World, t: nat, s: seq<Ref>) {
    && (forall i :: 0 <= i < |s| ==> s[i] < |w.tb.status| && w.tb.status[s[i]] == Dead(t))
    && (forall i, j :: 0 <= i < j < |s| ==> s[i] != s[j])
  }

  ghost predicate PcOk(w: World, t: nat, th: Thread) {
    match th.pc
    case Resting => th == IDLE
    case Reading => th.grab.None? && th.drop.None? && th.own.None? && th.dying == []
    case Counting(q) => th.grab.None? && th.drop.None? && th.own.None? && th.dying == [] && q < |w.tb.mem|
    case Raising(q, seen) => th.grab.None? && th.drop.None? && th.own.None? && th.dying == []
        && q < |w.tb.mem| && seen > 0
    case Rechecking => th.grab.Some? && th.drop.None? && th.own.None? && th.dying == []
    case Comparing => th.hold.Some? && th.grab.None? && th.drop.None? && th.own.None? && th.dying == []
    case Asserting => th.drop.Some? && th.grab.None? && th.own.None?
    case Lowering => th.drop.Some? && th.grab.None? && th.own.None?
    case Bumping => th.drop.None? && th.grab.None? && th.own.None? && |th.dying| > 0
    case Following => th.drop.None? && th.grab.None? && th.own.None? && |th.dying| > 0
    case Unwinding => th.drop.None? && th.grab.None? && th.own.None?
    case Returned(_) => th.hold.None? && th.grab.None? && th.drop.None? && th.own.None? && th.dying == []
    case Initialising(op) =>
      th.hold.None? && th.grab.None? && th.drop.None? && th.own.None? && th.dying == [] && op.Keying?
          && OpOk(w.tb, th.b, t, op)
    case Writing(op) =>
      th.hold.None? && th.grab.None? && th.drop.None? && th.own == OwnNode(op) && th.dying == []
          && OpOk(w.tb, th.b, t, op)
      && (op.Reclaiming? ==> op.stage == 0)
  }

  ghost predicate ThreadOk(w: World, t: nat)
    requires t < |w.threads|
  {
    var th := w.threads[t];
    && (th.pc != Resting ==> th.b < |w.writer|)
    && OptOk(w, th.hold) && OptOk(w, th.grab) && OptOk(w, th.drop) && OptOk(w, th.own)
    && PcOk(w, t, th)
    && StackOk(w, t, Dropped(th))
    && ((th.pc.Bumping? || th.pc.Following?) && |th.dying| > 0 ==>
          Last(th.dying) < |w.tb.status| && w.tb.status[Last(th.dying)] == Dying(t))
    && (InDec(th.pc) && (th.after.Answer? || th.after.EndDelete?) ==> th.hold.None?)
    && (IsWriter(th) ==> th.b < |w.writer| && w.writer[th.b] == Some(t))
  }

  ghost predicate NodeOk(w: World, n: Ref)
    requires n < |w.tb.mem| == |w.tb.status|
  {
    match w.tb.status[n]
    case Free => w.tb.mem[n].rc == 0
    case Private(t) =>
      && t < |w.threads|
      && (if w.threads[t].pc.Initialising?
          then OwnNode(w.threads[t].pc.op) == Some(n) && w.tb.mem[n].rc == 0
          else w.threads[t].pc.Writing? && w.threads[t].own == Some(n))
    case Linked(b) => b < |w.writer|
    case Unlinked(b) =>
      && b < |w.writer| && w.writer[b].Some? && w.writer[b].value < |w.threads|
      && w.threads[w.writer[b].value].pc == Writing(Reclaiming(n, 0))
    case Retired(_) => w.tb.mem[n].rc > 0
    case Dying(t) =>
      && w.tb.mem[n].rc == 0 && t < |w.threads|
      && (w.threads[t].pc.Bumping? || w.threads[t].pc.Following?)
      && |w.threads[t].dying| > 0 && Last(w.threads[t].dying) == n
    case Dead(t) => w.tb.mem[n].rc == 0 && t < |w.threads| && n in Dropped(w.threads[t])
  }

  ghost predicate WriterOk(w: World, b: nat)
    requires b < |w.writer|
  {
    w.writer[b].Some? ==>
      w.writer[b].value < |w.threads| && IsWriter(w.threads[w.writer[b].value]) && w.threads[w.writer[b].value].b == b
  }

  ghost predicate Inv(w: World) {
    && WellFormed(w.tb)
    && |w.writer| == |w.tb.heads| && |w.removed| == |w.tb.mem|
    && Agree(w) && Exact(w)
    && (forall t: nat {:trigger w.threads[t]} {:trigger ThreadOk(w, t)} :: t < |w.threads| ==> ThreadOk(w, t))
    && (forall n: Ref {:trigger w.tb.status[n]} {:trigger NodeOk(w, n)} :: n < |w.tb.mem| ==> NodeOk(w, n))
    && (forall b: nat {:trigger w.writer[b]} {:trigger WriterOk(w, b)} :: b < |w.writer| ==> WriterOk(w, b))
  }

  // ----- frames

  /** A step that leaves the lists, the new nodes and the unlinked node alone. */
  ghost predicate OffList(tb: Table, tb': Table, t: nat) {
    && tb'.heads == tb.heads && |tb'.mem| == |tb.mem| == |tb.status| == |tb'.status|
    && (forall n: Ref :: n < |tb.mem| ==> tb'.mem[n].key == tb.mem[n].key && tb'.mem[n].next == tb.mem[n].next)
    && (forall n: Ref :: n < |tb.mem| && Fixed(tb.status[n], t) ==> tb'.status[n] == tb.status[n])
    && (forall n: Ref :: n < |tb.mem| && Fixed(tb'.status[n], t) ==> tb'.status[n] == tb.status[n])
  }

  predicate Fixed(s: Status, t: nat) {
    s.Linked? || s.Private? || s.Unlinked? || (s.Dying? && s.who != t) || (s.Dead? && s.who != t)
  }

  lemma OffListOp(tb: Table, tb': Table, t: nat, b: nat, u: nat, op: Op)
    requires WellFormed(tb) && OffList(tb, tb', t) && OpOk(tb, b, u, op) && (op.Reclaiming? ==> op.stage == 0)
    ensures OpOk(tb', b, u, op)
  {
    assert SameBucket(tb, tb', b);
    SameBucketKeeps(tb, tb', b);
    assert BucketOk(tb, b);
    SameBucketPosition(tb, tb', b, op);
  }

  lemma OffListWellFormed(tb: Table, tb': Table, t: nat)
    requires WellFormed(tb) && OffList(tb, tb', t)
    ensures WellFormed(tb')
  {
    forall b: nat | b < |tb'.heads| ensures BucketOk(tb', b) {
      assert BucketOk(tb, b);
      assert SameBucket(tb, tb', b);
      SameBucketKeeps(tb, tb', b);
    }
  }

  /** Everything but thread `t` and the node `p` it touches is as before. */
  ghost predicate Touches(w: World, t: nat, p: Option<Ref>, w': World) {
    && OffList(w.tb, w'.tb, t)
    && |w'.threads| == |w.threads| && t < |w.threads|
    && (forall u: nat :: u < |w.threads| && u != t ==> w'.threads[u] == w.threads[u])
    && w'.writer == w.writer && w'.removed == w.removed
    && (forall n: Ref :: n < |w.tb.mem| && p != Some(n) ==>
          w'.tb.mem[n].rc == w.tb.mem[n].rc && w'.tb.status[n] == w.tb.status[n])
  }

  lemma OtherThread(w: World, t: nat, p: Option<Ref>, w': World, u: nat)
    requires Inv(w) && Touches(w, t, p, w') && u < |w.threads| && u != t
    ensures ThreadOk(w', u)
  {
    var th := w.threads[u];
    assert ThreadOk(w, u);
    if th.pc.Writing? || th.pc.Initialising? {
      OffListOp(w.tb, w'.tb, t, th.b, u, th.pc.op);
    }
  }

  lemma LocalFrame(w: World, t: nat, p: Option<Ref>, w': World)
    requires Inv(w) && Touches(w, t, p, w')
    requires Agree(w') && Exact(w') && ThreadOk(w', t)
    requires IsWriter(w.threads[t]) ==> IsWriter(w'.threads[t]) && w'.threads[t].b == w.threads[t].b
    requires p.Some? && p.value < |w.tb.mem| ==> NodeOk(w', p.value)
    requires forall n: Ref :: n < |w.tb.mem| && p != Some(n)
                && (w.tb.status[n] == Dying(t) || w.tb.status[n] == Dead(t) || w.tb.status[n] == Private(t) || w.tb.status[n].Unlinked?)
                ==> NodeOk(w', n)
    ensures Inv(w')
  {
    OffListWellFormed(w.tb, w'.tb, t);
    forall u: nat | u < |w'.threads| ensures ThreadOk(w', u) {
      if u != t {
        OtherThread(w, t, p, w', u);
      }
    }
    forall n: Ref | n < |w'.tb.mem| ensures NodeOk(w', n) {
      assert NodeOk(w, n);
    }
    forall b: nat | b < |w'.writer| ensures WriterOk(w', b) {
      assert WriterOk(w, b);
    }
  }
}
