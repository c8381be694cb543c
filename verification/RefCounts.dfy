/** Lock-free reference counting: rc.c and list_rc.c over list_writer.c.

    Every thread searches, inserts or deletes, one shared access per step.  A
    search holds a counted reference to the node it stands on; whoever drops the
    last reference of a node drops the node's own reference to its successor,
    recursively, and frees on the way back.  One writer is active per bucket. */
module RefCounts {
  import opened Buckets
  import opened ListWriter

  /** The units a node's `rc` is made of. */
  datatype Token =
    | HeadRef(b: nat)   // *head points to it
    | NextRef(n: Ref)   // n->next points to it, and the link is counted
    | Hold(t: nat)      // thread t's cur
    | Grab(t: nat)      // the node safe_read has just counted
    | Drop(t: nat)      // the argument of a running lfrc_refcnt_dec
    | Own(t: nat)       // a writer's new or unlinked node

  /** What follows a call of lfrc_refcnt_dec. */
  datatype After = ReadAgain | Advance | Answer(found: bool) | EndDelete

  datatype Pc =
    | Resting
    | Reading                    // safe_read: q = *p
    | Counting(q: Ref)           // increment_if_not_zero: old = *p
    | Raising(q: Ref, seen: nat)  // increment_if_not_zero: CAS
    | Rechecking                 // safe_read: q == *p
    | Comparing                  // cur->key >= key
    | Asserting                  // lfrc_refcnt_dec: assert(p->rc > 0)
    | Lowering                   // lfrc_refcnt_dec: atomic_xadd4(&p->rc, -1)
    | Bumping                    // lfrc_refcnt_dec: p->gc++
    | Following                  // lfrc_refcnt_dec: p->next
    | Unwinding                  // lfrc_refcnt_dec: rc_free_node(p), return
    | Returned(found: bool)
    | Initialising(op: Op)       // init_new_node: atomic_xadd4(&new->rc, 1)
    | Writing(op: Op)            // Reclaiming: lfrc_refcnt_inc(n->next)

  /** `dying` is the recursion stack of lfrc_refcnt_dec; `start` is the instant
      the current search was called. */
  datatype Thread = Thread(pc: Pc, after: After, b: nat, key: int, hold: Option<Ref>, grab: Option<Ref>,
                           drop: Option<Ref>, own: Option<Ref>, dying: seq<Ref>, start: nat)

  /** The instant of a node's last unlink, and the bucket it left. */
  datatype Removal = Removal(at: nat, bucket: nat)

  /** `owns`, `writer`, `now` and `removed` are history: which node each token
      is a unit of, who writes each bucket, the instant, and each node's last
      unlink.  A node's status is `Unlinked` until its link is
      counted again, `Retired` after. */
  datatype World = World(tb: Table, threads: seq<Thread>, owns: map<Token, Ref>,
                         writer: seq<Option<nat>>, now: nat, removed: seq<Removal>)

  const IDLE: Thread := Thread(Resting, ReadAgain, 0, 0, None, None, None, None, [], 0)

  predicate Counted(s: Status) {
    s.Linked? || s.Retired? || s.Dying?
  }

  function LinkToken(b: nat, loc: Loc): Token {
    match loc
    case Head => HeadRef(b)
    case NextOf(n) => NextRef(n)
  }

  // ----- the steps

  function WithRc(tb: Table, n: Ref, rc: nat): Table
    requires n < |tb.mem|
  {
    tb.(mem := tb.mem[n := tb.mem[n].(rc := rc)])
  }

  function WithGc(tb: Table, n: Ref): Table
    requires n < |tb.mem|
  {
    tb.(mem := tb.mem[n := tb.mem[n].(gc := tb.mem[n].gc + 1)])
  }

  /** The unit `a` becomes the unit `c`. */
  function Rename(owns: map<Token, Ref>, a: Token, c: Token): map<Token, Ref> {
    if a in owns then (owns - {a})[c := owns[a]] else owns
  }

  function SetThread(w: World, t: nat, th: Thread): World
    requires t < |w.threads|
  {
    w.(threads := w.threads[t := th])
  }

  /** The link `safe_read` reads: the head, or the next field of the held node. */
  function ReadLoc(th: Thread): Loc {
    match th.hold
    case None => Head
    case Some(n) => NextOf(n)
  }

  datatype Choice = Choice(search: bool, b: nat, del: bool, key: int, node: Ref)

  predicate OptOk(w: World, p: Option<Ref>) {
    p.Some? ==> p.value < |w.tb.mem|
  }

  predicate Enabled(w: World, t: nat, c: Choice) {
    && t < |w.threads| && Shaped(w.tb) && |w.writer| == |w.tb.heads| && |w.removed| == |w.tb.mem|
    && var th := w.threads[t];
       match th.pc
       case Resting => c.b < |w.writer| && (c.search || w.writer[c.b] == None)
       case Reading => LocOk(w.tb, th.b, ReadLoc(th))
       case Counting(q) => q < |w.tb.mem|
       case Raising(q, _) => q < |w.tb.mem|
       case Rechecking => LocOk(w.tb, th.b, ReadLoc(th)) && th.grab.Some?
       case Comparing => th.hold.Some? && OptOk(w, th.hold)
       case Asserting => th.drop.Some? && OptOk(w, th.drop)
       case Lowering => th.drop.Some? && OptOk(w, th.drop) && w.tb.mem[th.drop.value].rc > 0
       case Bumping => |th.dying| > 0 && th.dying[|th.dying| - 1] < |w.tb.mem|
       case Following => |th.dying| > 0 && th.dying[|th.dying| - 1] < |w.tb.mem|
       case Unwinding => th.b < |w.writer| && (|th.dying| > 0 ==> th.dying[|th.dying| - 1] < |w.tb.mem|)
       case Returned(_) => true
       case Initialising(op) => op.Keying? && op.node < |w.tb.mem|
       case Writing(op) =>
         && th.b < |w.writer|
         && match op
            case Idle(_) => true
            case Walking(_, _, _, _) => true
            case Unlinking(_, prev, n) => LocOk(w.tb, th.b, prev) && n < |w.tb.mem|
            case Reclaiming(n, _) => n < |w.tb.mem| && OptOk(w, w.tb.mem[n].next)
            case Allocating(_, _, _) => c.node < |w.tb.mem| && w.tb.status[c.node] == Free
            case Keying(n, _, _, _) => n < |w.tb.mem|
            case Linking(n, _, _, _) => n < |w.tb.mem|
            case Publishing(n, _, prev, _) => LocOk(w.tb, th.b, prev) && n < |w.tb.mem|
  }

  // `search` and `safe_read`

  function ReadNext(w: World, t: nat): World
    requires t < |w.threads| && LocOk(w.tb, w.threads[t].b, ReadLoc(w.threads[t]))
  {
    var th := w.threads[t];
    var q := Load(w.tb, th.b, ReadLoc(th));
    if q.Some? then SetThread(w, t, th.(pc := Counting(q.value)))
    else if th.hold.None? then SetThread(w, t, th.(pc := Returned(false)))
    else
      SetThread(w, t, th.(pc := Asserting, drop := th.hold, hold := None, after := Advance))
        .(owns := Rename(w.owns, Hold(t), Drop(t)))
  }

  function CountNext(w: World, t: nat, q: Ref): World
    requires t < |w.threads| && q < |w.tb.mem|
  {
    SetThread(w, t, w.threads[t].(pc := if w.tb.mem[q].rc == 0 then Reading else Raising(q, w.tb.mem[q].rc)))
  }

  function RaiseNext(w: World, t: nat, q: Ref, seen: nat): World
    requires t < |w.threads| && q < |w.tb.mem|
  {
    var th := w.threads[t];
    if w.tb.mem[q].rc == seen then
      SetThread(w, t, th.(pc := Rechecking, grab := Some(q)))
          .(tb := WithRc(w.tb, q, seen + 1), owns := w.owns[Grab(t) := q])
    else
      SetThread(w, t, th.(pc := Counting(q)))
  }

  function RecheckNext(w: World, t: nat): World
    requires t < |w.threads| && LocOk(w.tb, w.threads[t].b, ReadLoc(w.threads[t]))
  {
    var th := w.threads[t];
    if Load(w.tb, th.b, ReadLoc(th)) != th.grab then
      SetThread(w, t, th.(pc := Asserting, drop := th.grab, grab := None, after := ReadAgain))
        .(owns := Rename(w.owns, Grab(t), Drop(t)))
    else if th.hold.None? then
      SetThread(w, t, th.(pc := Comparing, hold := th.grab, grab := None)).(owns := Rename(w.owns, Grab(t), Hold(t)))
    else
      SetThread(w, t, th.(pc := Asserting, drop := th.hold, hold := th.grab, grab := None, after := Advance))
        .(owns := Rename(Rename(w.owns, Hold(t), Drop(t)), Grab(t), Hold(t)))
  }

  function CompareNext(w: World, t: nat): World
    requires t < |w.threads| && w.threads[t].hold.Some? && w.threads[t].hold.value < |w.tb.mem|
  {
    var th := w.threads[t];
    var k := w.tb.mem[th.hold.value].key;
    if k < th.key then SetThread(w, t, th.(pc := Reading))
    else
      SetThread(w, t, th.(pc := Asserting, drop := th.hold, hold := None, after := Answer(k == th.key)))
        .(owns := Rename(w.owns, Hold(t), Drop(t)))
  }

  // `lfrc_refcnt_dec`

  function Last(s: seq<Ref>): Ref
    requires |s| > 0
  {
    s[|s| - 1]
  }

  function LowerNext(w: World, t: nat, p: Ref): World
    requires t < |w.threads| && p < |w.tb.mem| && p < |w.tb.status| && w.tb.mem[p].rc > 0
  {
    var th := w.threads[t];
    var v := w.(owns := w.owns - {Drop(t)});
    var tb := WithRc(w.tb, p, w.tb.mem[p].rc - 1);
    if w.tb.mem[p].rc == 1 then
      SetThread(v, t, th.(pc := Bumping, drop := None, dying := th.dying + [p])).(tb := SetStatus(tb, p, Dying(t)))
    else
      SetThread(v, t, th.(pc := Unwinding, drop := None)).(tb := tb)
  }

  function BumpNext(w: World, t: nat, p: Ref): World
    requires t < |w.threads| && p < |w.tb.mem|
  {
    SetThread(w, t, w.threads[t].(pc := Following)).(tb := WithGc(w.tb, p))
  }

  function FollowNext(w: World, t: nat, p: Ref): World
    requires t < |w.threads| && p < |w.tb.mem| && p < |w.tb.status|
  {
    var next := w.tb.mem[p].next;
    SetThread(w, t, w.threads[t].(pc := if next.Some? then Asserting else Unwinding, drop := next))
      .(tb := SetStatus(w.tb, p, Dead(t)), owns := Rename(w.owns, NextRef(p), Drop(t)))
  }

  function UnwindNext(w: World, t: nat): World
    requires t < |w.threads| && w.threads[t].b < |w.writer|
    requires |w.threads[t].dying| > 0 ==> Last(w.threads[t].dying) < |w.tb.status|
  {
    var th := w.threads[t];
    if |th.dying| > 0 then
      SetThread(w, t, th.(dying := th.dying[..|th.dying| - 1])).(tb := SetStatus(w.tb, Last(th.dying), Free))
    else
      match th.after
      case ReadAgain => SetThread(w, t, th.(pc := Reading))
      case Advance => SetThread(w, t, th.(pc := if th.hold.Some? then Comparing else Returned(false)))
      case Answer(found) => SetThread(w, t, th.(pc := Returned(found)))
      case EndDelete => SetThread(w, t, IDLE).(writer := w.writer[th.b := None])
  }

  // `insert` and `delete`, with init_new_node and free_node_later of list_rc.c

  function InitNext(w: World, t: nat, n: Ref): World
    requires t < |w.threads| && n < |w.tb.mem| && w.threads[t].pc.Initialising?
  {
    var th := w.threads[t];
    SetThread(w, t, th.(pc := Writing(th.pc.op), own := Some(n)))
      .(tb := WithRc(w.tb, n, w.tb.mem[n].rc + 1), owns := w.owns[Own(t) := n])
  }

  function UnlinkNext(w: World, t: nat, b: nat, prev: Loc, n: Ref): World
    requires t < |w.threads| && Shaped(w.tb) && LocOk(w.tb, b, prev) && n < |w.tb.mem| == |w.removed|
  {
    SetThread(w, t, w.threads[t].(pc := Writing(Reclaiming(n, 0)), own := Some(n)))
      .(tb := Unlink(w.tb, b, prev, n), removed := w.removed[n := Removal(w.now + 1, b)],
        owns := Rename(Rename(w.owns, LinkToken(b, prev), Own(t)), NextRef(n), LinkToken(b, prev)))
  }

  function RecountNext(w: World, t: nat, n: Ref): World
    requires t < |w.threads| && Shaped(w.tb) && n < |w.tb.mem| && OptOk(w, w.tb.mem[n].next)
  {
    var next := w.tb.mem[n].next;
    var tb := if next.Some? then WithRc(w.tb, next.value, w.tb.mem[next.value].rc + 1) else w.tb;
    var owns := if next.Some? then w.owns[NextRef(n) := next.value] else w.owns;
    SetThread(w, t, w.threads[t].(pc := Asserting, drop := Some(n), own := None, after := EndDelete))
      .(tb := SetStatus(tb, n, Retired(t)), owns := Rename(owns, Own(t), Drop(t)))
  }

  function PublishNext(w: World, t: nat, b: nat, prev: Loc, n: Ref): World
    requires t < |w.threads| && Shaped(w.tb) && LocOk(w.tb, b, prev) && n < |w.tb.mem| && b < |w.writer|
  {
    SetThread(w, t, IDLE)
      .(tb := Publish(w.tb, b, prev, n), writer := w.writer[b := None],
        owns := Rename(Rename(w.owns, LinkToken(b, prev), NextRef(n)), Own(t), LinkToken(b, prev)))
  }

  function WriteNext(w: World, t: nat, c: Choice): World
    requires Enabled(w, t, c) && w.threads[t].pc.Writing?
  {
    var th := w.threads[t];
    match th.pc.op
    case Idle(_) => SetThread(w, t, IDLE).(writer := w.writer[th.b := None])
    case Walking(_, _, _, _) => SetThread(w, t, th.(pc := Writing(WalkNext(w.tb, th.pc.op))))
    case Unlinking(_, prev, n) => UnlinkNext(w, t, th.b, prev, n)
    case Reclaiming(n, _) => RecountNext(w, t, n)
    case Allocating(key, prev, cur) =>
      SetThread(w, t, th.(pc := Initialising(Keying(c.node, key, prev, cur)))).(tb := SetStatus(w.tb, c.node, Private(t)))
    case Keying(n, key, prev, cur) =>
      SetThread(w, t, th.(pc := Writing(Linking(n, key, prev, cur)))).(tb := StoreKey(w.tb, n, key))
    case Linking(n, key, prev, cur) =>
      SetThread(w, t, th.(pc := Writing(Publishing(n, key, prev, cur)))).(tb := StoreNext(w.tb, n, cur))
    case Publishing(n, _, prev, _) => PublishNext(w, t, th.b, prev, n)
  }

  function Act(w: World, t: nat, c: Choice): World
    requires Enabled(w, t, c)
  {
    var th := w.threads[t];
    match th.pc
    case Resting =>
      if c.search then
        SetThread(w, t, IDLE.(pc := Reading, b := c.b, key := c.key, start := w.now))
      else
        SetThread(w, t, IDLE.(pc := Writing(Start(w.tb, c.b, c.del, c.key)), b := c.b))
            .(writer := w.writer[c.b := Some(t)])
    case Reading => ReadNext(w, t)
    case Counting(q) => CountNext(w, t, q)
    case Raising(q, seen) => RaiseNext(w, t, q, seen)
    case Rechecking => RecheckNext(w, t)
    case Comparing => CompareNext(w, t)
    case Asserting => SetThread(w, t, th.(pc := Lowering))
    case Lowering => LowerNext(w, t, th.drop.value)
    case Bumping => BumpNext(w, t, Last(th.dying))
    case Following => FollowNext(w, t, Last(th.dying))
    case Unwinding => UnwindNext(w, t)
    case Returned(_) => SetThread(w, t, IDLE)
    case Initialising(op) => InitNext(w, t, op.node)
    case Writing(_) => WriteNext(w, t, c)
  }

  function Next(w: World, t: nat, c: Choice): World
    requires Enabled(w, t, c)
  {
    Act(w, t, c).(now := w.now + 1)
  }
}
