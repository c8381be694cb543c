/** Hazard pointers: hp.c and list_hp.c over list_writer.c, one shared access per
    step.  A scan reads the hazard slots one by one while readers store to them,
    and frees its zombies one by one. */
module HazardPointers {
  import opened Buckets
  import opened HazardParameters
  import opened ListWriter
  import opened Sequences

  datatype Pc =
    | Resting
    | Fetching                                 // prev = head; cur = *prev
    | Posting(cur: Ref)                        // HP[base + off].p = cur
    | Rechecking(cur: Ref)                     // *prev != cur
    | Hopping(cur: Ref)                        // next = cur->next
    | Comparing(cur: Ref, next: Option<Ref>)   // cur->key >= key
    | Returned(found: bool)
    | Writing(op: Op)
    | Scanning(i: nat, plist: seq<Ref>)        // scan, stage 1: slot i is next
    | Sweeping(rest: seq<Ref>, plist: seq<Ref>) // scan, stage 3: tmplist

  /** `zombies` is the list zl->p; its length is zl->number.  The last fields are
      history: whether the link to `cur` (to the node of `prev`) was read from the
      head or from a linked node when it was rechecked, and how many nodes the
      thread retired and freed in how many completed scans. */
  datatype Thread = Thread(pc: Pc, b: nat, key: int, prev: Loc, off: nat, zombies: seq<Ref>,
                           known: bool, prevKnown: bool, retired: nat, freed: nat, scans: nat)

  datatype World = World(tb: Table, slots: seq<Option<Ref>>, threads: seq<Thread>, writer: seq<Option<nat>>)

  datatype Choice = Choice(search: bool, b: nat, del: bool, key: int, node: Ref)

  function Slot(t: nat, off: nat): nat {
    t * K + off
  }

  function SetThread(w: World, t: nat, th: Thread): World
    requires t < |w.threads|
  {
    w.(threads := w.threads[t := th])
  }

  predicate Shape(w: World) {
    Shaped(w.tb) && |w.slots| == H && |w.threads| <= MAX_THREAD && |w.writer| == |w.tb.heads|
  }

  predicate OpEnabled(w: World, b: nat, op: Op, c: Choice)
    requires Shaped(w.tb)
  {
    match op
    case Idle(_) => true
    case Walking(_, _, _, _) => true
    case Unlinking(_, prev, n) => LocOk(w.tb, b, prev) && n < |w.tb.mem|
    case Reclaiming(n, _) => n < |w.tb.mem|
    case Allocating(_, _, _) => c.node < |w.tb.mem| && w.tb.status[c.node] == Free
    case Keying(n, _, _, _) => n < |w.tb.mem|
    case Linking(n, _, _, _) => n < |w.tb.mem|
    case Publishing(n, _, prev, _) => LocOk(w.tb, b, prev) && n < |w.tb.mem|
  }

  predicate Enabled(w: World, t: nat, c: Choice) {
    && Shape(w) && t < |w.threads|
    && var th := w.threads[t];
       match th.pc
       case Resting => c.b < |w.writer| && (c.search || w.writer[c.b] == None)
       case Fetching => th.b < |w.tb.heads|
       case Posting(_) => th.off < 2
       case Rechecking(_) => LocOk(w.tb, th.b, th.prev)
       case Hopping(cur) => cur < |w.tb.mem|
       case Comparing(cur, _) => cur < |w.tb.mem| && th.off < 2
       case Returned(_) => true
       case Writing(op) => th.b < |w.writer| && OpEnabled(w, th.b, op, c)
       case Scanning(_, _) => true
       case Sweeping(rest, _) => |rest| > 0 ==> rest[0] < |w.tb.mem|
  }

  // `search` of list_hp.c

  function StartNext(w: World, t: nat, c: Choice): World
    requires t < |w.threads| && c.b < |w.writer| == |w.tb.heads|
  {
    var th := w.threads[t].(b := c.b, key := c.key, prev := Head, off := 0, known := true, prevKnown := true);
    if c.search then SetThread(w, t, th.(pc := Fetching))
    else SetThread(w, t, th.(pc := Writing(Start(w.tb, c.b, c.del, c.key)))).(writer := w.writer[c.b := Some(t)])
  }

  function FetchNext(w: World, t: nat): World
    requires t < |w.threads| && w.threads[t].b < |w.tb.heads|
  {
    var th := w.threads[t];
    var cur := Load(w.tb, th.b, Head);
    SetThread(w, t, th.(pc := if cur.None? then Returned(false) else Posting(cur.value), prev := Head,
                        known := true, prevKnown := true))
  }

  function PostNext(w: World, t: nat, cur: Ref): World
    requires t < |w.threads| <= MAX_THREAD && |w.slots| == H && w.threads[t].off < 2
  {
    var th := w.threads[t];
    SetThread(w, t, th.(pc := Rechecking(cur))).(slots := w.slots[Slot(t, th.off) := Some(cur)])
  }

  function RecheckNext(w: World, t: nat, cur: Ref): World
    requires t < |w.threads| && LocOk(w.tb, w.threads[t].b, w.threads[t].prev)
  {
    var th := w.threads[t];
    if Load(w.tb, th.b, th.prev) != Some(cur) then SetThread(w, t, th.(pc := Fetching))
    else SetThread(w, t, th.(pc := Hopping(cur), known := th.prev.Head? || LinkedIn(w.tb, th.b, th.prev.node)))
  }

  function HopNext(w: World, t: nat, cur: Ref): World
    requires t < |w.threads| && cur < |w.tb.mem|
  {
    SetThread(w, t, w.threads[t].(pc := Comparing(cur, w.tb.mem[cur].next)))
  }

  function CompareNext(w: World, t: nat, cur: Ref, next: Option<Ref>): World
    requires t < |w.threads| && cur < |w.tb.mem| && w.threads[t].off < 2
  {
    var th := w.threads[t];
    var k := w.tb.mem[cur].key;
    if k >= th.key then SetThread(w, t, th.(pc := Returned(k == th.key)))
    else
      SetThread(w, t, th.(pc := if next.None? then Returned(false) else Posting(next.value),
                          prev := NextOf(cur), prevKnown := th.known, off := 1 - th.off))
  }

  // `free_node_later` and `scan`

  function PushNext(w: World, t: nat, n: Ref): World
    requires t < |w.threads| && n < |w.tb.status|
  {
    var th := w.threads[t];
    var zombies := [n] + th.zombies;
    SetThread(w, t, th.(pc := if |zombies| > R(|w.threads|) then Scanning(0, []) else Writing(Idle(true)),
                        zombies := zombies, retired := th.retired + 1))
      .(tb := SetStatus(w.tb, n, Retired(t)))
  }

  function ScanNext(w: World, t: nat, i: nat, plist: seq<Ref>): World
    requires t < |w.threads| && |w.slots| == H
  {
    var th := w.threads[t];
    if i < H then SetThread(w, t, th.(pc := Scanning(i + 1,
        if w.slots[i].Some? then plist + [w.slots[i].value] else plist)))
    else SetThread(w, t, th.(pc := Sweeping(th.zombies, plist), zombies := []))
  }

  function SweepNext(w: World, t: nat, rest: seq<Ref>, plist: seq<Ref>): World
    requires t < |w.threads| && (|rest| > 0 ==> rest[0] < |w.tb.status|)
  {
    var th := w.threads[t];
    if rest == [] then SetThread(w, t, th.(pc := Writing(Idle(true)), scans := th.scans + 1))
    else if rest[0] in plist then SetThread(w, t, th.(pc := Sweeping(rest[1..], plist),
        zombies := [rest[0]] + th.zombies))
    else SetThread(w, t, th.(pc := Sweeping(rest[1..], plist), freed := th.freed + 1))
        .(tb := SetStatus(w.tb, rest[0], Free))
  }

  // `insert` and `delete`

  function WriteNext(w: World, t: nat, b: nat, op: Op, c: Choice): World
    requires Shape(w) && t < |w.threads| && b < |w.writer| && OpEnabled(w, b, op, c)
  {
    var th := w.threads[t];
    match op
    case Idle(_) => SetThread(w, t, th.(pc := Resting)).(writer := w.writer[b := None])
    case Walking(_, _, _, _) => SetThread(w, t, th.(pc := Writing(WalkNext(w.tb, op))))
    case Unlinking(_, prev, n) => SetThread(w, t, th.(pc := Writing(Reclaiming(n, 0)))).(tb := Unlink(w.tb, b, prev, n))
    case Reclaiming(n, _) => PushNext(w, t, n)
    case Allocating(key, prev, cur) =>
      SetThread(w, t, th.(pc := Writing(Keying(c.node, key, prev, cur)))).(tb := SetStatus(w.tb, c.node, Private(t)))
    case Keying(n, key, prev, cur) =>
      SetThread(w, t, th.(pc := Writing(Linking(n, key, prev, cur)))).(tb := StoreKey(w.tb, n, key))
    case Linking(n, key, prev, cur) =>
      SetThread(w, t, th.(pc := Writing(Publishing(n, key, prev, cur)))).(tb := StoreNext(w.tb, n, cur))
    case Publishing(n, _, prev, _) => SetThread(w, t, th.(pc := Writing(Idle(true)))).(tb := Publish(w.tb, b, prev, n))
  }

  function Act(w: World, t: nat, c: Choice): World
    requires Enabled(w, t, c)
  {
    match w.threads[t].pc
    case Resting => StartNext(w, t, c)
    case Fetching => FetchNext(w, t)
    case Posting(cur) => PostNext(w, t, cur)
    case Rechecking(cur) => RecheckNext(w, t, cur)
    case Hopping(cur) => HopNext(w, t, cur)
    case Comparing(cur, next) => CompareNext(w, t, cur, next)
    case Returned(_) => SetThread(w, t, w.threads[t].(pc := Resting))
    case Writing(op) => WriteNext(w, t, w.threads[t].b, op, c)
    case Scanning(i, plist) => ScanNext(w, t, i, plist)
    case Sweeping(rest, plist) => SweepNext(w, t, rest, plist)
  }

  predicate Taken(w: World, t: nat, c: Choice, w': World) {
    Enabled(w, t, c) && w' == Act(w, t, c)
  }

  ghost predicate Step(w: World, w': World) {
    exists t: nat, c: Choice :: Taken(w, t, c, w')
  }

  ghost predicate StepAt(run: seq<World>, i: nat) {
    i + 1 < |run| ==> Step(run[i], run[i + 1])
  }

  ghost predicate Initial(w: World) {
    && Shape(w)
    && (forall b: nat :: b < |w.tb.heads| ==> w.tb.heads[b] == None && w.writer[b] == None)
    && (forall n: Ref :: n < |w.tb.mem| ==> w.tb.status[n] == Free && w.tb.mem[n].next == None)
    && (forall i: nat :: i < H ==> w.slots[i] == None)
    && (forall t: nat :: t < |w.threads| ==> w.threads[t] == Thread(Resting, 0, 0, Head, 0, [], false, false, 0, 0, 0))
  }

  ghost predicate Legal(run: seq<World>) {
    |run| > 0 && Initial(run[0]) && forall i: nat :: StepAt(run, i)
  }

  // ----- the invariant

  predicate IsWriter(pc: Pc) {
    pc.Writing? || pc.Scanning? || pc.Sweeping?
  }

  /** The nodes a thread has retired and not freed. */
  function Pending(th: Thread): seq<Ref> {
    th.zombies + if th.pc.Sweeping? then th.pc.rest else []
  }

  /** How many of the slots below `i` the threads ever use. */
  function Usable(i: nat, nbthreads: nat): nat {
    if i >= nbthreads * K then 2 * nbthreads else 2 * (i / K) + if i % K < 2 then i % K else 2
  }

  /** What one scan is certain to free. */
  function Quota(nbthreads: nat): nat {
    101 + K * nbthreads
  }

  ghost predicate PcOk(w: World, t: nat, th: Thread)
    requires Shape(w) && t < |w.threads|
  {
    match th.pc
    case Resting => true
    case Fetching => true
    case Posting(cur) => cur < |w.tb.mem| && LocOk(w.tb, th.b, th.prev)
    case Rechecking(cur) => cur < |w.tb.mem| && LocOk(w.tb, th.b, th.prev) && th.off < 2
        && w.slots[Slot(t, th.off)] == Some(cur)
    case Hopping(cur) => cur < |w.tb.mem| && th.off < 2 && w.slots[Slot(t, th.off)] == Some(cur)
    case Comparing(cur, next) =>
      && cur < |w.tb.mem| && th.off < 2 && w.slots[Slot(t, th.off)] == Some(cur)
      && (next.Some? ==> next.value < |w.tb.mem|)
    case Returned(_) => true
    case Writing(op) => OpOk(w.tb, th.b, t, op) && (op.Reclaiming? ==> op.stage == 0)
    case Scanning(i, plist) => i <= H && |plist| <= Usable(i, |w.threads|)
    case Sweeping(rest, plist) => |plist| <= 2 * |w.threads| && forall n :: n in th.zombies ==> n in plist
  }

  predicate AllRetired(tb: Table, t: nat, s: seq<Ref>) {
    forall n :: n in s ==> n < |tb.status| && tb.status[n] == Retired(t)
  }

  /** The accounts: nothing is lost, the garbage is bounded, every completed scan
      freed its quota. */
  ghost predicate AccountsOk(th: Thread, nbthreads: nat) {
    && th.retired == th.freed + |Pending(th)|
    && (if th.pc.Sweeping? then
          && |Pending(th)| <= R(nbthreads) + 1
          && th.freed + |Pending(th)| >= th.scans * Quota(nbthreads) + R(nbthreads) + 1
        else
          && th.freed >= th.scans * Quota(nbthreads)
          && if th.pc.Scanning? then |th.zombies| == R(nbthreads) + 1 else |th.zombies| <= R(nbthreads))
  }

  ghost predicate ThreadOk(w: World, t: nat)
    requires Shape(w) && t < |w.threads|
  {
    var th := w.threads[t];
    && th.off < 2
    && (!th.pc.Resting? ==> th.b < |w.tb.heads|)
    && (IsWriter(th.pc) ==> w.writer[th.b] == Some(t))
    && PcOk(w, t, th) && Distinct(Pending(th)) && AllRetired(w.tb, t, Pending(th)) && AccountsOk(th, |w.threads|)
  }

  predicate SlotOk(w: World, i: nat)
    requires i < |w.slots|
  {
    w.slots[i].Some? ==> i % K < 2 && i / K < |w.threads|
  }

  /** A retired node is in the zombie list of its thread, and an unlinked node is
      what its bucket's writer is about to retire. */
  predicate NodeOk(w: World, n: Ref)
    requires n < |w.tb.status|
  {
    match w.tb.status[n]
    case Retired(t) => t < |w.threads| && n in Pending(w.threads[t])
    case Unlinked(b) =>
      && b < |w.writer| && w.writer[b].Some? && w.writer[b].value < |w.threads|
      && w.threads[w.writer[b].value].pc == Writing(Reclaiming(n, 0))
    case Free => true
    case Private(_) => true
    case Linked(_) => true
    case Dying(_) => true
    case Dead(_) => true
  }

  ghost predicate Inv(w: World) {
    && Shape(w) && WellFormed(w.tb)
    && (forall t: nat {:trigger w.threads[t]} {:trigger ThreadOk(w, t)} :: t < |w.threads| ==> ThreadOk(w, t))
    && (forall n: Ref {:trigger w.tb.status[n]} {:trigger NodeOk(w, n)} :: n < |w.tb.mem| ==> NodeOk(w, n))
    && (forall i: nat {:trigger w.slots[i]} {:trigger SlotOk(w, i)} :: i < |w.slots| ==> SlotOk(w, i))
  }
}
