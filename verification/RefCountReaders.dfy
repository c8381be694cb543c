/** Every answer of the reference-counted search held at an instant of the call,
    although the search walks through nodes that were unlinked meanwhile. */
module RefCountReaders {
  import opened Buckets
  import opened RefCounts
  import opened RefCountInvariants
  import opened RefCountRuns
  import opened RefCountHistory

  /** At some instant from `t0` to `t` the bucket's membership of `key` was `ans`. */
  ghost predicate Saw(run: seq<World>, t0: nat, t: nat, b: nat, key: int, ans: bool) {
    exists i: nat :: t0 <= i <= t && i < |run| && (Has(run[i].tb, b, key) <==> ans)
  }

  /** The node a search stands on is or was in the bucket at an instant of the
      call, and if its key is beyond the search key, the key was missing. */
  ghost predicate Seen(run: seq<World>, w: World, th: Thread, n: Ref) {
    && n < |w.tb.mem|
    && InOrWas(w, n, th.b, th.start)
    && (w.tb.mem[n].key > th.key ==> Saw(run, th.start, w.now, th.b, th.key, false))
  }

  predicate Below(w: World, th: Thread, n: Ref) {
    n < |w.tb.mem| && w.tb.mem[n].key < th.key
  }

  /** Program counters at which the held node is known to be below the key. */
  predicate Inching(th: Thread) {
    || th.pc.Reading? || th.pc.Counting? || th.pc.Raising? || th.pc.Rechecking?
    || (InDec(th.pc) && th.after.ReadAgain?)
  }

  ghost predicate ReaderOk(run: seq<World>, w: World, th: Thread) {
    th.pc.Resting? || IsWriter(th) ||
    (&& th.start <= w.now < |run| && th.b < |w.tb.heads|
     && (th.hold.Some? ==> Seen(run, w, th, th.hold.value) && (Inching(th) ==> Below(w, th, th.hold.value)))
     && (InDec(th.pc) && th.after.Advance? && th.hold.None? ==> Saw(run, th.start, w.now, th.b, th.key, false))
     && (InDec(th.pc) && th.after.Answer? ==> Saw(run, th.start, w.now, th.b, th.key, th.after.found))
     && (th.pc.Returned? ==> Saw(run, th.start, w.now, th.b, th.key, th.pc.found)))
  }

  ghost predicate ReadersOk(run: seq<World>, w: World) {
    forall t: nat {:trigger w.threads[t]} :: t < |w.threads| ==> ReaderOk(run, w, w.threads[t])
  }

  lemma SawLater(run: seq<World>, t0: nat, t: nat, t': nat, b: nat, key: int, ans: bool)
    requires Saw(run, t0, t, b, key, ans) && t <= t'
    ensures Saw(run, t0, t', b, key, ans)
  {
  }

  lemma SawNow(run: seq<World>, t0: nat, t: nat, b: nat, key: int, ans: bool)
    requires t0 <= t < |run| && (Has(run[t].tb, b, key) <==> ans)
    ensures Saw(run, t0, t, b, key, ans)
  {
  }

  // ----- the node a thread holds

  /** A held node is neither freed nor dying after any step of any thread. */
  lemma HeldStays(w: World, t: nat, c: Choice, u: nat, n: Ref, b: nat, at: nat)
    requires Inv(w) && Enabled(w, t, c) && u < |w.threads| && w.threads[u].hold == Some(n)
    requires InOrWas(w, n, b, at) && at <= w.now
    ensures InOrWas(Act(w, t, c), n, b, at) && Act(w, t, c).tb.mem[n].key == w.tb.mem[n].key
  {
    StepMoves(w, t, c, n);
    if w.tb.status[n].Retired? {
      assert Target(w, Hold(u)) == Some(n);
      KeptAlive(w, t, c, Hold(u), n);
    }
  }

  lemma SeenLater(run: seq<World>, w: World, t: nat, c: Choice, u: nat, th: Thread, n: Ref)
    requires Inv(w) && Enabled(w, t, c) && u < |w.threads| && w.threads[u].hold == Some(n)
    requires th.start <= w.now && Seen(run, w, th, n)
    ensures Seen(run, Act(w, t, c).(now := w.now + 1), th, n)
    ensures Below(w, th, n) ==> Below(Act(w, t, c), th, n)
  {
    HeldStays(w, t, c, u, n, th.b, th.start);
    if w.tb.mem[n].key > th.key {
      SawLater(run, th.start, w.now, w.now + 1, th.b, th.key, false);
    }
  }

  /** Steps of other threads. */
  lemma OtherReader(run: seq<World>, w: World, t: nat, c: Choice, u: nat)
    requires Inv(w) && Enabled(w, t, c) && u < |w.threads| && ReaderOk(run, w, w.threads[u]) && w.now + 1 < |run|
    requires |Act(w, t, c).tb.heads| == |w.tb.heads|
    ensures ReaderOk(run, Act(w, t, c).(now := w.now + 1), w.threads[u])
  {
    var th := w.threads[u];
    if !th.pc.Resting? && !IsWriter(th) && th.hold.Some? {
      SeenLater(run, w, t, c, u, th, th.hold.value);
    }
  }

  // ----- one hop

  /** What a search finds behind the link it reads: the next node of the list, or
      the node that followed when the held node was unlinked. */
  lemma Hop(run: seq<World>, w: World, th: Thread, p: Option<Ref>)
    requires Inv(w) && Memories(run, w) && w.now < |run| && run[w.now] == w
    requires th.start <= w.now && th.b < |w.tb.heads|
    requires LocOk(w.tb, th.b, ReadLoc(th)) && Load(w.tb, th.b, ReadLoc(th)) == p
    requires th.hold.Some? ==> Seen(run, w, th, th.hold.value) && Below(w, th, th.hold.value)
    ensures p.None? ==> Saw(run, th.start, w.now, th.b, th.key, false)
    ensures p.Some? ==> Seen(run, w, th, p.value)
  {
    assert BucketOk(w.tb, th.b);
    if th.hold.Some? && OffTheList(w.tb.status[th.hold.value]) {
      HopUnlinked(run, w, th, th.hold.value, p);
    } else {
      var low := if th.hold.Some? then Some(w.tb.mem[th.hold.value].key) else None;
      assert First(w.tb, th.b, low, p);
      FirstDecides(w.tb, th.b, low, p, th.key);
      HopDecides(run, w, th, p);
    }
  }

  lemma HopDecides(run: seq<World>, w: World, th: Thread, p: Option<Ref>)
    requires Inv(w) && w.now < |run| && run[w.now] == w && th.start <= w.now && Verdict(w.tb, th.b, th.key, p)
    ensures p.None? ==> Saw(run, th.start, w.now, th.b, th.key, false)
    ensures p.Some? ==> Seen(run, w, th, p.value)
  {
  }

  lemma HopUnlinked(run: seq<World>, w: World, th: Thread, n: Ref, p: Option<Ref>)
    requires Memories(run, w) && w.now < |run|
    requires Seen(run, w, th, n) && Below(w, th, n) && OffTheList(w.tb.status[n]) && w.tb.mem[n].next == p
    ensures p.None? ==> Saw(run, th.start, w.now, th.b, th.key, false)
    ensures p.Some? ==> Seen(run, w, th, p.value)
  {
    assert Remembers(run, w, n);
    var r := w.removed[n];
    if p.None? || w.tb.mem[p.value].key > th.key {
      assert Absent(run, r.at, th.b, th.key);
      SawNow(run, th.start, r.at, th.b, th.key, false);
    }
  }

  /** A held node with the search key: the key was in the bucket during the call. */
  lemma EqualKeyWasThere(run: seq<World>, w: World, th: Thread, n: Ref)
    requires Inv(w) && Memories(run, w) && w.now < |run| && run[w.now] == w && th.start <= w.now
    requires Seen(run, w, th, n) && w.tb.mem[n].key == th.key
    ensures Saw(run, th.start, w.now, th.b, th.key, true)
  {
  }

  // ----- the search's own steps
  // Each lemma speaks of the thread `t` after its own step in world `v`, whose
  // nodes differ from `w`'s at most in `rc`, `gc` and in the dying ones.

  ghost predicate Reader(run: seq<World>, w: World, t: nat) {
    && Inv(w) && Memories(run, w) && t < |w.threads| && w.now + 1 < |run| && run[w.now] == w
    && ReaderOk(run, w, w.threads[t]) && !IsWriter(w.threads[t]) && !w.threads[t].pc.Resting?
  }

  lemma ReadReader(run: seq<World>, w: World, t: nat)
    requires Reader(run, w, t) && w.threads[t].pc.Reading?
    ensures LocOk(w.tb, w.threads[t].b, ReadLoc(w.threads[t]))
    ensures ReaderOk(run, ReadNext(w, t).(now := w.now + 1), ReadNext(w, t).threads[t])
  {
    var th := w.threads[t];
    assert ThreadOk(w, t);
    var q := Load(w.tb, th.b, ReadLoc(th));
    Hop(run, w, th, q);
    if th.hold.Some? {
      SeenStill(run, w, ReadNext(w, t).(now := w.now + 1), th, ReadNext(w, t).threads[t], th.hold.value);
    }
  }

  /** A step that changes neither links nor keys nor the stages of listed nodes. */
  lemma SeenStill(run: seq<World>, w: World, v: World, th: Thread, th': Thread, n: Ref)
    requires Seen(run, w, th, n) && v.tb == w.tb && v.removed == w.removed && v.now == w.now + 1
    requires th'.b == th.b && th'.key == th.key && th'.start == th.start
    ensures Seen(run, v, th', n)
  {
  }

  lemma RecheckReader(run: seq<World>, w: World, t: nat)
    requires Reader(run, w, t) && w.threads[t].pc.Rechecking?
    ensures LocOk(w.tb, w.threads[t].b, ReadLoc(w.threads[t]))
    ensures ReaderOk(run, RecheckNext(w, t).(now := w.now + 1), RecheckNext(w, t).threads[t])
  {
    var th := w.threads[t];
    assert ThreadOk(w, t);
    var v := RecheckNext(w, t).(now := w.now + 1);
    Hop(run, w, th, Load(w.tb, th.b, ReadLoc(th)));
    if v.threads[t].hold.Some? {
      SeenStill(run, w, v, th, v.threads[t], v.threads[t].hold.value);
    }
  }

  lemma CompareReader(run: seq<World>, w: World, t: nat)
    requires Reader(run, w, t) && w.threads[t].pc.Comparing?
    ensures w.threads[t].hold.Some? && w.threads[t].hold.value < |w.tb.mem|
    ensures ReaderOk(run, CompareNext(w, t).(now := w.now + 1), CompareNext(w, t).threads[t])
  {
    var th := w.threads[t];
    assert ThreadOk(w, t);
    var n := th.hold.value;
    var v := CompareNext(w, t).(now := w.now + 1);
    if w.tb.mem[n].key < th.key {
      SeenStill(run, w, v, th, v.threads[t], n);
    } else if w.tb.mem[n].key == th.key {
      EqualKeyWasThere(run, w, th, n);
      SawLater(run, th.start, w.now, w.now + 1, th.b, th.key, true);
    } else {
      SawLater(run, th.start, w.now, w.now + 1, th.b, th.key, false);
    }
  }

  predicate Plain(pc: Pc) {
    pc.Counting? || pc.Raising? || InDec(pc)
  }

  /** The steps that neither hop nor compare: counting, and the decrement. */
  lemma PlainReader(run: seq<World>, w: World, t: nat, c: Choice)
    requires Reader(run, w, t) && Enabled(w, t, c) && Plain(w.threads[t].pc)
    requires |Act(w, t, c).tb.heads| == |w.tb.heads|
    ensures t < |Act(w, t, c).threads| && ReaderOk(run, Act(w, t, c).(now := w.now + 1), Act(w, t, c).threads[t])
  {
    var th := w.threads[t];
    OtherReader(run, w, t, c, t);
    var v := Act(w, t, c).(now := w.now + 1);
    PlainThread(w, t, c);
    var th' := v.threads[t];
    if th.hold.Some? {
      SeenSame(run, v, th, th', th.hold.value);
    }
  }

  lemma SeenSame(run: seq<World>, v: World, th: Thread, th': Thread, n: Ref)
    requires th'.b == th.b && th'.key == th.key && th'.start == th.start
    ensures Seen(run, v, th, n) <==> Seen(run, v, th', n)
    ensures Below(v, th, n) <==> Below(v, th', n)
  {
  }

  /** What such a step does to the thread's own variables. */
  lemma PlainThread(w: World, t: nat, c: Choice)
    requires Inv(w) && Enabled(w, t, c) && Plain(w.threads[t].pc) && !IsWriter(w.threads[t])
    ensures |Act(w, t, c).threads| == |w.threads|
    ensures var th, th' := w.threads[t], Act(w, t, c).threads[t];
            && th'.hold == th.hold && th'.b == th.b && th'.key == th.key && th'.start == th.start
            && (Inching(th') ==> Inching(th))
            && (InDec(th'.pc) ==> InDec(th.pc) && th'.after == th.after)
            && (th'.pc.Returned? ==>
                  InDec(th.pc) && (th.after == Answer(th'.pc.found) || (th.after.Advance? && th.hold.None?
                      && !th'.pc.found)))
  {
    assert ThreadOk(w, t);
  }

  lemma OwnReader(run: seq<World>, w: World, t: nat, c: Choice)
    requires Reader(run, w, t) && Enabled(w, t, c) && |Act(w, t, c).tb.heads| == |w.tb.heads|
    requires |Act(w, t, c).threads| == |w.threads|
    ensures ReaderOk(run, Act(w, t, c).(now := w.now + 1), Act(w, t, c).threads[t])
  {
    match w.threads[t].pc {
      case Reading => ReadReader(run, w, t);
      case Rechecking => RecheckReader(run, w, t);
      case Comparing => CompareReader(run, w, t);
      case Returned(_) =>
      case Counting(_) => PlainReader(run, w, t, c);
      case Raising(_, _) => PlainReader(run, w, t, c);
      case Asserting => PlainReader(run, w, t, c);
      case Lowering => PlainReader(run, w, t, c);
      case Bumping => PlainReader(run, w, t, c);
      case Following => PlainReader(run, w, t, c);
      case Unwinding => PlainReader(run, w, t, c);
      case _ =>
    }
  }

  /** A thread that starts a call, or writes. */
  lemma FreshReader(run: seq<World>, w: World, t: nat, c: Choice)
    requires Inv(w) && Enabled(w, t, c) && w.now + 1 < |run| && (w.threads[t].pc.Resting? || IsWriter(w.threads[t]))
    requires |Act(w, t, c).tb.heads| == |w.tb.heads| && |Act(w, t, c).threads| == |w.threads|
    ensures ReaderOk(run, Act(w, t, c).(now := w.now + 1), Act(w, t, c).threads[t])
  {
    if w.threads[t].pc.Resting? {
      StartReader(run, w, t, c);
    } else {
      WriterKeepsOut(w, t, c);
    }
  }

  lemma StartReader(run: seq<World>, w: World, t: nat, c: Choice)
    requires Inv(w) && Enabled(w, t, c) && w.now + 1 < |run| && w.threads[t].pc.Resting?
    ensures t < |Act(w, t, c).threads| && ReaderOk(run, Act(w, t, c).(now := w.now + 1), Act(w, t, c).threads[t])
  {
  }

  lemma SameShape(w: World, t: nat, c: Choice)
    requires Inv(w) && Enabled(w, t, c)
    ensures |Act(w, t, c).tb.heads| == |w.tb.heads| && |Act(w, t, c).threads| == |w.threads|
    ensures forall u: nat :: u < |w.threads| && u != t ==> Act(w, t, c).threads[u] == w.threads[u]
  {
    assert ThreadOk(w, t);
    PcCases(w.threads[t].pc);
    if w.threads[t].pc.Writing? {
      WriteShape(w, t, c);
    } else if InDec(w.threads[t].pc) {
      DecShape(w, t, c);
    }
  }

  lemma WriteShape(w: World, t: nat, c: Choice)
    requires Enabled(w, t, c) && w.threads[t].pc.Writing?
    ensures |Act(w, t, c).tb.heads| == |w.tb.heads| && |Act(w, t, c).threads| == |w.threads|
    ensures forall u: nat :: u < |w.threads| && u != t ==> Act(w, t, c).threads[u] == w.threads[u]
  {
  }

  lemma DecShape(w: World, t: nat, c: Choice)
    requires Enabled(w, t, c) && InDec(w.threads[t].pc)
    ensures |Act(w, t, c).tb.heads| == |w.tb.heads| && |Act(w, t, c).threads| == |w.threads|
    ensures forall u: nat :: u < |w.threads| && u != t ==> Act(w, t, c).threads[u] == w.threads[u]
  {
  }

  lemma NextReaders(run: seq<World>, w: World, t: nat, c: Choice, v: World)
    requires Inv(w) && Enabled(w, t, c) && Memories(run, w) && ReadersOk(run, w)
    requires w.now + 1 < |run| && run[w.now] == w && v == Act(w, t, c).(now := w.now + 1)
    ensures ReadersOk(run, v)
  {
    SameShape(w, t, c);
    forall u: nat | u < |v.threads| ensures ReaderOk(run, v, v.threads[u]) {
      if u != t {
        OtherReader(run, w, t, c, u);
      } else if w.threads[t].pc.Resting? || IsWriter(w.threads[t]) {
        FreshReader(run, w, t, c);
      } else {
        OwnReader(run, w, t, c);
      }
    }
  }

  lemma TakenReaders(run: seq<World>, w: World, w': World)
    requires Inv(w) && Memories(run, w) && ReadersOk(run, w) && Step(w, w')
    requires w.now + 1 < |run| && run[w.now] == w
    ensures ReadersOk(run, w')
  {
    var t: nat, c: Choice :| Taken(w, t, c, w');
    NextReaders(run, w, t, c, w');
  }

  lemma ReadersStep(run: seq<World>, j: nat)
    requires Legal(run) && j + 1 < |run| && ReadersOk(run, run[j])
    ensures ReadersOk(run, run[j + 1])
  {
    RunInv(run, j);
    RunMemories(run, j);
    assert StepAt(run, j);
    TakenReaders(run, run[j], run[j + 1]);
  }

  lemma {:induction false} RunReaders(run: seq<World>, j: nat)
    requires Legal(run) && j < |run|
    ensures ReadersOk(run, run[j])
  {
    if j > 0 {
      RunReaders(run, j - 1);
      ReadersStep(run, j - 1);
    }
  }

  // ----- the arguments of a call

  /** The last instant at which thread `t` was between two calls. */
  ghost function LastRest(run: seq<World>, j: nat, t: nat): (i: nat)
    requires j < |run|
    ensures i <= j
  {
    if j == 0 || (t < |run[j].threads| && run[j].threads[t].pc.Resting?) then j else LastRest(run, j - 1, t)
  }

  ghost predicate Busy(run: seq<World>, k: nat, t: nat) {
    k < |run| && t < |run[k].threads| && !run[k].threads[t].pc.Resting?
  }

  lemma {:induction false} LastRestIs(run: seq<World>, i: nat, j: nat, t: nat)
    requires i <= j < |run| && t < |run[i].threads| && run[i].threads[t].pc.Resting?
    requires forall k: nat :: i < k <= j ==> Busy(run, k, t)
    ensures LastRest(run, j, t) == i
  {
    if i < j {
      assert Busy(run, j, t);
      LastRestIs(run, i, j - 1, t);
    }
  }

  /** Thread `t` is in the call that it began with the choice `c`. */
  ghost predicate BegunWith(run: seq<World>, j: nat, t: nat, c: Choice) {
    && j < |run|
    && var s := LastRest(run, j, t);
       s < j && t < |run[s].threads| && run[s].threads[t].pc.Resting? && Taken(run[s], t, c, run[s + 1])
  }

  /** A search has the key, the bucket and the instant of the call in its variables. */
  predicate ArgumentsAre(th: Thread, s: nat, c: Choice) {
    c.search && th.b == c.b && th.key == c.key && th.start == s
  }

  predicate SameArguments(th: Thread, th': Thread) {
    th'.b == th.b && th'.key == th.key && th'.start == th.start
  }

  predicate InSearch(th: Thread) {
    !th.pc.Resting? && !IsWriter(th)
  }

  /** The first step of a call goes into a search if it is one, with its arguments. */
  lemma StartsSearch(w: World, t: nat, c: Choice, w': World)
    requires t < |w.threads| && w.threads[t].pc.Resting? && Taken(w, t, c, w')
    ensures t < |w'.threads| && (InSearch(w'.threads[t]) <==> c.search)
    ensures c.search ==> ArgumentsAre(w'.threads[t], w.now, c)
  {
  }

  /** A step of a search changes none of its arguments. */
  lemma SearchKeeps(w: World, t: nat, c: Choice)
    requires Inv(w) && Enabled(w, t, c) && InSearch(w.threads[t]) && t < |Act(w, t, c).threads|
    ensures var th, th' := w.threads[t], Act(w, t, c).threads[t];
            th'.pc.Resting? || (InSearch(th') && SameArguments(th, th'))
  {
    PcCases(w.threads[t].pc);
    if InDec(w.threads[t].pc) {
      PlainThread(w, t, c);
      DecStays(w, t, c);
    } else {
      SearchingKeeps(w, t, c);
    }
  }

  lemma DecStays(w: World, t: nat, c: Choice)
    requires Enabled(w, t, c) && InDec(w.threads[t].pc) && !IsWriter(w.threads[t]) && t < |Act(w, t, c).threads|
    ensures InSearch(Act(w, t, c).threads[t])
  {
  }

  lemma SearchingKeeps(w: World, t: nat, c: Choice)
    requires Enabled(w, t, c) && t < |Act(w, t, c).threads|
    requires Searching(w.threads[t].pc) || w.threads[t].pc.Returned?
    ensures var th, th' := w.threads[t], Act(w, t, c).threads[t];
            th'.pc.Resting? || (InSearch(th') && SameArguments(th, th'))
  {
  }

  /** A step into a search, from outside or from within. */
  lemma SearchOrigin(w: World, w': World, t: nat)
    requires Inv(w) && Step(w, w') && t < |w.threads| && t < |w'.threads| && InSearch(w'.threads[t])
    ensures if w.threads[t].pc.Resting? then
              exists c: Choice :: Taken(w, t, c, w') && ArgumentsAre(w'.threads[t], w.now, c)
            else
              InSearch(w.threads[t]) && SameArguments(w.threads[t], w'.threads[t])
  {
    var u: nat, c: Choice :| Taken(w, u, c, w');
    SameShape(w, u, c);
    if u == t {
      if w.threads[t].pc.Resting? {
        assert Taken(w, t, c, w') && ArgumentsAre(w'.threads[t], w.now, c);
      } else if InSearch(w.threads[t]) {
        SearchKeeps(w, t, c);
      } else {
        WriterKeepsOut(w, t, c);
      }
    }
  }

  lemma WriterKeepsOut(w: World, t: nat, c: Choice)
    requires Inv(w) && Enabled(w, t, c) && IsWriter(w.threads[t]) && t < |Act(w, t, c).threads|
    ensures !InSearch(Act(w, t, c).threads[t])
  {
    assert ThreadOk(w, t);
    if InDec(w.threads[t].pc) {
      DecKeepsOut(w, t, c);
    }
  }

  lemma DecKeepsOut(w: World, t: nat, c: Choice)
    requires Enabled(w, t, c) && IsWriter(w.threads[t]) && InDec(w.threads[t].pc) && t < |Act(w, t, c).threads|
    ensures !InSearch(Act(w, t, c).threads[t])
  {
  }

  ghost predicate TakenAt(run: seq<World>, j: nat, t: nat, c: Choice) {
    j + 1 < |run| && Taken(run[j], t, c, run[j + 1])
  }

  lemma SearchOriginAt(run: seq<World>, j: nat, t: nat)
    requires Legal(run) && j + 1 < |run| && t < |run[j + 1].threads| && InSearch(run[j + 1].threads[t])
    ensures t < |run[j].threads|
    ensures if run[j].threads[t].pc.Resting? then
              exists c: Choice :: TakenAt(run, j, t, c) && ArgumentsAre(run[j + 1].threads[t], j, c)
            else
              InSearch(run[j].threads[t]) && SameArguments(run[j].threads[t], run[j + 1].threads[t])
  {
    RunInv(run, j);
    assert StepAt(run, j);
    TakenShape(run[j], run[j + 1]);
    SearchOrigin(run[j], run[j + 1], t);
    if run[j].threads[t].pc.Resting? {
      var c: Choice :| Taken(run[j], t, c, run[j + 1]) && ArgumentsAre(run[j + 1].threads[t], run[j].now, c);
      assert TakenAt(run, j, t, c);
    }
  }

  /** A search runs to its end with the arguments it was called with. */
  lemma {:induction false} RunArguments(run: seq<World>, j: nat, t: nat) returns (c: Choice)
    requires Legal(run) && j < |run| && t < |run[j].threads| && InSearch(run[j].threads[t])
    ensures BegunWith(run, j, t, c) && ArgumentsAre(run[j].threads[t], LastRest(run, j, t), c)
  {
    if j > 0 {
      SearchOriginAt(run, j - 1, t);
      if run[j - 1].threads[t].pc.Resting? {
        c :| TakenAt(run, j - 1, t, c) && ArgumentsAre(run[j].threads[t], j - 1, c);
        assert LastRest(run, j, t) == j - 1;
      } else {
        c := RunArguments(run, j - 1, t);
      }
    }
  }

  /** Linearizability: whenever a search for `c.key` in bucket `c.b` is about to return,
      its answer was the membership of that key at an instant of the call. */
  lemma SearchLinearizable(run: seq<World>, j: nat, t: nat, c: Choice)
    requires Legal(run) && j < |run| && t < |run[j].threads| && run[j].threads[t].pc.Returned?
    requires BegunWith(run, j, t, c)
    ensures c.search && exists i: nat :: LastRest(run, j, t) <= i <= j && c.b < |run[i].tb.heads|
                             && (Contains(run[i].tb, c.b, c.key) <==> run[j].threads[t].pc.found)
  {
    RunReaders(run, j);
    RunInv(run, j);
    var th := run[j].threads[t];
    assert ReaderOk(run, run[j], th);
    var c' := RunArguments(run, j, t);
    var s := LastRest(run, j, t);
    StartsSearch(run[s], t, c, run[s + 1]);
    StartsSearch(run[s], t, c', run[s + 1]);
    var i: nat :| th.start <= i <= j && i < |run| && (Has(run[i].tb, th.b, th.key) <==> th.pc.found);
    RunInv(run, i);
    RunShape(run, i, j);
    ContainsIsHas(run[i].tb, th.b, th.key);
  }

  lemma TakenShape(w: World, w': World)
    requires Inv(w) && Step(w, w')
    ensures |w'.tb.heads| == |w.tb.heads| && |w'.tb.mem| == |w.tb.mem| && |w'.threads| == |w.threads|
  {
    var t: nat, c: Choice :| Taken(w, t, c, w');
    SameShape(w, t, c);
    SameSize(w, t, c);
  }

  lemma {:induction false} RunShape(run: seq<World>, i: nat, j: nat)
    requires Legal(run) && i <= j < |run|
    ensures |run[i].tb.heads| == |run[j].tb.heads| && |run[i].tb.mem| == |run[j].tb.mem|
  {
    if i < j {
      RunShape(run, i, j - 1);
      RunInv(run, j - 1);
      assert StepAt(run, j - 1);
      TakenShape(run[j - 1], run[j]);
    }
  }
}
