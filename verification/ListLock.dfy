/** `search` of list_lock.c under GCLOCK and under SEQLOCK, both with writers that
    compete by CAS.

    Under SEQLOCK `lock_validate` compares the lock word before every node.  Under
    GCLOCK it is empty: the search walks through freed and recycled nodes, even
    into other buckets, and compares the generation once, before it returns. */
module ListLock {
  import opened Buckets
  import opened ListWriter
  import opened Worlds
  import opened Readers
  import opened Chains
  import opened Acyclic

  /** The generation half of the lock word. */
  function Generation(run: seq<World>, t: nat, b: nat): nat {
    if t < |run| && b < |run[t].count| then run[t].count[b] / 2 else 0
  }

  // ----- GCLOCK

  /** The reader holds the pointer `cur`, decided when the generation was `loc`. */
  ghost predicate Standing(run: seq<World>, call: nat, t: nat, b: nat, key: int, cur: Option<Ref>, loc: nat) {
    match cur
    case None => Generation(run, t, b) == loc ==> Saw(run, call, t, b, key, false)
    case Some(n) => Good(run, call, t, b, key, n, loc)
  }

  lemma GenerationGrows(run: seq<World>, i: nat, j: nat, b: nat)
    requires Legal(run) && run[0].scheme == GcLock && i <= j < |run| && b < |run[0].tb.heads|
    ensures Generation(run, i, b) <= Generation(run, j, b)
    decreases j
  {
    if i < j {
      GenerationGrows(run, i, j - 1, b);
      RunInv(run, j - 1);
      assert StepAt(run, j - 1);
      var t: nat, c: Choice :| WriterStep(run[j - 1], t, c, run[j]);
      assert ThreadOk(run[j - 1], t);
    }
  }

  /** The node's key and link, loaded at t1 and t2, when the node was reached by t0. */
  lemma HopGc(run: seq<World>, call: nat, s: nat, t0: nat, t1: nat, t2: nat, b: nat, key: int,
              cur: Ref, loc: nat, curKey: int, next: Option<Ref>)
    requires Legal(run) && run[0].scheme == GcLock && b < |run[0].tb.heads|
    requires call <= s <= t0 <= t1 <= t2 < |run| && Generation(run, s, b) == loc
    requires Good(run, call, t0, b, key, cur, loc)
    requires cur < |run[t1].tb.mem| && curKey == run[t1].tb.mem[cur].key
    requires cur < |run[t2].tb.mem| && next == run[t2].tb.mem[cur].next
    ensures Generation(run, t1, b) == loc ==>
              run[t0].tb.mem[cur].key == curKey && Witnessed(run, call, t1, b, key, curKey)
    ensures curKey < key ==> Standing(run, call, t2, b, key, next, loc)
    ensures Generation(run, t2, b) == loc ==> Generation(run, t1, b) == loc
  {
    LoadsInRange(run, s, b, cur); LoadsInRange(run, t0, b, cur);
    LoadsInRange(run, t1, b, cur); LoadsInRange(run, t2, b, cur);
    GoodLater(run, call, t0, t1, b, key, cur, loc);
    GoodLater(run, call, t1, t2, b, key, cur, loc);
    if curKey < key {
      if next.Some? {
        RunKeeps(run, s, t2, b, next.value);
      }
      if Generation(run, t2, b) == loc {
        RunInv(run, t2);
        OwnedDecides(run[t2], b, cur, key);
        VerdictIsGood(run, call, s, t2, b, key, next, loc);
      }
    }
  }

  /** `lock_runlock`: compare the generation. */
  method ValidateGc(run: seq<World>, b: nat, loc: nat, t: nat) returns (ok: bool, t': nat)
    requires Legal(run) && run[0].scheme == GcLock && b < |run[0].tb.heads| && t < |run|
    ensures t <= t' < |run| && Generation(run, t, b) <= Generation(run, t', b)
    ensures ok <==> Generation(run, t', b) == loc
  {
    t' := Later(run, t);
    GenerationGrows(run, t, t', b);
    LoadsInRange(run, t', b, 0);
    ok := run[t'].count[b] / 2 == loc;
  }

  /** `lock_rlock`, then `cur = *head`. */
  method EnterGc(run: seq<World>, b: nat, key: int, ghost call: nat, begun: nat)
    returns (loc: nat, cur: Option<Ref>, t: nat, ghost s: nat)
    requires Legal(run) && run[0].scheme == GcLock && b < |run[0].tb.heads| && call <= begun < |run|
    ensures begun <= s <= t < |run| && Generation(run, s, b) == loc && Generation(run, begun, b) <= loc
    ensures Standing(run, call, t, b, key, cur, loc)
  {
    t := Later(run, begun);
    s := t;
    GenerationGrows(run, begun, s, b);
    LoadsInRange(run, t, b, 0);
    loc := run[t].count[b] / 2;
    t := Later(run, t);
    LoadsInRange(run, t, b, 0);
    cur := run[t].tb.heads[b];
    RunInv(run, t);
    HeadDecides(run[t], b, key);
    VerdictIsGood(run, call, s, t, b, key, cur, loc);
  }

  /** The loop body: `cur_key = cur->key`, and `cur->next` when the search goes on. */
  method StepGc(run: seq<World>, b: nat, key: int, ghost call: nat, ghost s: nat, t: nat, cur: Ref, loc: nat)
    returns (curKey: int, next: Option<Ref>, t': nat)
    requires Legal(run) && run[0].scheme == GcLock && b < |run[0].tb.heads| && call <= s <= t < |run|
    requires Generation(run, s, b) == loc && Good(run, call, t, b, key, cur, loc)
    ensures t <= t' < |run| && cur < |run[t].tb.mem|
    ensures Generation(run, t', b) == loc ==> run[t].tb.mem[cur].key == curKey && Witnessed(run, call, t', b, key, curKey)
    ensures curKey < key ==> Standing(run, call, t', b, key, next, loc)
    ensures curKey < key ==> cur < |run[t'].tb.mem| && next == run[t'].tb.mem[cur].next
  {
    LoadsInRange(run, t, b, cur);
    t' := Later(run, t);
    ghost var t1 := t';
    LoadsInRange(run, t', b, cur);
    curKey := run[t'].tb.mem[cur].key;
    next := None;
    if curKey < key {
      t' := Later(run, t');
      LoadsInRange(run, t', b, cur);
      next := run[t'].tb.mem[cur].next;
    }
    HopGc(run, call, s, t, t1, t', b, key, cur, loc, curKey, run[t'].tb.mem[cur].next);
  }

  /** The bound on the nodes an attempt visits, with `ahead` of them to come. */
  ghost predicate Affordable(run: seq<World>, begun: nat, t: nat, cur: Option<Ref>, visits: nat, ahead: nat) {
    && t < |run| && begun <= t && Ends(run[t].tb.mem, cur, ahead)
    && visits + ahead <= |run[0].tb.mem| * (1 + Disturbances(run, begun, t))
  }

  /** A visit: as long as no link moves, one node less is ahead; if one does, what
      is ahead still fits the memory. */
  lemma VisitCosts(run: seq<World>, begun: nat, t: nat, t': nat, cur: Ref, next: Option<Ref>, visits: nat, ahead: nat)
    returns (left: nat)
    requires Legal(run) && begun <= t <= t' < |run| && Affordable(run, begun, t, Some(cur), visits, ahead)
    requires cur < |run[t'].tb.mem| && next == run[t'].tb.mem[cur].next
    ensures Affordable(run, begun, t', next, visits + 1, left)
    ensures t == t' ==> left < ahead
  {
    RunInv(run, t);
    RunInv(run, t');
    DisturbancesAdd(run, begun, t, t');
    if Disturbances(run, t, t') == 0 {
      UndisturbedIsQuiet(run, t, t');
      left := ahead - 1;
      SameEnds(run[t].tb.mem, run[t'].tb.mem, next, left);
    } else {
      left := NodesAhead(run, t', next);
      var m, d, d' := |run[0].tb.mem|, Disturbances(run, begun, t), Disturbances(run, begun, t');
      assert m * (1 + d') == m * (1 + d) + m * (d' - d);
      assert m * (d' - d) >= m * 1 by { TimesGrows(m, 1, d' - d); }
    }
  }

  lemma TimesGrows(m: nat, x: nat, y: nat)
    requires x <= y
    ensures m * x <= m * y
  {
    assert m * y - m * x == m * (y - x);
  }

  /** From `search_retry:` to a return or to `goto search_retry`.  Nothing is compared
      on the way; that the attempt ends rests on the links being acyclic at every
      instant.  It visits at most as many nodes as there are, once more for each
      store to a link or a generation meanwhile. */
  method AttemptGc(run: seq<World>, b: nat, key: int, ghost call: nat, begun: nat)
    returns (outcome: Outcome, t: nat, visits: nat)
    requires Legal(run) && run[0].scheme == GcLock && b < |run[0].tb.heads| && call <= begun < |run|
    ensures begun <= t < |run|
    ensures outcome.Return? ==> Answered(run, call, t, b, key, outcome.found)
    ensures outcome.Retry? ==> Generation(run, begun, b) < Generation(run, t, b)
    ensures !outcome.Blocked?
    ensures visits <= |run[0].tb.mem| * (1 + Disturbances(run, begun, t))
  {
    var loc, cur;
    ghost var s;
    loc, cur, t, s := EnterGc(run, b, key, call, begun);
    visits := 0;
    ghost var ahead := FirstVisit(run, begun, t, cur);
    while cur.Some?
      invariant s <= t < |run|
      invariant Standing(run, call, t, b, key, cur, loc)
      invariant Affordable(run, begun, t, cur, visits, ahead)
      decreases |run| - t, ahead
    {
      ghost var t0 := t;
      var curKey, next;
      curKey, next, t := StepGc(run, b, key, call, s, t, cur.value, loc);
      if curKey >= key {
        outcome, t := LeaveGc(run, b, key, call, begun, s, t, loc, curKey == key);
        MoreAffordable(run, begun, t0, t, visits + 1);
        return outcome, t, visits + 1;
      }
      ahead := VisitCosts(run, begun, t0, t, cur.value, next, visits, ahead);
      visits, cur := visits + 1, next;
    }
    ghost var t0 := t;
    outcome, t := LeaveGc(run, b, key, call, begun, s, t, loc, false);
    MoreAffordable(run, begun, t0, t, visits);
  }

  lemma FirstVisit(run: seq<World>, begun: nat, t: nat, cur: Option<Ref>) returns (ahead: nat)
    requires Legal(run) && begun <= t < |run| && (cur.Some? ==> cur.value < |run[t].tb.mem|)
    ensures Affordable(run, begun, t, cur, 0, ahead)
  {
    RunInv(run, t);
    ahead := NodesAhead(run, t, cur);
    TimesGrows(|run[0].tb.mem|, 1, 1 + Disturbances(run, begun, t));
  }

  lemma MoreAffordable(run: seq<World>, begun: nat, t: nat, t': nat, visits: nat)
    requires begun <= t <= t' < |run| && visits <= |run[0].tb.mem| * (1 + Disturbances(run, begun, t))
    ensures visits <= |run[0].tb.mem| * (1 + Disturbances(run, begun, t'))
  {
    DisturbancesAdd(run, begun, t, t');
    TimesGrows(|run[0].tb.mem|, 1 + Disturbances(run, begun, t), 1 + Disturbances(run, begun, t'));
  }

  /** `lock_runlock`, and the return. */
  method LeaveGc(run: seq<World>, b: nat, key: int, ghost call: nat, ghost begun: nat, ghost s: nat, t: nat, loc: nat,
                 found: bool)
    returns (outcome: Outcome, t': nat)
    requires Legal(run) && run[0].scheme == GcLock && b < |run[0].tb.heads| && call <= begun <= s <= t < |run|
    requires Generation(run, begun, b) <= loc == Generation(run, s, b)
    requires Generation(run, t, b) == loc ==> Saw(run, call, t, b, key, found)
    ensures t <= t' < |run|
    ensures outcome == Return(found) ==> Answered(run, call, t', b, key, found)
    ensures outcome == Return(found) || (outcome == Retry && Generation(run, begun, b) < Generation(run, t', b))
  {
    GenerationGrows(run, s, t, b);
    var ok;
    ok, t' := ValidateGc(run, b, loc, t);
    if ok {
      SawContains(run, call, t, b, key, found);
      outcome := Return(found);
    } else {
      outcome := Retry;
    }
  }

  /** The GCLOCK `search`.  It retries at most once per unlock of its bucket
      during the call, although deletes free after they unlock. */
  method SearchGc(run: seq<World>, b: nat, key: int, call: nat) returns (found: bool, ret: nat, retries: nat)
    requires Legal(run) && run[0].scheme == GcLock && b < |run[0].tb.heads| && call < |run|
    ensures call <= ret < |run|
    ensures Answered(run, call, ret, b, key, found)
    ensures Generation(run, call, b) + retries <= Generation(run, ret, b)
  {
    ret, retries := call, 0;
    while true
      invariant call <= ret < |run|
      invariant Generation(run, call, b) + retries <= Generation(run, ret, b)
      decreases |run| - ret
    {
      ghost var begun := ret;
      var outcome, visits;
      outcome, ret, visits := AttemptGc(run, b, key, call, ret);
      if outcome.Return? {
        GenerationGrows(run, begun, ret, b);
        return outcome.found, ret, retries;
      }
      retries := retries + 1;
    }
  }

  // ----- SEQLOCK

  /** The lock word. */
  function Word(run: seq<World>, t: nat, b: nat): nat {
    if t < |run| && b < |run[t].count| then run[t].count[b] else 0
  }

  /** An even word that does not change is a list that does not change. */
  lemma StepFrozen(w: World, t: nat, c: Choice, w': World, b: nat)
    requires Inv(w) && WriterStep(w, t, c, w') && Locked(w.scheme) && b < |w.count| && w.count[b] % 2 == 0
    ensures b < |w'.count| && w.count[b] <= w'.count[b] && SameBucket(w.tb, w'.tb, b)
  {
    assert ThreadOk(w, t) && HolderOk(w, b);
    if w.threads[t].Inside? {
      InsideInv(w, t, c, w');
      ConfinedOthers(w.tb, w'.tb, w.threads[t].b, t, b);
    } else if w.threads[t].Freeing? {
      FreeInv(w, t, c, w');
    } else {
      OutsideInv(w, t, c, w');
    }
  }

  lemma WordGrows(run: seq<World>, i: nat, j: nat, b: nat)
    requires Legal(run) && Locked(run[0].scheme) && i <= j < |run| && b < |run[0].tb.heads|
    ensures Word(run, i, b) <= Word(run, j, b)
    decreases j
  {
    if i < j {
      WordGrows(run, i, j - 1, b);
      RunInv(run, j - 1);
      assert StepAt(run, j - 1);
      var t: nat, c: Choice :| WriterStep(run[j - 1], t, c, run[j]);
      assert ThreadOk(run[j - 1], t);
    }
  }

  /** No store to the bucket's list falls between `i` and `j`. */
  ghost predicate Frozen(run: seq<World>, i: nat, j: nat, b: nat) {
    i <= j < |run| &&
    forall m: nat :: i <= m <= j ==> Word(run, m, b) == Word(run, i, b) && SameBucket(run[i].tb, run[m].tb, b)
  }

  lemma {:induction false} EvenWordFreezes(run: seq<World>, i: nat, j: nat, b: nat)
    requires Legal(run) && Locked(run[0].scheme) && i <= j < |run| && b < |run[0].tb.heads|
    requires Word(run, i, b) == Word(run, j, b) && Word(run, i, b) % 2 == 0
    ensures Frozen(run, i, j, b)
    decreases j
  {
    RunInv(run, i);
    if i < j {
      WordGrows(run, i, j - 1, b);
      WordGrows(run, j - 1, j, b);
      EvenWordFreezes(run, i, j - 1, b);
      RunInv(run, j - 1);
      assert StepAt(run, j - 1);
      var t: nat, c: Choice :| WriterStep(run[j - 1], t, c, run[j]);
      assert SameBucket(run[i].tb, run[j - 1].tb, b);
      StepFrozen(run[j - 1], t, c, run[j], b);
      SameBucketTrans(run[i].tb, run[j - 1].tb, run[j].tb, b);
    }
  }

  lemma SameBucketTrans(x: Table, y: Table, z: Table, b: nat)
    requires SameBucket(x, y, b) && SameBucket(y, z, b)
    ensures SameBucket(x, z, b)
  {
  }

  /** The guarantee of a sequence lock: over its whole last attempt the word was
      one even value and the list one list, and the answer is its membership. */
  ghost predicate Snapshot(run: seq<World>, s: nat, t: nat, b: nat, key: int, found: bool) {
    && Frozen(run, s, t, b) && Word(run, s, b) % 2 == 0
    && forall m: nat :: s <= m <= t ==> b < |run[m].tb.heads| && (Contains(run[m].tb, b, key) <==> found)
  }

  lemma FrozenSnapshot(run: seq<World>, s: nat, t: nat, b: nat, key: int, found: bool)
    requires Legal(run) && b < |run[0].tb.heads| && Frozen(run, s, t, b) && Word(run, s, b) % 2 == 0
    requires Has(run[s].tb, b, key) <==> found
    ensures Snapshot(run, s, t, b, key, found)
  {
    forall m: nat | s <= m <= t ensures b < |run[m].tb.heads| && (Contains(run[m].tb, b, key) <==> found) {
      RunInv(run, m);
      assert SameBucket(run[s].tb, run[m].tb, b);
      SameBucketKeeps(run[s].tb, run[m].tb, b);
      ContainsIsHas(run[m].tb, b, key);
    }
  }

  /** The reader holds the pointer `cur`; if the word is unchanged since `s`, it
      is a pointer of the list of that instant. */
  ghost predicate Pinned(run: seq<World>, s: nat, t: nat, b: nat, key: int, cur: Option<Ref>) {
    && s <= t < |run|
    && (cur.Some? ==> cur.value < |run[t].tb.mem|)
    && (Word(run, t, b) == Word(run, s, b) ==> Verdict(run[s].tb, b, key, cur))
  }

  /** `lock_rlock`: spin until the word is even.  Loading an odd word twice is
      loading it once, so each further load happens at a later instant; at the
      end of the run the reader is still waiting for the writer. */
  method SpinRead(run: seq<World>, b: nat, begun: nat) returns (loc: nat, t: nat, blocked: bool)
    requires Legal(run) && b < |run[0].tb.heads| && begun < |run|
    ensures begun <= t < |run| && loc == Word(run, t, b)
    ensures blocked ==> t == |run| - 1 && loc % 2 == 1
    ensures !blocked ==> loc % 2 == 0
  {
    t := Later(run, begun);
    LoadsInRange(run, t, b, 0);
    loc := run[t].count[b];
    while loc % 2 == 1
      invariant begun <= t < |run| && loc == Word(run, t, b)
      decreases |run| - t
    {
      if t + 1 == |run| {
        return loc, t, true;
      }
      t := Later(run, t + 1);
      LoadsInRange(run, t, b, 0);
      loc := run[t].count[b];
    }
    blocked := false;
  }

  method ValidateSeq(run: seq<World>, b: nat, loc: nat, t: nat) returns (ok: bool, t': nat)
    requires Legal(run) && Locked(run[0].scheme) && b < |run[0].tb.heads| && t < |run|
    ensures t <= t' < |run| && Word(run, t, b) <= Word(run, t', b)
    ensures ok <==> Word(run, t', b) == loc
  {
    t' := Later(run, t);
    WordGrows(run, t, t', b);
    LoadsInRange(run, t', b, 0);
    ok := run[t'].count[b] == loc;
  }

  /** The loop body after its validation at `t`. */
  method StepSeq(run: seq<World>, b: nat, key: int, ghost s: nat, t: nat, cur: Ref)
    returns (curKey: int, next: Option<Ref>, t': nat)
    requires Legal(run) && Locked(run[0].scheme) && b < |run[0].tb.heads|
    requires Pinned(run, s, t, b, key, Some(cur)) && Word(run, s, b) == Word(run, t, b) && Word(run, s, b) % 2 == 0
    ensures t <= t' < |run| && cur < |run[s].tb.mem|
    ensures Word(run, t', b) == Word(run, s, b) ==> run[s].tb.mem[cur].key == curKey
    ensures curKey < key ==> Pinned(run, s, t', b, key, next)
    ensures curKey < key && Word(run, t', b) == Word(run, s, b) && next.Some? ==>
              next.value < |run[s].tb.mem| && curKey < run[s].tb.mem[next.value].key
  {
    LoadsInRange(run, s, b, cur);
    LoadsInRange(run, t, b, cur);
    t' := Later(run, t);
    ghost var t1 := t';
    LoadsInRange(run, t', b, cur);
    curKey := run[t'].tb.mem[cur].key;
    next := None;
    if curKey < key {
      t' := Later(run, t');
      LoadsInRange(run, t', b, cur);
      next := run[t'].tb.mem[cur].next;
    }
    HopSeq(run, s, t1, t', b, key, cur, curKey, run[t'].tb.mem[cur].next);
  }

  lemma HopSeq(run: seq<World>, s: nat, t1: nat, t2: nat, b: nat, key: int, cur: Ref, curKey: int, next: Option<Ref>)
    requires Legal(run) && Locked(run[0].scheme) && b < |run[0].tb.heads| && s <= t1 <= t2 < |run|
    requires Word(run, s, b) % 2 == 0 && LinkedIn(run[s].tb, b, cur)
    requires cur < |run[t1].tb.mem| && curKey == run[t1].tb.mem[cur].key
    requires cur < |run[t2].tb.mem| && next == run[t2].tb.mem[cur].next
    ensures Word(run, t2, b) == Word(run, s, b) ==> run[s].tb.mem[cur].key == curKey
    ensures Word(run, t2, b) == Word(run, s, b) && curKey < key ==> Verdict(run[s].tb, b, key, next)
    ensures Word(run, t2, b) == Word(run, s, b) && curKey < key && next.Some? ==> curKey < run[s].tb.mem[next.value].key
  {
    if Word(run, t2, b) == Word(run, s, b) {
      EvenWordFreezes(run, s, t2, b);
      assert SameBucket(run[s].tb, run[t1].tb, b) && SameBucket(run[s].tb, run[t2].tb, b);
      RunInv(run, s);
      assert BucketOk(run[s].tb, b);
      FirstDecidesIfBelow(run[s].tb, b, cur, key);
    }
  }

  lemma FirstDecidesIfBelow(tb: Table, b: nat, cur: Ref, key: int)
    requires b < |tb.heads| && BucketOk(tb, b) && LinkedIn(tb, b, cur)
    ensures tb.mem[cur].key < key ==> Verdict(tb, b, key, tb.mem[cur].next)
    ensures tb.mem[cur].next.Some? ==>
              tb.mem[cur].next.value < |tb.mem| && tb.mem[cur].key < tb.mem[tb.mem[cur].next.value].key
  {
    if tb.mem[cur].key < key {
      FirstDecides(tb, b, Some(tb.mem[cur].key), tb.mem[cur].next, key);
    }
  }

  /** From `search_retry:` to a return or to `goto search_retry`.  `s` is the
      instant at which the attempt loaded its even word. */
  method AttemptSeq(run: seq<World>, b: nat, key: int, begun: nat) returns (outcome: Outcome, t: nat, ghost s: nat)
    requires Legal(run) && Locked(run[0].scheme) && b < |run[0].tb.heads| && begun < |run|
    ensures begun <= s <= t < |run|
    ensures outcome.Return? ==> Snapshot(run, s, t, b, key, outcome.found)
    ensures outcome.Retry? ==> Word(run, begun, b) < Word(run, t, b)
    ensures outcome.Blocked? ==> t == |run| - 1 && Word(run, t, b) % 2 == 1
  {
    var loc, ok;
    var cur: Option<Ref>;
    loc, t, ok := SpinRead(run, b, begun);
    s := t;
    WordGrows(run, begun, s, b);
    if ok {
      return Blocked, t, s;
    }
    cur, t := HeadSeq(run, b, key, s, t);
    ghost var low := None;
    while cur.Some?
      invariant s <= t < |run|
      invariant Pinned(run, s, t, b, key, cur)
      invariant low.Some? ==> low.value < key
      invariant low.Some? && cur.Some? && Word(run, t, b) == loc ==>
                  cur.value < |run[s].tb.mem| && low.value < run[s].tb.mem[cur.value].key
      decreases Word(run, t, b) == loc, low.None?, if low.None? then 0 else key - low.value
    {
      WordGrows(run, s, t, b);
      ok, t := ValidateSeq(run, b, loc, t);
      if !ok {
        return Retry, t, s;
      }
      LoadsInRange(run, t, b, cur.value);
      LoadsInRange(run, s, b, cur.value);
      ghost var t0 := t;
      var curKey;
      var next: Option<Ref>;
      curKey, next, t := StepSeq(run, b, key, s, t, cur.value);
      WordGrows(run, t0, t, b);
      if curKey >= key {
        ok, t := ValidateSeq(run, b, loc, t);
        if !ok {
          return Retry, t, s;
        }
        Settle(run, s, t, b, key, curKey == key);
        return Return(curKey == key), t, s;
      }
      cur, low := next, Some(curKey);
    }
    WordGrows(run, s, t, b);
    ok, t := ValidateSeq(run, b, loc, t);
    if !ok {
      return Retry, t, s;
    }
    Settle(run, s, t, b, key, false);
    return Return(false), t, s;
  }

  lemma Settle(run: seq<World>, s: nat, t: nat, b: nat, key: int, found: bool)
    requires Legal(run) && Locked(run[0].scheme) && b < |run[0].tb.heads| && s <= t < |run|
    requires Word(run, s, b) == Word(run, t, b) && Word(run, s, b) % 2 == 0
    requires Has(run[s].tb, b, key) <==> found
    ensures Snapshot(run, s, t, b, key, found)
  {
    EvenWordFreezes(run, s, t, b);
    FrozenSnapshot(run, s, t, b, key, found);
  }

  /** `cur = *head` */
  method HeadSeq(run: seq<World>, b: nat, key: int, ghost s: nat, t: nat) returns (cur: Option<Ref>, t': nat)
    requires Legal(run) && Locked(run[0].scheme) && b < |run[0].tb.heads| && s <= t < |run|
    requires Word(run, s, b) % 2 == 0
    ensures t <= t' < |run| && Pinned(run, s, t', b, key, cur)
  {
    t' := Later(run, t);
    LoadsInRange(run, t', b, 0);
    cur := run[t'].tb.heads[b];
    if Word(run, t', b) == Word(run, s, b) {
      EvenWordFreezes(run, s, t', b);
      assert SameBucket(run[s].tb, run[t'].tb, b);
      RunInv(run, s);
      HeadDecides(run[s], b, key);
    }
  }

  /** The SEQLOCK `search`.  `s` is the start of its last attempt.  It is blocked
      only if the run ends while a writer holds the bucket, and every retry was
      forced by a change of the word. */
  method SearchSeq(run: seq<World>, b: nat, key: int, call: nat)
    returns (outcome: Outcome, ret: nat, retries: nat, ghost s: nat)
    requires Legal(run) && Locked(run[0].scheme) && b < |run[0].tb.heads| && call < |run|
    ensures call <= s <= ret < |run|
    ensures outcome.Return? ==> Snapshot(run, s, ret, b, key, outcome.found)
    ensures !outcome.Return? ==> ret == |run| - 1 && Word(run, ret, b) % 2 == 1
    ensures Word(run, call, b) + retries <= Word(run, ret, b)
  {
    ret, retries, s := call, 0, call;
    while true
      invariant call <= ret < |run|
      invariant Word(run, call, b) + retries <= Word(run, ret, b)
      decreases |run| - ret
    {
      ghost var begun := ret;
      outcome, ret, s := AttemptSeq(run, b, key, ret);
      if !outcome.Retry? {
        WordGrows(run, begun, ret, b);
        return outcome, ret, retries, s;
      }
      retries := retries + 1;
    }
  }
}
