/** The re-checks of list_hp.c's search, read off the run: when each was made, at
    which link, and which nodes are protected by it. */
module HazardChecks {
  import opened Buckets
  import opened HazardPointers
  import opened HazardSafety

  /** `*prev != cur`: the search goes on to read the node exactly if the link still
      leads to it, and starts again from the head otherwise. */
  lemma RecheckDecides(w: World, t: nat, c: Choice, w': World, cur: Ref)
    requires Taken(w, t, c, w') && w.threads[t].pc == Rechecking(cur)
    ensures LocOk(w.tb, w.threads[t].b, w.threads[t].prev) && t < |w'.threads|
    ensures w'.threads[t].pc ==
            if Load(w.tb, w.threads[t].b, w.threads[t].prev) == Some(cur) then Hopping(cur) else Fetching
    ensures w'.threads[t].prev == w.threads[t].prev && w'.tb == w.tb && w'.slots == w.slots
  {
  }

  /** The step from instant `i` is a re-check by thread `t` that found its link
      unchanged. */
  ghost predicate Rechecked(run: seq<World>, i: nat, t: nat) {
    && i + 1 < |run| && t < |run[i].threads| && t < |run[i + 1].threads|
    && run[i].threads[t].pc.Rechecking? && run[i + 1].threads[t].pc.Hopping?
  }

  /** That link was the head, or the link of a node that was linked at that instant. */
  ghost predicate Trusted(run: seq<World>, i: nat, t: nat) {
    && i < |run| && t < |run[i].threads|
    && var th := run[i].threads[t];
       th.prev.Head? || LinkedIn(run[i].tb, th.b, th.prev.node)
  }

  /** The last successful re-check before instant `j` on the way from the head. */
  ghost function LastCheck(run: seq<World>, j: nat, t: nat): (i: Option<nat>)
    requires j < |run|
    ensures i.Some? ==> i.value < j && Rechecked(run, i.value, t)
  {
    if j == 0 || t >= |run[j].threads| || run[j].threads[t].pc.Resting? || run[j].threads[t].pc.Fetching? then None
    else if Rechecked(run, j - 1, t) then Some(j - 1)
    else LastCheck(run, j - 1, t)
  }

  /** The last re-check before instant `j`, if any, was made at a trusted link. */
  ghost predicate LastTrusted(run: seq<World>, j: nat, t: nat)
    requires j < |run|
  {
    LastCheck(run, j, t).Some? ==> Trusted(run, LastCheck(run, j, t).value, t)
  }

  /** So was the one before. */
  ghost predicate LastTwoTrusted(run: seq<World>, j: nat, t: nat)
    requires j < |run|
  {
    && LastTrusted(run, j, t)
    && (LastCheck(run, j, t).Some? ==> LastTrusted(run, LastCheck(run, j, t).value, t))
  }

  /** The node whose link thread `t` re-checked last. */
  ghost predicate CheckedLast(run: seq<World>, j: nat, t: nat, n: Ref)
    requires j < |run|
  {
    && LastCheck(run, j, t).Some?
    && run[LastCheck(run, j, t).value].threads[t].pc == Rechecking(n)
  }

  /** What the history variables of the search record. */
  ghost predicate FlagsTell(run: seq<World>, j: nat, t: nat)
    requires j < |run|
  {
    t < |run[j].threads| ==>
      var th := run[j].threads[t];
      && (Traversing(th.pc) || th.pc.Returned? ==> (th.known <==> LastTrusted(run, j, t)))
      && (th.pc.Posting? || th.pc.Rechecking? ==> th.prevKnown == th.known)
      && (th.pc.Hopping? || th.pc.Comparing? ==>
            CheckedLast(run, j, t, th.pc.cur)
            && (th.prevKnown <==> LastTrusted(run, LastCheck(run, j, t).value, t)))
      && (th.pc.Returned? && LastTwoTrusted(run, j, t) ==> th.prevKnown)
      && (th.pc.Posting? || th.pc.Rechecking? ==> if th.prev.Head? then true else CheckedLast(run, j, t, th.prev.node))
  }

  lemma FlagsStep(run: seq<World>, j: nat, t: nat, u: nat, c: Choice)
    requires j + 1 < |run| && Taken(run[j], u, c, run[j + 1]) && FlagsTell(run, j, t)
    ensures FlagsTell(run, j + 1, t)
  {
    OthersSame(run[j], u, c, run[j + 1]);
    if t == u {
      FlagsSelf(run, j, t, c);
    }
  }

  lemma FlagsSelf(run: seq<World>, j: nat, t: nat, c: Choice)
    requires j + 1 < |run| && Taken(run[j], t, c, run[j + 1]) && FlagsTell(run, j, t)
    ensures FlagsTell(run, j + 1, t)
  {
    var pc := run[j].threads[t].pc;
    if IsWriter(pc) {
      WriterStaysOut(run[j], t, c, run[j + 1]);
      WriterNoReturn(run[j], t, c, run[j + 1]);
    } else if pc.Rechecking? {
      RecheckDecides(run[j], t, c, run[j + 1], pc.cur);
    } else if pc.Fetching? {
      assert LastCheck(run, j, t) == None;
    }
  }

  lemma WriterNoReturn(w: World, t: nat, c: Choice, w': World)
    requires Taken(w, t, c, w') && IsWriter(w.threads[t].pc)
    ensures t < |w'.threads| && !w'.threads[t].pc.Returned?
  {
  }

  lemma {:induction false} RunFlags(run: seq<World>, j: nat, t: nat)
    requires Legal(run) && j < |run|
    ensures FlagsTell(run, j, t)
  {
    if j > 0 {
      RunFlags(run, j - 1, t);
      assert StepAt(run, j - 1);
      var u: nat, c: Choice :| Taken(run[j - 1], u, c, run[j]);
      FlagsStep(run, j - 1, t, u, c);
    }
  }

  /** Whenever a search reads a field of the current node, or of the node of `prev`,
      the last re-check on its way was of the link to that node; and if that link was
      the head or belonged to a linked node, the node has not been freed since. */
  lemma ReadsNoFreeNode(run: seq<World>, j: nat, t: nat)
    requires Legal(run) && j < |run| && t < |run[j].threads|
    ensures var w, th := run[j], run[j].threads[t];
            && (th.pc.Hopping? || th.pc.Comparing? ==>
                  && CheckedLast(run, j, t, th.pc.cur)
                  && (LastTrusted(run, j, t) ==> th.pc.cur < |w.tb.status| && NotFreed(w.tb.status[th.pc.cur])))
            && (th.pc.Rechecking? && th.prev.NextOf? ==>
                  && CheckedLast(run, j, t, th.prev.node)
                  && (LastTrusted(run, j, t) ==> th.prev.node < |w.tb.status| && NotFreed(w.tb.status[th.prev.node])))
  {
    RunGuarded(run, j);
    assert Guarded(run[j], t);
    RunFlags(run, j, t);
  }
}
