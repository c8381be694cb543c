/** Two concrete runs: one in which the CHECK_CCRT assertion fails, and one in which
    GECOS_B reads `prev_gc` before any assignment.

    One thread inserts a key into the one bucket and deletes it again; the pool has
    one node. */
module Witness {
  import opened Buckets
  import opened ListWriter
  import opened Worlds
  import opened Trails
  import G = Gecos

  function State(head: Option<Ref>, node: Node, s: Status, th: Thread): World {
    World(Scheme.Gecos, Table([head], [node], [s]), [0], [th], [if th.Resting? then None else Some(0)])
  }

  /** The instants of `insert(k)`, 0 to 7, and of `delete(k)`, 7 to 11. */
  function Instant(k: int, i: nat): World {
    match i
    case 0 => State(None, Node(0, None, 0, 0), Free, Resting)
    case 1 => State(None, Node(0, None, 0, 0), Free, Inside(0, Walking(false, k, Head, None)))
    case 2 => State(None, Node(0, None, 0, 0), Free, Inside(0, Allocating(k, Head, None)))
    case 3 => State(None, Node(0, None, 0, 0), Private(0), Inside(0, Keying(0, k, Head, None)))
    case 4 => State(None, Node(k, None, 0, 0), Private(0), Inside(0, Linking(0, k, Head, None)))
    case 5 => State(None, Node(k, None, 0, 0), Private(0), Inside(0, Publishing(0, k, Head, None)))
    case 6 => State(Some(0), Node(k, None, 0, 0), Linked(0), Inside(0, Idle(true)))
    case 7 => State(Some(0), Node(k, None, 0, 0), Linked(0), Resting)
    case 8 => State(Some(0), Node(k, None, 0, 0), Linked(0), Inside(0, Walking(true, k, Head, Some(0))))
    case 9 => State(Some(0), Node(k, None, 0, 0), Linked(0), Inside(0, Unlinking(k, Head, 0)))
    case 10 => State(None, Node(k, None, 0, 0), Unlinked(0), Inside(0, Reclaiming(0, 0)))
    case _ => State(None, Node(k, None, 0, 1), Retired(0), Inside(0, Reclaiming(0, 1)))
  }

  ghost function Run(k: int, n: nat): (run: seq<World>)
    ensures |run| == n && forall i: nat :: i < n ==> run[i] == Instant(k, i)
  {
    seq(n, i requires 0 <= i < n => Instant(k, i))
  }

  function ChoiceAt(k: int, i: nat): Choice {
    Choice(0, i >= 7, k, 0)
  }

  lemma Steps(k: int, i: nat)
    requires i < 11
    ensures WriterStep(Instant(k, i), 0, ChoiceAt(k, i), Instant(k, i + 1))
  {
  }

  lemma RunIsLegal(k: int, n: nat)
    requires 0 < n <= 12
    ensures Legal(Run(k, n))
  {
    var run := Run(k, n);
    assert Initial(run[0]);
    forall i: nat ensures StepAt(run, i) {
      if i + 1 < |run| {
        Steps(k, i);
      }
    }
  }

  /** Any search for a key above a negative key `k`, called while the bucket holds
      `k`, at any instant from 6 on: the CHECK_CCRT assertion fails. */
  method NegativeKeyFails(run: seq<World>, when: seq<nat>, k: int, n: nat, key: int, call: nat)
    returns (found: bool, ccrt: bool)
    requires k < 0 && k < key && 6 <= call < n <= 10 && run == Run(k, n)
    ensures Legal(run) && !ccrt
  {
    RunIsLegal(k, n);
    assert run[0] == Instant(k, 0);
    var ret, attempts, trail;
    found, ret, attempts, trail, ccrt := G.Search(run, when, 0, key, call);
    forall m: nat | call <= m <= ret ensures LinkedIn(run[m].tb, 0, 0) && run[m].tb.mem[0].key == k {
      assert run[m] == Instant(k, m);
    }
    assert Stays(run, call, ret, 0, 0, k);
  }

  /** A search called at instant 7 that loads the head, the generation and the link
      there, and the generation again at instant 11, compares with `prev_gc` before
      any assignment. */
  method UnsetPrevHappens(run: seq<World>, k: int, key: int) returns (found: bool, defined: bool)
    requires run == Run(k, 12)
    ensures Legal(run) && !defined
  {
    RunIsLegal(k, 12);
    assert run[0] == Instant(k, 0) && run[7] == Instant(k, 7) && run[11] == Instant(k, 11);
    var when := [7, 7, 7, 7, 7, 7, 7, 11];
    assert G.SameNext(run, 0, 7, 7) && G.WasHead(run, 0, 0, 7);
    assert G.FirstLost(run, when, 0, 0, 7);
    var ret, attempts, backs;
    found, ret, attempts, backs, defined := G.SearchBack(run, when, 0, key, 7);
  }
}
