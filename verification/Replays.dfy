/** When the live ledger is the replay of the canonical chain, and how far a reorg can reach. */
module Replays {
  import opened Words
  import opened Fork
  import opened Chain
  import opened Finality

  /* ----- Blocks that execute ----- */

  ghost predicate Runs<S>(r: Rules<S>, g: Origin<S>, bodies: map<Hash, Block>, id: Hash)
    requires Linked(bodies)
  {
    Replay(r, g, bodies, id).ok
  }

  /** Every stored block executes on the ledger its parent leaves. */
  ghost predicate Executable<S>(r: Rules<S>, g: Origin<S>, n: Node<S>)
    requires Linked(n.bodies)
  {
    forall id {:trigger Runs(r, g, n.bodies, id)} :: id in n.bodies ==> Runs(r, g, n.bodies, id)
  }

  lemma {:induction false} ExecutableBefore<S>(r: Rules<S>, g: Origin<S>, n: Node<S>, m: Node<S>)
    requires Inv(r, g, n) && Inv(r, g, m) && Extends(n.bodies, m.bodies) && Executable(r, g, m)
    ensures Executable(r, g, n)
  {
    forall id | id in n.bodies ensures Runs(r, g, n.bodies, id) {
      WalkStays(n.bodies, m.bodies, id, r.id(g.block.header));
      assert Runs(r, g, m.bodies, id);
    }
  }

  /** What receiving a block does to a node whose ledger is the replay. */
  lemma {:induction false} ReceiveWhenLive<S>(r: Rules<S>, g: Origin<S>, n: Node<S>, b: Block)
    requires Inv(r, g, n) && Live(r, g, n) && r.id(b.header) != ZERO
    ensures var x := Accept(r, n, b);
            && Inv(r, g, x.node)
            && (x.err != Some(ReorgReplay) ==> Live(r, g, x.node))
            && (Executable(r, g, x.node) ==> x.err != Some(ReorgReplay))
  {
    AcceptKeeps(r, g, n, b);
    if r.id(b.header) !in n.nodes && Refusal(r, n, b).None? {
      var m := Record(r, n, b);
      RecordKeepsShape(r, g, n, b);
      RecordKeepsBase(r, g, n, m);
      FollowWhenLive(r, g, m);
    }
  }

  lemma {:induction false} FollowWhenLive<S>(r: Rules<S>, g: Origin<S>, n: Node<S>)
    requires Inv(r, g, n) && Live(r, g, n)
    ensures var x := Follow(r, n);
            && x.node.bodies == n.bodies && (x.err.Some? ==> x.err == Some(ReorgReplay))
            && (Executable(r, g, n) ==> x.err.None?)
  {
    TipIsKnown(r, g, n);
    var best, head := Best(n.nodes), r.id(n.head);
    if best != head {
      TipIsNotBase(r, g, n);
      assert Executable(r, g, n) ==> Runs(r, g, n.bodies, best);
      if Walk(n.bodies, best, head).Some? {
        ForwardKeeps(r, g, n, best);
      } else if Walk(n.bodies, best, n.baseId).Some? {
        RewindKeeps(r, g, n, best);
      }
    }
  }

  /** The exact effect of a failed step: a divergent branch changes nothing but the record of the
      block; a fast-forward that fails leaves head and base alone and the ledger where execution
      stopped, so it stays the replay just when that is where it started. */
  lemma {:induction false} FailedReceive<S>(r: Rules<S>, g: Origin<S>, n: Node<S>, b: Block)
    requires Inv(r, g, n) && r.id(b.header) != ZERO && Accept(r, n, b).err == Some(ReorgReplay)
    ensures var m, x := Record(r, n, b), Accept(r, n, b);
            && Inv(r, g, m) && Best(m.nodes) in m.bodies
            && match Walk(m.bodies, Best(m.nodes), r.id(n.head))
               case None => x.node == m && (Live(r, g, n) ==> Live(r, g, x.node))
               case Some(suffix) =>
                 x.node == m.(state := ApplyAll(r, n.state, suffix).state) && !ApplyAll(r, n.state, suffix).ok
                 && (Live(r, g, n) ==> (Live(r, g, x.node) <==> ApplyAll(r, n.state, suffix).state == n.state))
  {
    var m := Record(r, n, b);
    RecordKeepsShape(r, g, n, b);
    RecordKeepsBase(r, g, n, m);
    TipIsKnown(r, g, m);
    var best, head := Best(m.nodes), r.id(m.head);
    TipIsNotBase(r, g, m);
    if Walk(m.bodies, best, head).Some? {
      ForwardKeeps(r, g, m, best);
    } else {
      RewindKeeps(r, g, m, best);
    }
  }

  /* ----- Ledgers that are the replay but for what execution does not see ----- */

  /** A preorder on ledgers that execution respects: alike ledgers accept the same blocks, and stay alike. */
  ghost predicate Respected<S(!new)>(r: Rules<S>, alike: (S, S) -> bool)
  {
    (forall s :: alike(s, s)) && (forall s, t, u :: alike(s, t) && alike(t, u) ==> alike(s, u))
    && forall s, t, height: nat, validator: seq<byte>, body: seq<byte> :: alike(s, t) ==>
         SameFor(alike, r.apply(s, height, validator, body), r.apply(t, height, validator, body))
  }

  ghost predicate SameFor<S(!new)>(alike: (S, S) -> bool, e: Exec<S>, e': Exec<S>)
  {
    e.ok == e'.ok && (e.ok ==> alike(e.state, e'.state))
  }

  /** The live ledger is like the replay of the canonical chain. */
  ghost predicate LiveLike<S(!new)>(r: Rules<S>, g: Origin<S>, alike: (S, S) -> bool, n: Node<S>)
    requires Linked(n.bodies)
  {
    var e := Replay(r, g, n.bodies, r.id(n.head));
    e.ok && alike(e.state, n.state)
  }

  lemma {:induction false} ApplyAllLike<S(!new)>(r: Rules<S>, alike: (S, S) -> bool, s: S, t: S, bs: seq<Block>)
    requires Respected(r, alike) && alike(s, t)
    ensures SameFor(alike, ApplyAll(r, s, bs), ApplyAll(r, t, bs))
    decreases bs
  {
    if bs != [] {
      var e, e' := Apply(r, s, bs[0]), Apply(r, t, bs[0]);
      assert SameFor(alike, e, e');
      if e.ok { ApplyAllLike(r, alike, e.state, e'.state, bs[1..]); }
    }
  }

  lemma {:induction false} FollowLike<S(!new)>(r: Rules<S>, g: Origin<S>, alike: (S, S) -> bool, n: Node<S>)
    requires Respected(r, alike) && Inv(r, g, n) && LiveLike(r, g, alike, n) && Executable(r, g, n)
    ensures var x := Follow(r, n); x.err.None? && Inv(r, g, x.node) && LiveLike(r, g, alike, x.node)
  {
    FollowKeeps(r, g, n);
    TipIsKnown(r, g, n);
    var best, head := Best(n.nodes), r.id(n.head);
    if best != head {
      TipIsNotBase(r, g, n);
      assert Runs(r, g, n.bodies, best) && Stored(r, g, n, best);
      if Walk(n.bodies, best, head).Some? {
        ReplayFrom(r, g, n, head, best);
        ApplyAllLike(r, alike, Replay(r, g, n.bodies, head).state, n.state, Walk(n.bodies, best, head).value);
        ForwardKeeps(r, g, n, best);
      } else if Walk(n.bodies, best, n.baseId).Some? {
        RewindKeeps(r, g, n, best);
      }
    }
  }

  lemma {:induction false} ReceiveLike<S(!new)>(r: Rules<S>, g: Origin<S>, alike: (S, S) -> bool, n: Node<S>, b: Block)
    requires Respected(r, alike) && Inv(r, g, n) && LiveLike(r, g, alike, n) && r.id(b.header) != ZERO
    requires Inv(r, g, Accept(r, n, b).node) && Executable(r, g, Accept(r, n, b).node)
    ensures LiveLike(r, g, alike, Accept(r, n, b).node) && Accept(r, n, b).err != Some(ReorgReplay)
  {
    if r.id(b.header) !in n.nodes && Refusal(r, n, b).None? {
      var m := Record(r, n, b);
      RecordKeepsShape(r, g, n, b);
      RecordKeepsBase(r, g, n, m);
      WalkStays(n.bodies, m.bodies, r.id(n.head), r.id(g.block.header));
      FollowKeepsBodies(r, g, m);
      assert Executable(r, g, m);
      FollowLike(r, g, alike, m);
    }
  }

  /** A block produced on a ledger like the replay executes on the replay too. */
  lemma {:induction false} ProduceLike<S(!new)>(r: Rules<S>, g: Origin<S>, alike: (S, S) -> bool, n: Node<S>,
      p: Proposal<S>)
    requires Respected(r, alike) && Inv(r, g, n) && LiveLike(r, g, alike, n) && NoCollision(r, n, Proposed(r, n, p))
    requires Produce(r, n, p).err.None?
    ensures Inv(r, g, Produce(r, n, p).node) && LiveLike(r, g, alike, Produce(r, n, p).node)
  {
    var b := Proposed(r, n, p);
    var e, head, id := Apply(r, n.state, b), r.id(n.head), r.id(b.header);
    var m, t := Record(r, n, b), Replay(r, g, n.bodies, r.id(n.head)).state;
    RecordKeepsShape(r, g, n, b);
    RecordKeepsBase(r, g, n, m);
    WalkStays(n.bodies, m.bodies, head, r.id(g.block.header));
    OneAbove(m.bodies, id, head);
    WalkJoins(m.bodies, id, head, m.baseId);
    ReplayFrom(r, g, m, head, id);
    assert SameFor(alike, Apply(r, t, b), e);
    assert ApplyAll(r, t, [b]) == Apply(r, t, b) by { assert [b][1..] == []; }
    MoveHeadKeeps(r, g, m, id, head, e.state);
  }

  /* ----- Runs of executable blocks ----- */

  /** A production that fails leaves the ledger like it was. */
  ghost predicate Harmless<S(!new)>(r: Rules<S>, g: Origin<S>, alike: (S, S) -> bool, n: Node<S>, s: Step<S>)
  {
    s.Make? && Inv(r, g, n) && Possible(r, g, n, s) && Take(r, g, n, s).err.Some? ==>
      alike(n.state, Take(r, g, n, s).node.state)
  }

  lemma {:induction false} StepLike<S(!new)>(r: Rules<S>, g: Origin<S>, alike: (S, S) -> bool, n: Node<S>, s: Step<S>,
      m: Node<S>)
    requires Respected(r, alike) == true && Inv(r, g, n) && LiveLike(r, g, alike, n) && Possible(r, g, n, s)
    requires m == Take(r, g, n, s).node && Inv(r, g, m) && Executable(r, g, m) && Harmless(r, g, alike, n, s)
    ensures LiveLike(r, g, alike, m) && Take(r, g, n, s).err != Some(ReorgReplay)
  {
    match s
    case Receive(b) => ReceiveLike(r, g, alike, n, b);
    case Make(p) =>
      if Produce(r, n, p).err.None? { ProduceLike(r, g, alike, n, p); }
  }

  /**
   At every point of a run of executable blocks in which failed productions leave the ledger like it
   was, it is like the replay of the canonical chain, and no replay fails.
   */
  lemma {:induction false} LiveOverRuns<S(!new)>(r: Rules<S>, g: Origin<S>, alike: (S, S) -> bool, ns: seq<Node<S>>,
      steps: seq<Step<S>>, i: nat)
    requires Run(r, g, ns, steps) && Respected(r, alike) == true && i < |ns|
    requires forall j :: 0 <= j < i ==> Harmless(r, g, alike, ns[j], steps[j])
    requires Linked(ns[i].bodies) && Executable(r, g, ns[i])
    ensures Inv(r, g, ns[i]) && LiveLike(r, g, alike, ns[i])
    ensures i > 0 ==> Inv(r, g, ns[i - 1]) && Possible(r, g, ns[i - 1], steps[i - 1])
                      && Take(r, g, ns[i - 1], steps[i - 1]).err != Some(ReorgReplay)
  {
    RunKeeps(r, g, ns, steps, i);
    if i == 0 {
      BeginsWell(r, g);
    } else {
      RunGoesForth(r, g, ns, steps, i - 1, i);
      ExecutableBefore(r, g, ns[i - 1], ns[i]);
      LiveOverRuns(r, g, alike, ns, steps, i - 1);
      var n, s := ns[i - 1], steps[i - 1];
      assert Follows(r, g, n, s, ns[i - 1 + 1]) && Harmless(r, g, alike, n, s);
      StepLike(r, g, alike, n, s, ns[i]);
    }
  }

  /** When no production fails, the ledger is the replay itself. */
  lemma {:induction false} LiveWhenMakesSucceed<S(!new)>(r: Rules<S>, g: Origin<S>, ns: seq<Node<S>>,
      steps: seq<Step<S>>, i: nat)
    requires Run(r, g, ns, steps) && i < |ns|
    requires forall j :: 0 <= j < i && steps[j].Make? ==> Succeeds(r, g, ns[j], steps[j])
    requires Linked(ns[i].bodies) && Executable(r, g, ns[i])
    ensures Inv(r, g, ns[i]) && Live(r, g, ns[i])
  {
    var same := (s: S, t: S) => s == t;
    forall j | 0 <= j < i ensures Harmless(r, g, same, ns[j], steps[j]) {
      if steps[j].Make? { assert Succeeds(r, g, ns[j], steps[j]); }
    }
    LiveOverRuns(r, g, same, ns, steps, i);
  }

  ghost predicate Succeeds<S>(r: Rules<S>, g: Origin<S>, n: Node<S>, s: Step<S>)
  {
    Inv(r, g, n) && Possible(r, g, n, s) ==> Take(r, g, n, s).err.None?
  }

  /* ----- How far a reorg reaches ----- */

  /** The base is at most the finality depth below the head. */
  ghost predicate Tight<S>(r: Rules<S>, n: Node<S>)
  {
    r.depth > 0 ==> n.head.height <= n.baseHeight + r.depth
  }

  ghost function Weight<S>(r: Rules<S>, g: Origin<S>, n: Node<S>): (w: nat)
    requires Shape(r, g, n)
  {
    assert Stored(r, g, n, r.id(n.head));
    n.nodes[r.id(n.head)].cum
  }

  /** From `n` to `m`: the base settles, the weight of the head does not fall, and every canonical
      block at least `depth` below the head stays canonical. */
  ghost predicate Bounded<S>(r: Rules<S>, g: Origin<S>, n: Node<S>, m: Node<S>)
    requires Inv(r, g, n) && Inv(r, g, m)
  {
    Tight(r, m) && Weight(r, g, n) <= Weight(r, g, m) && (m.head == n.head || Settled(r, n, m))
  }

  /** Moving the head to a heavier tip on which the base settles. */
  lemma {:induction false} SettlingIsBounded<S>(r: Rules<S>, g: Origin<S>, n: Node<S>, m: Node<S>, best: Hash)
    requires Inv(r, g, n) && Inv(r, g, m) && m.bodies == n.bodies && m.nodes == n.nodes && best in n.bodies
             && IsBest(n.nodes, best)
    requires m.head == n.bodies[best].header && best != r.id(n.head) && Settled(r, n, m)
    ensures Bounded(r, g, n, m)
  {
    assert Stored(r, g, n, best) && Stored(r, g, n, r.id(n.head)) && Heavier(n.nodes, best, r.id(n.head));
    assert Stored(r, g, m, r.id(m.head));
  }

  lemma {:induction false} FollowIsBounded<S>(r: Rules<S>, g: Origin<S>, n: Node<S>)
    requires Inv(r, g, n) && Executable(r, g, n) && Tight(r, n)
    ensures Inv(r, g, Follow(r, n).node) && Bounded(r, g, n, Follow(r, n).node)
  {
    FollowKeeps(r, g, n);
    TipIsKnown(r, g, n);
    var best, head, x := Best(n.nodes), r.id(n.head), Follow(r, n);
    if best != head {
      TipIsNotBase(r, g, n);
      assert Runs(r, g, n.bodies, best);
      if Walk(n.bodies, best, head).Some? {
        ForwardKeeps(r, g, n, best);
        if x.err.None? { SettlingIsBounded(r, g, n, x.node, best); } else { StandingIsBounded(r, g, n, x.node); }
      } else if Walk(n.bodies, best, n.baseId).Some? {
        RewindKeeps(r, g, n, best);
        SettlingIsBounded(r, g, n, x.node, best);
      }
    }
  }

  /** A step that fails moves neither the head nor the base. */
  lemma {:induction false} StandingIsBounded<S>(r: Rules<S>, g: Origin<S>, n: Node<S>, m: Node<S>)
    requires Inv(r, g, n) && Inv(r, g, m) && Tight(r, n) && m == n.(state := m.state)
    ensures Bounded(r, g, n, m)
  {
  }

  lemma {:induction false} ReceiveIsBounded<S>(r: Rules<S>, g: Origin<S>, n: Node<S>, b: Block)
    requires Inv(r, g, n) && Tight(r, n) && r.id(b.header) != ZERO
    requires Inv(r, g, Accept(r, n, b).node) && Executable(r, g, Accept(r, n, b).node)
    ensures Bounded(r, g, n, Accept(r, n, b).node)
  {
    if r.id(b.header) !in n.nodes && Refusal(r, n, b).None? {
      var m := Record(r, n, b);
      RecordKeepsShape(r, g, n, b);
      RecordKeepsBase(r, g, n, m);
      FollowKeepsBodies(r, g, m);
      assert Executable(r, g, m);
      FollowIsBounded(r, g, m);
      assert Stored(r, g, n, r.id(n.head)) && Stored(r, g, m, r.id(n.head));
    }
  }

  lemma {:induction false} FollowKeepsBodies<S>(r: Rules<S>, g: Origin<S>, n: Node<S>)
    requires Inv(r, g, n)
    ensures Follow(r, n).node.bodies == n.bodies
  {
    TipIsKnown(r, g, n);
    var best, head := Best(n.nodes), r.id(n.head);
    if best != head {
      TipIsNotBase(r, g, n);
      if Walk(n.bodies, best, head).Some? {
        ForwardKeeps(r, g, n, best);
      } else if Walk(n.bodies, best, n.baseId).Some? {
        RewindKeeps(r, g, n, best);
      }
    }
  }

  lemma {:induction false} MakeIsBounded<S>(r: Rules<S>, g: Origin<S>, n: Node<S>, p: Proposal<S>)
    requires Inv(r, g, n) && Tight(r, n) && NoCollision(r, n, Proposed(r, n, p))
    requires Inv(r, g, Produce(r, n, p).node) && Executable(r, g, Produce(r, n, p).node)
    ensures Bounded(r, g, n, Produce(r, n, p).node)
  {
    var b, x := Proposed(r, n, p), Produce(r, n, p);
    if x.err.Some? {
      StandingIsBounded(r, g, n, x.node);
    } else {
      ProduceMoves(r, g, n, p);
      assert Stored(r, g, n, r.id(n.head)) && Stored(r, g, x.node, r.id(b.header));
    }
  }

  lemma {:induction false} ProduceMoves<S>(r: Rules<S>, g: Origin<S>, n: Node<S>, p: Proposal<S>)
    requires Inv(r, g, n) && NoCollision(r, n, Proposed(r, n, p)) && Produce(r, n, p).err.None?
    requires Inv(r, g, Produce(r, n, p).node) && Executable(r, g, Produce(r, n, p).node)
    ensures Produce(r, n, p).node.head == Proposed(r, n, p).header && Settled(r, n, Produce(r, n, p).node)
  {
    var b := Proposed(r, n, p);
    var e, head, id := Apply(r, n.state, b), r.id(n.head), r.id(b.header);
    var m := Record(r, n, b);
    RecordKeepsShape(r, g, n, b);
    RecordKeepsBase(r, g, n, m);
    OneAbove(m.bodies, id, head);
    WalkJoins(m.bodies, id, head, m.baseId);
    MoveHeadKeeps(r, g, m, id, head, e.state);
    assert Runs(r, g, m.bodies, id);
  }

  /**
   Bounded reorgs. In a run of executable blocks, whether its steps succeed or not, every step leaves
   the base at most `depth` below the head, moved no further than that; the head's cumulative weight
   never falls; and no step takes a block off the canonical chain that is `depth` or more below the head.
   */
  lemma {:induction false} BoundedOverRuns<S>(r: Rules<S>, g: Origin<S>, ns: seq<Node<S>>, steps: seq<Step<S>>, i: nat)
    requires Run(r, g, ns, steps) && i < |ns| && Linked(ns[i].bodies) && Executable(r, g, ns[i])
    ensures Inv(r, g, ns[i]) && Tight(r, ns[i])
    ensures i > 0 ==> Inv(r, g, ns[i - 1]) && Bounded(r, g, ns[i - 1], ns[i])
  {
    RunKeeps(r, g, ns, steps, i);
    if i > 0 {
      RunGoesForth(r, g, ns, steps, i - 1, i);
      ExecutableBefore(r, g, ns[i - 1], ns[i]);
      BoundedOverRuns(r, g, ns, steps, i - 1);
      var n, s := ns[i - 1], steps[i - 1];
      assert Follows(r, g, n, s, ns[i - 1 + 1]);
      match s
      case Receive(b) => ReceiveIsBounded(r, g, n, b);
      case Make(p) => MakeIsBounded(r, g, n, p);
    }
  }

  lemma {:induction false} DeepBlocksStay<S>(r: Rules<S>, g: Origin<S>, ns: seq<Node<S>>, steps: seq<Step<S>>, i: nat,
      j: nat, id: Hash)
    requires Run(r, g, ns, steps) && i <= j < |ns| && r.depth > 0
    requires Linked(ns[i].bodies) && Executable(r, g, ns[i])
    requires id in ns[i].bodies && Ancestor(ns[i].bodies, id, r.id(ns[i].head))
    requires ns[i].bodies[id].header.height + r.depth <= ns[i].head.height
    ensures Inv(r, g, ns[j]) && id in ns[j].bodies && Ancestor(ns[j].bodies, id, r.id(ns[j].head))
  {
    BoundedOverRuns(r, g, ns, steps, i);
    AncestorsLineUp(ns[i].bodies, id, ns[i].baseId, r.id(ns[i].head));
    FinalityOverRuns(r, g, ns, steps, i, j, id);
  }
}
