/** What holds along every run of a node from its genesis block: finality, and the ledger as a replay. */
module Finality {
  import opened Words
  import opened Fork
  import opened Chain

  /** A genesis block and the ledger it makes. */
  datatype Origin<+S> = Origin(block: Block, state: S)

  ghost predicate GoodOrigin<S>(r: Rules<S>, g: Origin<S>)
  {
    g.block.header.height == 0 && g.block.header.prev == ZERO && r.id(g.block.header) != ZERO
  }

  ghost predicate Stored<S>(r: Rules<S>, g: Origin<S>, n: Node<S>, id: Hash)
    requires id in n.bodies
  {
    var h := n.bodies[id].header;
    r.id(h) == id && (h.prev == ZERO ==> id == r.id(g.block.header))
    && id in n.nodes && n.nodes[id] == Entry(h.prev, h.height, h.height + 1)
  }

  /** The tree, the bodies and the head fit together. */
  ghost predicate Shape<S>(r: Rules<S>, g: Origin<S>, n: Node<S>)
  {
    Linked(n.bodies) && n.nodes.Keys == n.bodies.Keys
    && r.id(g.block.header) in n.bodies && n.bodies[r.id(g.block.header)] == g.block && GoodOrigin(r, g)
    && (forall id {:trigger Stored(r, g, n, id)} :: id in n.bodies ==> Stored(r, g, n, id))
    && r.id(n.head) in n.bodies && n.bodies[r.id(n.head)].header == n.head
  }

  /** The ledger after the blocks from the genesis block up to `id`, if they all execute. */
  ghost function Replay<S>(r: Rules<S>, g: Origin<S>, bodies: map<Hash, Block>, id: Hash): (e: Exec<S>)
    requires Linked(bodies)
  {
    match Walk(bodies, id, r.id(g.block.header))
    case None => Exec(g.state, false)
    case Some(p) => ApplyAll(r, g.state, p)
  }

  /** The replay base is a block of the canonical chain, with the ledger of its replay. */
  ghost predicate Based<S>(r: Rules<S>, g: Origin<S>, n: Node<S>)
    requires Linked(n.bodies)
  {
    n.base.Some? && n.baseId in n.bodies && n.bodies[n.baseId].header.height == n.baseHeight
    && Ancestor(n.bodies, n.baseId, r.id(n.head))
    && Replay(r, g, n.bodies, n.baseId) == Exec(n.base.value, true)
  }

  ghost predicate Inv<S>(r: Rules<S>, g: Origin<S>, n: Node<S>)
  {
    Shape(r, g, n) && Based(r, g, n)
  }

  /** The live ledger is the replay of the canonical chain. */
  ghost predicate Live<S>(r: Rules<S>, g: Origin<S>, n: Node<S>)
    requires Linked(n.bodies)
  {
    Replay(r, g, n.bodies, r.id(n.head)) == Exec(n.state, true)
  }

  /* ----- Every block descends from the genesis block ----- */

  lemma {:induction false} FromGenesis<S>(r: Rules<S>, g: Origin<S>, n: Node<S>, id: Hash)
    requires Shape(r, g, n) && id in n.bodies
    ensures Ancestor(n.bodies, r.id(g.block.header), id)
    decreases Rank(n.bodies, id)
  {
    assert Stored(r, g, n, id);
    var prev := n.bodies[id].header.prev;
    if id != r.id(g.block.header) {
      assert HasParent(n.bodies, n.bodies[id]);
      FromGenesis(r, g, n, prev);
    }
  }

  /** Replaying to a descendant is replaying to the ancestor, then the path between. */
  lemma {:induction false} ReplayFrom<S>(r: Rules<S>, g: Origin<S>, n: Node<S>, a: Hash, d: Hash)
    requires Shape(r, g, n) && a in n.bodies && Ancestor(n.bodies, a, d)
    ensures var e := Replay(r, g, n.bodies, a);
            Replay(r, g, n.bodies, d) == if e.ok then ApplyAll(r, e.state, Walk(n.bodies, d, a).value) else e
  {
    var gid := r.id(g.block.header);
    FromGenesis(r, g, n, a);
    WalkJoins(n.bodies, d, a, gid);
    ApplyAllInTurn(r, g.state, Walk(n.bodies, a, gid).value, Walk(n.bodies, d, a).value);
  }

  /* ----- Recording a block ----- */

  ghost predicate Extends(bodies: map<Hash, Block>, more: map<Hash, Block>)
  {
    forall x :: x in bodies ==> x in more && more[x] == bodies[x]
  }

  lemma {:induction false} RecordKeepsShape<S>(r: Rules<S>, g: Origin<S>, n: Node<S>, b: Block)
    requires Shape(r, g, n) && NoCollision(r, n, b) && b.header.prev != ZERO && HasParent(n.bodies, b)
    ensures Shape(r, g, Record(r, n, b)) && Extends(n.bodies, Record(r, n, b).bodies)
  {
    RecordLinks(r, n, b);
    var m, id := Record(r, n, b), r.id(b.header);
    assert Stored(r, g, n, b.header.prev);
    forall x | x in m.bodies ensures Stored(r, g, m, x) {
      if x in n.bodies { assert Stored(r, g, n, x); } else { assert x == id; }
    }
  }

  lemma {:induction false} RecordKeepsBase<S>(r: Rules<S>, g: Origin<S>, n: Node<S>, m: Node<S>)
    requires Inv(r, g, n) && Shape(r, g, m) && Extends(n.bodies, m.bodies)
    requires m.head == n.head && m.base == n.base && m.baseId == n.baseId && m.baseHeight == n.baseHeight
    ensures Inv(r, g, m)
    ensures Live(r, g, n) && m.state == n.state ==> Live(r, g, m)
  {
    WalkStays(n.bodies, m.bodies, r.id(n.head), n.baseId);
    WalkStays(n.bodies, m.bodies, n.baseId, r.id(g.block.header));
    WalkStays(n.bodies, m.bodies, r.id(n.head), r.id(g.block.header));
  }

  /* ----- The base moves up the canonical chain ----- */

  /** `m` is `n` with a base that has moved up, if at all. */
  ghost predicate BaseClimbs<S>(n: Node<S>, m: Node<S>)
    requires Linked(n.bodies)
  {
    m.bodies == n.bodies && m.nodes == n.nodes && m.head == n.head && m.state == n.state
    && Ancestor(n.bodies, n.baseId, m.baseId) && m.baseHeight >= n.baseHeight
  }

  lemma {:induction false} SameShape<S>(r: Rules<S>, g: Origin<S>, n: Node<S>, m: Node<S>)
    requires Shape(r, g, n) && m.nodes == n.nodes && m.bodies == n.bodies && r.id(m.head) in m.bodies
             && m.bodies[r.id(m.head)].header == m.head
    ensures Shape(r, g, m)
  {
    forall id | id in m.bodies ensures Stored(r, g, m, id) { assert Stored(r, g, n, id); }
  }

  /** The node is deep enough below its head to finalize something. */
  ghost predicate Due<S>(r: Rules<S>, n: Node<S>)
  {
    r.depth > 0 && n.base.Some? && n.head.height >= r.depth && n.head.height - r.depth > n.baseHeight
  }

  lemma {:induction false} AdvanceUnfolds<S>(r: Rules<S>, n: Node<S>, p: seq<Block>, final: seq<Block>, e: Exec<S>)
    requires Linked(n.bodies) && Due(r, n) && Walk(n.bodies, r.id(n.head), n.baseId) == Some(p)
    requires final == UpTo(p, n.head.height - r.depth) && final != [] && e == ApplyAll(r, n.base.value, final)
    ensures var last := final[|final| - 1].header;
            Advance(r, n) == if e.ok then n.(base := Some(e.state), baseId := r.id(last), baseHeight := last.height)
                             else n
  {
  }

  /** The new base is the block of the canonical chain `depth` below the head. */
  lemma {:induction false} AdvanceIs<S>(r: Rules<S>, g: Origin<S>, n: Node<S>) returns (mid: Hash, e: Exec<S>)
    requires Inv(r, g, n) && Due(r, n)
    ensures mid in n.bodies && Ancestor(n.bodies, mid, r.id(n.head)) && Ancestor(n.bodies, n.baseId, mid)
    ensures n.bodies[mid].header.height == n.head.height - r.depth
    ensures e == ApplyAll(r, n.base.value, Walk(n.bodies, mid, n.baseId).value)
    ensures Advance(r, n) == if e.ok then n.(base := Some(e.state), baseId := mid,
                                             baseHeight := n.head.height - r.depth) else n
  {
    var head, target := r.id(n.head), n.head.height - r.depth;
    mid := CutAt(n.bodies, head, n.baseId, target);
    var final := Walk(n.bodies, mid, n.baseId).value;
    e := ApplyAll(r, n.base.value, final);
    assert Stored(r, g, n, mid);
    AdvanceUnfolds(r, n, Walk(n.bodies, head, n.baseId).value, final, e);
  }

  lemma {:induction false} AdvanceClimbs<S>(r: Rules<S>, g: Origin<S>, n: Node<S>)
    requires Inv(r, g, n)
    ensures var m := Advance(r, n); Inv(r, g, m) && BaseClimbs(n, m)
    ensures var m := Advance(r, n);
            m == n || (Due(r, n) && m.baseHeight == n.head.height - r.depth)
    ensures Due(r, n) && Replay(r, g, n.bodies, r.id(n.head)).ok ==> Advance(r, n).baseHeight == n.head.height - r.depth
  {
    if Due(r, n) {
      var mid, e := AdvanceIs(r, g, n);
      ReplayFrom(r, g, n, n.baseId, mid);
      ReplayFrom(r, g, n, mid, r.id(n.head));
      SameShape(r, g, n, Advance(r, n));
    }
  }

  /* ----- One step ----- */

  /** What every step keeps: blocks stay, and the base moves up its own descendants. */
  ghost predicate Forth<S>(n: Node<S>, m: Node<S>)
    requires Linked(n.bodies) && Linked(m.bodies)
  {
    Extends(n.bodies, m.bodies) && Ancestor(m.bodies, n.baseId, m.baseId) && n.baseHeight <= m.baseHeight
  }

  lemma {:induction false} SameBase<S>(n: Node<S>, m: Node<S>)
    requires Linked(n.bodies) && Linked(m.bodies) && Extends(n.bodies, m.bodies) && m.baseId == n.baseId
             && m.baseHeight == n.baseHeight
    ensures Forth(n, m)
  {
  }

  function Max(a: int, b: int): (c: int)
  {
    if a >= b then a else b
  }

  /** The base of `m` is as high as the finality depth allows, given the base of `n` before. */
  ghost predicate Settled<S>(r: Rules<S>, n: Node<S>, m: Node<S>)
  {
    r.depth > 0 ==> m.baseHeight == Max(n.baseHeight, m.head.height - r.depth)
  }

  /** The head moves to the tip of a path from the base, through the head or not. */
  lemma {:induction false} HeadMoves<S>(r: Rules<S>, g: Origin<S>, n: Node<S>, tip: Hash, s: S)
    requires Inv(r, g, n) && tip in n.bodies && Ancestor(n.bodies, n.baseId, tip)
    ensures Inv(r, g, n.(head := n.bodies[tip].header, state := s))
    ensures Replay(r, g, n.bodies, tip) == Exec(s, true) ==> Live(r, g, n.(head := n.bodies[tip].header, state := s))
  {
    assert Stored(r, g, n, tip);
    SameShape(r, g, n, n.(head := n.bodies[tip].header, state := s));
  }

  /** When the head's chain replays, the base settles below it. */
  lemma {:induction false} HeadSettles<S>(r: Rules<S>, g: Origin<S>, n: Node<S>, moved: Node<S>)
    requires Inv(r, g, moved) && Replay(r, g, moved.bodies, r.id(moved.head)).ok && moved.baseHeight == n.baseHeight
    ensures Settled(r, n, Advance(r, moved))
  {
    AdvanceClimbs(r, g, moved);
  }

  lemma {:induction false} MoveHeadKeeps<S>(r: Rules<S>, g: Origin<S>, n: Node<S>, tip: Hash, from: Hash, s: S)
    requires Inv(r, g, n) && tip in n.bodies && Ancestor(n.bodies, n.baseId, tip) && from in n.bodies
             && Walk(n.bodies, tip, from).Some? && tip != from
    ensures var m := MoveHead(r, n.(state := s), Walk(n.bodies, tip, from).value);
            Inv(r, g, m) && Forth(n, m) && m == Advance(r, n.(head := n.bodies[tip].header, state := s))
            && m.bodies == n.bodies && m.nodes == n.nodes && m.head == n.bodies[tip].header
            && (Replay(r, g, n.bodies, tip) == Exec(s, true) ==> Live(r, g, m))
            && (Replay(r, g, n.bodies, tip).ok ==> Settled(r, n, m))
  {
    WalkClimbs(n.bodies, tip, from);
    var moved := n.(head := n.bodies[tip].header, state := s);
    HeadMoves(r, g, n, tip, s);
    assert Stored(r, g, n, tip);
    AdvanceClimbs(r, g, moved);
    if Replay(r, g, n.bodies, tip).ok { HeadSettles(r, g, n, moved); }
  }

  lemma {:induction false} TipIsKnown<S>(r: Rules<S>, g: Origin<S>, n: Node<S>)
    requires Shape(r, g, n)
    ensures Best(n.nodes) in n.bodies && IsBest(n.nodes, Best(n.nodes))
  {
  }

  lemma {:induction false} ForwardKeeps<S>(r: Rules<S>, g: Origin<S>, n: Node<S>, best: Hash)
    requires Inv(r, g, n) && best in n.bodies && best != r.id(n.head) && Walk(n.bodies, best, r.id(n.head)).Some?
    ensures var x := Forward(r, n, Walk(n.bodies, best, r.id(n.head)).value);
            && Inv(r, g, x.node) && Forth(n, x.node)
            && (Live(r, g, n) && x.err.None? ==> Live(r, g, x.node))
            && (Live(r, g, n) ==> (x.err.None? <==> Replay(r, g, n.bodies, best).ok))
            && (x.err.Some? ==> x.node == n.(state := x.node.state))
            && (x.err.None? ==> x.node.head == n.bodies[best].header)
            && (Replay(r, g, n.bodies, best).ok && x.err.None? ==> Settled(r, n, x.node))
            && x.err == (if ApplyAll(r, n.state, Walk(n.bodies, best, r.id(n.head)).value).ok then None
                         else Some(ReorgReplay))
            && (x.err.None? ==> x.node.state == ApplyAll(r, n.state, Walk(n.bodies, best, r.id(n.head)).value).state)
            && x.node.bodies == n.bodies && x.node.nodes == n.nodes && (x.err.Some? ==> x.err == Some(ReorgReplay))
  {
    var head := r.id(n.head);
    var suffix := Walk(n.bodies, best, head).value;
    var e := ApplyAll(r, n.state, suffix);
    ReplayFrom(r, g, n, head, best);
    if e.ok {
      WalkJoins(n.bodies, best, head, n.baseId);
      MoveHeadKeeps(r, g, n, best, head, e.state);
    } else {
      HeadMoves(r, g, n, head, e.state);
      SameBase(n, n.(state := e.state));
    }
  }

  /** A branch that does not replay is refused, and nothing changes. */
  lemma {:induction false} RewindKeeps<S>(r: Rules<S>, g: Origin<S>, n: Node<S>, best: Hash)
    requires Inv(r, g, n) && best in n.bodies && best != n.baseId && Walk(n.bodies, best, n.baseId).Some?
    ensures var x := Rewind(r, n, Walk(n.bodies, best, n.baseId).value);
            && Inv(r, g, x.node) && Forth(n, x.node)
            && (x.err.None? ==> Live(r, g, x.node))
            && (x.err.None? <==> Replay(r, g, n.bodies, best).ok)
            && (x.err.Some? ==> x.node == n)
            && (x.err.None? ==> x.node.head == n.bodies[best].header && Settled(r, n, x.node))
            && x.node.bodies == n.bodies && x.node.nodes == n.nodes && (x.err.Some? ==> x.err == Some(ReorgReplay))
  {
    var branch := Walk(n.bodies, best, n.baseId).value;
    var e := ApplyAll(r, n.base.value, branch);
    ReplayFrom(r, g, n, n.baseId, best);
    if e.ok { MoveHeadKeeps(r, g, n, best, n.baseId, e.state); }
  }

  /** The base is never the canonical tip unless it is the head. */
  lemma {:induction false} TipIsNotBase<S>(r: Rules<S>, g: Origin<S>, n: Node<S>)
    requires Inv(r, g, n) && Best(n.nodes) != r.id(n.head)
    ensures Best(n.nodes) != n.baseId
  {
    var head, best := r.id(n.head), Best(n.nodes);
    WalkClimbs(n.bodies, head, n.baseId);
    assert Stored(r, g, n, head) && Stored(r, g, n, n.baseId);
    assert Heavier(n.nodes, best, head);
  }

  ghost predicate GoodStep<S>(r: Rules<S>, g: Origin<S>, n: Node<S>, x: Stepped<S>)
    requires Inv(r, g, n)
  {
    Inv(r, g, x.node) && Forth(n, x.node) && (Live(r, g, n) && x.err.None? ==> Live(r, g, x.node))
  }

  lemma {:induction false} FollowKeeps<S>(r: Rules<S>, g: Origin<S>, n: Node<S>)
    requires Inv(r, g, n)
    ensures GoodStep(r, g, n, Follow(r, n))
  {
    TipIsKnown(r, g, n);
    var best, head := Best(n.nodes), r.id(n.head);
    SameBase(n, n);
    if best != head {
      TipIsNotBase(r, g, n);
      if Walk(n.bodies, best, head).Some? {
        ForwardKeeps(r, g, n, best);
      } else if Walk(n.bodies, best, n.baseId).Some? {
        RewindKeeps(r, g, n, best);
      }
    }
  }

  lemma {:induction false} ForthTransitive<S>(r: Rules<S>, g: Origin<S>, n: Node<S>, m: Node<S>, k: Node<S>)
    requires Inv(r, g, n) && Inv(r, g, m) && Inv(r, g, k) && Forth(n, m) && Forth(m, k)
    ensures Forth(n, k)
  {
    WalkStays(m.bodies, k.bodies, m.baseId, n.baseId);
    WalkJoins(k.bodies, k.baseId, m.baseId, n.baseId);
  }

  lemma {:induction false} AcceptKeeps<S>(r: Rules<S>, g: Origin<S>, n: Node<S>, b: Block)
    requires Inv(r, g, n) && r.id(b.header) != ZERO
    ensures GoodStep(r, g, n, Accept(r, n, b))
  {
    SameBase(n, n);
    if r.id(b.header) !in n.nodes && Refusal(r, n, b).None? {
      var m := Record(r, n, b);
      RecordKeepsShape(r, g, n, b);
      RecordKeepsBase(r, g, n, m);
      SameBase(n, m);
      FollowKeeps(r, g, m);
      ForthTransitive(r, g, n, m, Accept(r, n, b).node);
    }
  }

  /** A new block on the head: the ledger moves with it. */
  lemma {:induction false} ProduceKeeps<S>(r: Rules<S>, g: Origin<S>, n: Node<S>, p: Proposal<S>)
    requires Inv(r, g, n) && NoCollision(r, n, Proposed(r, n, p))
    ensures GoodStep(r, g, n, Produce(r, n, p))
  {
    var b := Proposed(r, n, p);
    var e, head, id := Apply(r, n.state, b), r.id(n.head), r.id(b.header);
    if e.ok {
      var m := Record(r, n, b);
      RecordKeepsShape(r, g, n, b);
      RecordKeepsBase(r, g, n, m);
      SameBase(n, m);
      OneAbove(m.bodies, id, head);
      WalkJoins(m.bodies, id, head, m.baseId);
      ReplayFrom(r, g, m, head, id);
      assert ApplyAll(r, n.state, [b]) == e by { assert [b][1..] == []; }
      MoveHeadKeeps(r, g, m, id, head, e.state);
      ForthTransitive(r, g, n, m, Produce(r, n, p).node);
    } else {
      HeadMoves(r, g, n, head, e.state);
      SameBase(n, n.(state := e.state));
    }
  }

  lemma {:induction false} OneAbove(bodies: map<Hash, Block>, id: Hash, parent: Hash)
    requires Linked(bodies) && id in bodies && bodies[id].header.prev == parent && parent in bodies
    ensures id != parent && Walk(bodies, id, parent) == Some([bodies[id]])
  {
    assert HasParent(bodies, bodies[id]);
    assert Walk(bodies, parent, parent) == Some([]);
    assert [] + [bodies[id]] == [bodies[id]];
  }

  /* ----- Runs ----- */

  datatype Step<!S> = Receive(b: Block) | Make(p: Proposal<S>)

  ghost predicate Possible<S>(r: Rules<S>, g: Origin<S>, n: Node<S>, s: Step<S>)
  {
    match s
    case Receive(b) => r.id(b.header) != ZERO
    case Make(p) => NoCollision(r, n, Proposed(r, n, p))
  }

  ghost function Take<S>(r: Rules<S>, g: Origin<S>, n: Node<S>, s: Step<S>): (x: Stepped<S>)
    requires Inv(r, g, n) && Possible(r, g, n, s)
  {
    match s
    case Receive(b) => Accept(r, n, b)
    case Make(p) => Produce(r, n, p)
  }

  lemma {:induction false} StepKeeps<S>(r: Rules<S>, g: Origin<S>, n: Node<S>, s: Step<S>)
    requires Inv(r, g, n) && Possible(r, g, n, s)
    ensures GoodStep(r, g, n, Take(r, g, n, s))
  {
    match s
    case Receive(b) => AcceptKeeps(r, g, n, b);
    case Make(p) => ProduceKeeps(r, g, n, p);
  }

  /** `ns` are the nodes of a run that takes `steps` one after the other, whether they succeed or not. */
  ghost predicate Run<S>(r: Rules<S>, g: Origin<S>, ns: seq<Node<S>>, steps: seq<Step<S>>)
  {
    |ns| == |steps| + 1 && GoodOrigin(r, g) && ns[0] == Begin(r, g.block, g.state)
    && forall i :: 0 <= i < |steps| ==> Follows(r, g, ns[i], steps[i], ns[i + 1])
  }

  ghost predicate Follows<S>(r: Rules<S>, g: Origin<S>, n: Node<S>, s: Step<S>, m: Node<S>)
  {
    Possible(r, g, n, s) && (Inv(r, g, n) ==> m == Take(r, g, n, s).node)
  }

  lemma {:induction false} BeginsWell<S>(r: Rules<S>, g: Origin<S>)
    requires GoodOrigin(r, g)
    ensures var n := Begin(r, g.block, g.state); Inv(r, g, n) && Live(r, g, n)
  {
    var n, id := Begin(r, g.block, g.state), r.id(g.block.header);
    assert n.bodies.Keys == {id} && n.nodes.Keys == {id};
    assert Linked(n.bodies);
    assert Stored(r, g, n, id);
    assert Walk(n.bodies, id, id) == Some([]);
  }

  lemma {:induction false} RunKeeps<S>(r: Rules<S>, g: Origin<S>, ns: seq<Node<S>>, steps: seq<Step<S>>, i: nat)
    requires Run(r, g, ns, steps) && i < |ns|
    ensures Inv(r, g, ns[i])
  {
    if i == 0 {
      BeginsWell(r, g);
    } else {
      RunKeeps(r, g, ns, steps, i - 1);
      assert Follows(r, g, ns[i - 1], steps[i - 1], ns[i - 1 + 1]);
      StepKeeps(r, g, ns[i - 1], steps[i - 1]);
    }
  }

  lemma {:induction false} RunGoesForth<S>(r: Rules<S>, g: Origin<S>, ns: seq<Node<S>>, steps: seq<Step<S>>, i: nat,
      j: nat)
    requires Run(r, g, ns, steps) && i <= j < |ns|
    ensures Inv(r, g, ns[i]) && Inv(r, g, ns[j]) && Forth(ns[i], ns[j])
    decreases j
  {
    RunKeeps(r, g, ns, steps, i);
    RunKeeps(r, g, ns, steps, j);
    if i == j {
      SameBase(ns[i], ns[j]);
    } else {
      RunGoesForth(r, g, ns, steps, i, j - 1);
      assert Follows(r, g, ns[j - 1], steps[j - 1], ns[j - 1 + 1]);
      StepKeeps(r, g, ns[j - 1], steps[j - 1]);
      ForthTransitive(r, g, ns[i], ns[j - 1], ns[j]);
    }
  }

  /**
   Finality. At every point of a run, whatever was received and whether it was valid or not, the
   replay base is an ancestor of the head and its ledger is the replay of the chain up to it; its
   height never falls; and a block at or below it is on the canonical chain ever after.
   */
  lemma {:induction false} FinalityOverRuns<S>(r: Rules<S>, g: Origin<S>, ns: seq<Node<S>>, steps: seq<Step<S>>, i: nat,
      j: nat, id: Hash)
    requires Run(r, g, ns, steps) && i <= j < |ns|
    ensures Inv(r, g, ns[i]) && Inv(r, g, ns[j]) && ns[i].baseHeight <= ns[j].baseHeight
    ensures id in ns[i].bodies && Ancestor(ns[i].bodies, id, ns[i].baseId) ==>
              id in ns[j].bodies && Ancestor(ns[j].bodies, id, r.id(ns[j].head))
  {
    RunGoesForth(r, g, ns, steps, i, j);
    if id in ns[i].bodies && Ancestor(ns[i].bodies, id, ns[i].baseId) {
      WalkStays(ns[i].bodies, ns[j].bodies, ns[i].baseId, id);
      WalkJoins(ns[j].bodies, ns[j].baseId, ns[i].baseId, id);
      WalkJoins(ns[j].bodies, r.id(ns[j].head), ns[j].baseId, id);
    }
  }
}
