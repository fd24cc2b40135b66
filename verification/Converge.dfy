/**
 Convergence: nodes that receive the same blocks, in any parent-first orders and with repeats, end in the
 same state.
 */
module Converge {
  import opened Words
  import opened Fork
  import opened Chain
  import opened Finality
  import opened Replays

  function Receives<S>(bs: seq<Block>): (steps: seq<Step<S>>)
    ensures |steps| == |bs| && forall i :: 0 <= i < |bs| ==> steps[i] == Receive(bs[i])
  {
    if bs == [] then [] else Receives(bs[..|bs| - 1]) + [Receive(bs[|bs| - 1])]
  }

  function Elements(bs: seq<Block>): (s: set<Block>)
  {
    set b | b in bs
  }

  /* ----- The blocks a network has made ----- */

  /** A block that passes every check that does not depend on its parent, whatever the ledger. */
  ghost predicate WellMade<S(!new)>(r: Rules<S>, b: Block)
  {
    (forall s: S :: r.authorized(s, b.header)) && r.merkleOk(b) && r.bodyOk(b) && r.id(b.header) != ZERO
    && b.header.prev != ZERO
  }

  ghost predicate Attaches<S(!new)>(r: Rules<S>, parent: Block, b: Block)
  {
    r.id(parent.header) == b.header.prev && b.header.height == parent.header.height + 1
    && b.header.timestamp >= parent.header.timestamp + b.header.round * r.blockTime
  }

  /** No two of the blocks, the genesis block included, share an id. */
  ghost predicate Distinct<S(!new)>(r: Rules<S>, pool: set<Block>)
  {
    forall a, b :: a in pool && b in pool && r.id(a.header) == r.id(b.header) ==> a == b
  }

  /** Each block comes after its parent. */
  ghost predicate ParentFirst<S(!new)>(r: Rules<S>, g: Origin<S>, bs: seq<Block>)
  {
    forall i :: 0 <= i < |bs| ==> WellMade(r, bs[i]) && HasEarlierParent(r, g, bs, i)
  }

  ghost predicate HasEarlierParent<S(!new)>(r: Rules<S>, g: Origin<S>, bs: seq<Block>, i: nat)
    requires i < |bs|
  {
    Attaches(r, g.block, bs[i]) || exists j :: 0 <= j < i && Attaches(r, bs[j], bs[i])
  }

  /** The blocks by id. */
  ghost function Stock<S(!new)>(r: Rules<S>, pool: set<Block>): (m: map<Hash, Block>)
    requires Distinct(r, pool)
    ensures forall b :: b in pool ==> r.id(b.header) in m && m[r.id(b.header)] == b
    ensures forall id :: id in m ==> m[id] in pool && r.id(m[id].header) == id
  {
    map b | b in pool :: r.id(b.header) := b
  }

  lemma {:induction false} StockIs<S(!new)>(r: Rules<S>, pool: set<Block>, m: map<Hash, Block>)
    requires Distinct(r, pool) && (forall b :: b in pool ==> r.id(b.header) in m && m[r.id(b.header)] == b)
    requires forall id :: id in m ==> m[id] in pool && r.id(m[id].header) == id
    ensures m == Stock(r, pool)
  {
    var s := Stock(r, pool);
    forall id | id in m ensures id in s && s[id] == m[id] { assert m[id] in pool; }
    forall id | id in s ensures id in m { assert s[id] in pool; }
  }

  /* ----- What a node has stored ----- */

  /** The stored blocks are just those of `pool`. */
  ghost predicate Holds<S(!new)>(r: Rules<S>, n: Node<S>, pool: set<Block>)
  {
    (forall b :: b in pool ==> r.id(b.header) in n.bodies && n.bodies[r.id(b.header)] == b)
    && (forall id :: id in n.bodies ==> n.bodies[id] in pool)
  }

  lemma {:induction false} ReceiveStores<S(!new)>(r: Rules<S>, g: Origin<S>, n: Node<S>, b: Block)
    requires Inv(r, g, n) && r.id(b.header) != ZERO && b.header.prev != ZERO
    requires r.id(b.header) in n.bodies ==> n.bodies[r.id(b.header)] == b
    requires Refusal(r, n, b).None? && HasParent(n.bodies, b)
    ensures Accept(r, n, b).node.bodies == n.bodies[r.id(b.header) := b]
  {
    if r.id(b.header) !in n.nodes {
      RecordKeepsShape(r, g, n, b);
      RecordKeepsBase(r, g, n, Record(r, n, b));
      FollowKeepsBodies(r, g, Record(r, n, b));
    }
  }

  lemma {:induction false} ReceiveHolds<S(!new)>(r: Rules<S>, g: Origin<S>, n: Node<S>, b: Block, pool: set<Block>,
      all: set<Block>)
    requires Inv(r, g, n) && r.id(b.header) != ZERO && b.header.prev != ZERO
    requires Refusal(r, n, b).None? && HasParent(n.bodies, b)
    requires Holds(r, n, pool) && pool + {b} <= all && Distinct(r, all)
    ensures Holds(r, Accept(r, n, b).node, pool + {b})
  {
    var id := r.id(b.header);
    if id in n.bodies {
      assert Stored(r, g, n, id);
      assert n.bodies[id] in all && b in all;
    }
    ReceiveStores(r, g, n, b);
    var m := Accept(r, n, b).node;
    forall x | x in pool + {b} ensures r.id(x.header) in m.bodies && m.bodies[r.id(x.header)] == x {
      if x in pool && r.id(x.header) == id { assert x in all && b in all; }
    }
  }

  lemma {:induction false} RunStep<S(!new)>(r: Rules<S>, g: Origin<S>, ns: seq<Node<S>>, bs: seq<Block>, i: nat)
    requires Run(r, g, ns, Receives(bs)) && i < |bs|
    ensures Inv(r, g, ns[i]) && r.id(bs[i].header) != ZERO && ns[i + 1] == Accept(r, ns[i], bs[i]).node
  {
    RunKeeps(r, g, ns, Receives(bs), i);
    assert Follows(r, g, ns[i], Receives<S>(bs)[i], ns[i + 1]);
  }

  lemma {:induction false} OneMore(bs: seq<Block>, i: nat, g: Block)
    requires i < |bs|
    ensures Elements(bs[..i + 1]) + {g} == Elements(bs[..i]) + {g} + {bs[i]} <= Elements(bs) + {g}
  {
    assert bs[..i + 1] == bs[..i] + [bs[i]];
    forall b | b in bs[..i + 1] ensures b in bs { }
  }

  lemma {:induction false} StoredIsReceived<S(!new)>(r: Rules<S>, g: Origin<S>, ns: seq<Node<S>>, bs: seq<Block>,
      i: nat)
    requires Run(r, g, ns, Receives(bs)) && ParentFirst(r, g, bs) && Distinct(r, Elements(bs) + {g.block}) && i <= |bs|
    ensures Holds(r, ns[i], Elements(bs[..i]) + {g.block}) == true
  {
    if i == 0 {
      FirstHolds(r, g, bs);
    } else {
      var k := i - 1;
      StoredIsReceived(r, g, ns, bs, k);
      RunStep(r, g, ns, bs, k);
      ReceiveNext(r, g, ns[k], bs, k);
    }
  }

  lemma {:induction false} FirstHolds<S(!new)>(r: Rules<S>, g: Origin<S>, bs: seq<Block>)
    ensures Holds(r, Begin(r, g.block, g.state), Elements(bs[..0]) + {g.block}) == true
  {
    assert Elements(bs[..0]) + {g.block} == {g.block};
  }

  lemma {:induction false} ReceiveNext<S(!new)>(r: Rules<S>, g: Origin<S>, n: Node<S>, bs: seq<Block>, i: nat)
    requires Inv(r, g, n) && ParentFirst(r, g, bs) && Distinct(r, Elements(bs) + {g.block}) && i < |bs|
    requires r.id(bs[i].header) != ZERO && Holds(r, n, Elements(bs[..i]) + {g.block})
    ensures Holds(r, Accept(r, n, bs[i]).node, Elements(bs[..i + 1]) + {g.block}) == true
  {
    assert WellMade(r, bs[i]);
    OneMore(bs, i, g.block);
    ParentIsStored(r, g, n, bs, i);
    ReceiveHolds(r, g, n, bs[i], Elements(bs[..i]) + {g.block}, Elements(bs) + {g.block});
  }

  lemma {:induction false} AttachedIsAccepted<S(!new)>(r: Rules<S>, n: Node<S>, parent: Block, b: Block)
    requires WellMade(r, b) && Attaches(r, parent, b)
    requires r.id(parent.header) in n.bodies && n.bodies[r.id(parent.header)] == parent
    ensures Refusal(r, n, b).None? && HasParent(n.bodies, b)
  {
  }

  lemma {:induction false} EarlierIsStored<S(!new)>(r: Rules<S>, g: Origin<S>, n: Node<S>, bs: seq<Block>, i: nat,
      b: Block)
    requires i < |bs| && Holds(r, n, Elements(bs[..i]) + {g.block}) && (b == g.block || b in bs[..i])
    ensures r.id(b.header) in n.bodies && n.bodies[r.id(b.header)] == b
  {
    assert b in Elements(bs[..i]) + {g.block};
  }

  lemma {:induction false} ParentIsStored<S(!new)>(r: Rules<S>, g: Origin<S>, n: Node<S>, bs: seq<Block>, i: nat)
    requires ParentFirst(r, g, bs) && i < |bs| && Holds(r, n, Elements(bs[..i]) + {g.block}) == true
    ensures Refusal(r, n, bs[i]).None? && HasParent(n.bodies, bs[i]) == true
  {
    assert WellMade(r, bs[i]) && HasEarlierParent(r, g, bs, i);
    var parent := g.block;
    if !Attaches(r, g.block, bs[i]) {
      var j :| 0 <= j < i && Attaches(r, bs[j], bs[i]);
      assert bs[..i][j] == bs[j];
      parent := bs[j];
    }
    EarlierIsStored(r, g, n, bs, i, parent);
    AttachedIsAccepted(r, n, parent, bs[i]);
  }

  /* ----- The head is the canonical tip ----- */

  /** Without finality the base stays the genesis block, and the head is the canonical tip. */
  ghost predicate Topped<S(!new)>(r: Rules<S>, g: Origin<S>, n: Node<S>)
  {
    n.base == Some(g.state) && n.baseId == r.id(g.block.header) && n.baseHeight == 0 && r.id(n.head) == Best(n.nodes)
  }

  lemma {:induction false} FollowTops<S(!new)>(r: Rules<S>, g: Origin<S>, n: Node<S>)
    requires r.depth == 0 && Inv(r, g, n) && Live(r, g, n) && Executable(r, g, n)
    requires n.base == Some(g.state) && n.baseId == r.id(g.block.header) && n.baseHeight == 0
    ensures Topped(r, g, Follow(r, n).node)
  {
    TipIsKnown(r, g, n);
    var best, head := Best(n.nodes), r.id(n.head);
    if best != head {
      TipIsNotBase(r, g, n);
      assert Runs(r, g, n.bodies, best) && Stored(r, g, n, best);
      if Walk(n.bodies, best, head).Some? {
        ForwardKeeps(r, g, n, best);
      } else {
        FromGenesis(r, g, n, best);
        RewindKeeps(r, g, n, best);
      }
    }
  }

  lemma {:induction false} ReceiveTops<S(!new)>(r: Rules<S>, g: Origin<S>, n: Node<S>, b: Block)
    requires r.depth == 0 && Inv(r, g, n) && Live(r, g, n) && Topped(r, g, n) && r.id(b.header) != ZERO
    requires Inv(r, g, Accept(r, n, b).node) && Executable(r, g, Accept(r, n, b).node)
    ensures Topped(r, g, Accept(r, n, b).node)
  {
    if r.id(b.header) !in n.nodes && Refusal(r, n, b).None? {
      var m := Record(r, n, b);
      RecordKeepsShape(r, g, n, b);
      RecordKeepsBase(r, g, n, m);
      FollowKeepsBodies(r, g, m);
      assert Executable(r, g, m);
      FollowTops(r, g, m);
    }
  }

  lemma {:induction false} ReceivesAreLive<S(!new)>(r: Rules<S>, g: Origin<S>, ns: seq<Node<S>>, bs: seq<Block>, i: nat)
    requires Run(r, g, ns, Receives(bs)) && i < |ns| && Linked(ns[i].bodies) && Executable(r, g, ns[i])
    ensures Inv(r, g, ns[i]) && Live(r, g, ns[i])
  {
    LiveWhenMakesSucceed(r, g, ns, Receives(bs), i);
  }

  lemma {:induction false} ToppedOverRuns<S(!new)>(r: Rules<S>, g: Origin<S>, ns: seq<Node<S>>, bs: seq<Block>, i: nat)
    requires Run(r, g, ns, Receives(bs)) && r.depth == 0 && i < |ns| && Linked(ns[i].bodies) && Executable(r, g, ns[i])
    ensures Inv(r, g, ns[i]) && Live(r, g, ns[i]) && Topped(r, g, ns[i])
  {
    RunKeeps(r, g, ns, Receives(bs), i);
    ReceivesAreLive(r, g, ns, bs, i);
    if i == 0 {
      TipIsKnown(r, g, ns[0]);
    } else {
      RunGoesForth(r, g, ns, Receives(bs), i - 1, i);
      ExecutableBefore(r, g, ns[i - 1], ns[i]);
      ToppedOverRuns(r, g, ns, bs, i - 1);
      assert Follows(r, g, ns[i - 1], Receives<S>(bs)[i - 1], ns[i - 1 + 1]);
      ReceiveTops(r, g, ns[i - 1], bs[i - 1]);
    }
  }

  /** Bodies determine everything else. */
  lemma {:induction false} BodiesDecide<S(!new)>(r: Rules<S>, g: Origin<S>, n: Node<S>, m: Node<S>)
    requires Inv(r, g, n) && Inv(r, g, m) && Live(r, g, n) && Live(r, g, m) && Topped(r, g, n) && Topped(r, g, m)
    requires n.bodies == m.bodies
    ensures n == m
  {
    forall id | id in n.nodes ensures id in m.nodes && n.nodes[id] == m.nodes[id] {
      assert Stored(r, g, n, id) && Stored(r, g, m, id);
    }
    assert n.nodes == m.nodes;
  }

  /**
   Convergence. With finality off, two nodes that receive the same set of executable blocks, each in
   a parent-first order and with any repeats, have the same tree, head, base and ledger.
   */
  lemma {:induction false} NodesConverge<S(!new)>(r: Rules<S>, g: Origin<S>, ns: seq<Node<S>>, bs: seq<Block>,
      ms: seq<Node<S>>, cs: seq<Block>)
    requires r.depth == 0 && Run(r, g, ns, Receives(bs)) && Run(r, g, ms, Receives(cs))
    requires Elements(bs) == Elements(cs) && Distinct(r, Elements(bs) + {g.block}) && ParentFirst(r, g, bs)
             && ParentFirst(r, g, cs)
    requires Linked(ns[|bs|].bodies) && Executable(r, g, ns[|bs|])
    ensures ns[|bs|] == ms[|cs|]
  {
    var pool, n, m := Elements(bs) + {g.block}, ns[|bs|], ms[|cs|];
    StoredIsReceived(r, g, ns, bs, |bs|);
    StoredIsReceived(r, g, ms, cs, |cs|);
    assert bs[..|bs|] == bs && cs[..|cs|] == cs;
    RunKeeps(r, g, ns, Receives(bs), |bs|);
    RunKeeps(r, g, ms, Receives(cs), |cs|);
    forall id | id in n.bodies ensures r.id(n.bodies[id].header) == id { assert Stored(r, g, n, id); }
    forall id | id in m.bodies ensures r.id(m.bodies[id].header) == id { assert Stored(r, g, m, id); }
    StockIs(r, pool, n.bodies);
    StockIs(r, pool, m.bodies);
    assert Executable(r, g, m) by {
      forall id | id in m.bodies ensures Runs(r, g, m.bodies, id) { assert Runs(r, g, n.bodies, id); }
    }
    ToppedOverRuns(r, g, ns, bs, |bs|);
    ToppedOverRuns(r, g, ms, cs, |cs|);
    BodiesDecide(r, g, n, m);
  }
}
