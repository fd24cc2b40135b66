/**
 When the live ledger is not the replay of the canonical chain: a fast-forward over two blocks whose
 second fails leaves the first one's effect on the ledger, and the head where it was.
 */
module Ahead {
  import opened Words
  import opened Fork
  import opened Chain
  import opened Finality
  import opened Converge

  /** An invalid block, its valid sibling with a larger id, and an invalid child of that one. */
  ghost predicate Trap<S(!new)>(r: Rules<S>, g: Origin<S>, bad: Block, good: Block, worse: Block)
  {
    GoodOrigin(r, g) && WellMade(r, bad) && WellMade(r, good) && WellMade(r, worse)
    && Attaches(r, g.block, bad) && Attaches(r, g.block, good) && Attaches(r, good, worse)
    && r.id(bad.header) != r.id(g.block.header) && r.id(good.header) != r.id(g.block.header)
    && r.id(worse.header) != r.id(g.block.header) && r.id(worse.header) != r.id(bad.header)
       && r.id(worse.header) != r.id(good.header)
    && Below(r.id(bad.header), r.id(good.header))
    && Apply(r, g.state, bad) == Exec(g.state, false)
    && Apply(r, g.state, good).ok && Apply(r, g.state, good).state != g.state
    && Apply(r, Apply(r, g.state, good).state, worse) == Exec(Apply(r, g.state, good).state, false)
  }

  lemma BestIs(nodes: map<Hash, Entry>, id: Hash)
    requires IsBest(nodes, id)
    ensures Best(nodes) == id
  {
    BestIsUnique(nodes, Best(nodes), id);
  }

  /** A block is recorded, the canonical tip is a descendant of the head, and its path fails. */
  lemma {:induction false} Stalls<S(!new)>(r: Rules<S>, g: Origin<S>, n: Node<S>, b: Block, best: Hash)
    requires Inv(r, g, n) && r.id(b.header) != ZERO && r.id(b.header) !in n.bodies && Refusal(r, n, b).None?
    requires Shape(r, g, Record(r, n, b)) && IsBest(Record(r, n, b).nodes, best) && best != r.id(n.head)
    requires Walk(Record(r, n, b).bodies, best, r.id(n.head)).Some?
    requires !ApplyAll(r, n.state, Walk(Record(r, n, b).bodies, best, r.id(n.head)).value).ok
    ensures var m := Record(r, n, b);
            Accept(r, n, b).node == m.(state := ApplyAll(r, n.state, Walk(m.bodies, best, r.id(n.head)).value).state)
  {
    BestIs(Record(r, n, b).nodes, best);
  }

  /** A node at its genesis block that has stored `bodies`. */
  ghost predicate Waits<S(!new)>(r: Rules<S>, g: Origin<S>, n: Node<S>, stored: set<Hash>)
  {
    Inv(r, g, n) && n.head == g.block.header && n.state == g.state && n.bodies.Keys == stored
  }

  lemma {:induction false} First<S(!new)>(r: Rules<S>, g: Origin<S>, bad: Block, good: Block, worse: Block)
    requires Trap(r, g, bad, good, worse) && Inv(r, g, Begin(r, g.block, g.state))
    ensures var x := Accept(r, Begin(r, g.block, g.state), bad).node;
            Waits(r, g, x, {r.id(g.block.header), r.id(bad.header)}) && x.bodies[r.id(bad.header)] == bad
  {
    var n, root, id := Begin(r, g.block, g.state), r.id(g.block.header), r.id(bad.header);
    var m := Record(r, n, bad);
    RecordKeepsShape(r, g, n, bad);
    OneAbove(m.bodies, id, root);
    assert Stored(r, g, m, root) && Stored(r, g, m, id);
    assert IsBest(m.nodes, id);
    Stalls(r, g, n, bad, id);
    AcceptKeeps(r, g, n, bad);
    assert m.bodies.Keys == {root, id};
  }

  lemma {:induction false} Second<S(!new)>(r: Rules<S>, g: Origin<S>, n: Node<S>, bad: Block, good: Block, worse: Block)
    requires Trap(r, g, bad, good, worse)
    requires Waits(r, g, n, {r.id(g.block.header), r.id(bad.header)}) && n.bodies[r.id(bad.header)] == bad
    ensures var x := Accept(r, n, good).node;
            Waits(r, g, x, {r.id(g.block.header), r.id(bad.header), r.id(good.header)})
            && x.bodies[r.id(bad.header)] == bad && x.bodies[r.id(good.header)] == good
  {
    var root, id, id' := r.id(g.block.header), r.id(bad.header), r.id(good.header);
    BelowIrreflexive(id);
    var m := Record(r, n, good);
    RecordKeepsShape(r, g, n, good);
    OneAbove(m.bodies, id, root);
    assert Stored(r, g, m, root) && Stored(r, g, m, id) && Stored(r, g, m, id');
    assert m.bodies.Keys == {root, id, id'};
    assert IsBest(m.nodes, id);
    Stalls(r, g, n, good, id);
    AcceptKeeps(r, g, n, good);
  }

  lemma {:induction false} Third<S(!new)>(r: Rules<S>, g: Origin<S>, n: Node<S>, bad: Block, good: Block, worse: Block)
    requires Trap(r, g, bad, good, worse)
    requires Waits(r, g, n, {r.id(g.block.header), r.id(bad.header), r.id(good.header)})
    requires n.bodies[r.id(bad.header)] == bad && n.bodies[r.id(good.header)] == good
    ensures var x := Accept(r, n, worse).node;
            Inv(r, g, x) && x.head == g.block.header && x.state == Apply(r, g.state, good).state
  {
    var root, id, id', top := r.id(g.block.header), r.id(bad.header), r.id(good.header), r.id(worse.header);
    var m := Record(r, n, worse);
    RecordKeepsShape(r, g, n, worse);
    OneAbove(m.bodies, top, id');
    OneAbove(m.bodies, id', root);
    WalkJoins(m.bodies, top, id', root);
    assert Stored(r, g, m, root) && Stored(r, g, m, id) && Stored(r, g, m, id') && Stored(r, g, m, top);
    assert m.bodies.Keys == {root, id, id', top};
    assert IsBest(m.nodes, top);
    assert [good] + [worse] == [good, worse] && [good, worse][1..] == [worse];
    var s := Apply(r, g.state, good).state;
    assert ApplyAll(r, s, [worse]) == Exec(s, false);
    Stalls(r, g, n, worse, top);
    AcceptKeeps(r, g, n, worse);
  }

  /** After these three blocks the ledger holds the effect of one the canonical chain does not have. */
  lemma {:induction false} LedgerRunsAhead<S(!new)>(r: Rules<S>, g: Origin<S>, ns: seq<Node<S>>, bad: Block,
      good: Block, worse: Block)
    requires Trap(r, g, bad, good, worse) && Run(r, g, ns, Receives([bad, good, worse]))
    ensures Inv(r, g, ns[3]) && ns[3].head == g.block.header && !Live(r, g, ns[3])
  {
    var bs := [bad, good, worse];
    RunStep(r, g, ns, bs, 0);
    RunStep(r, g, ns, bs, 1);
    RunStep(r, g, ns, bs, 2);
    First(r, g, bad, good, worse);
    Second(r, g, ns[1], bad, good, worse);
    Third(r, g, ns[2], bad, good, worse);
    assert Walk(ns[3].bodies, r.id(g.block.header), r.id(g.block.header)) == Some([]);
  }
}
