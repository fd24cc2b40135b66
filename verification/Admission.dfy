/** Which blocks a node stores: those that passed every check on the ledger of the moment, and its own. */
module Admission {
  import opened Words
  import opened Fork
  import opened Chain
  import opened Finality

  /** The parent is stored, one lower, and old enough for the block's round. */
  ghost predicate Fits<S>(r: Rules<S>, bodies: map<Hash, Block>, h: Header)
  {
    && h.prev in bodies && h.height == bodies[h.prev].header.height + 1
    && h.timestamp >= bodies[h.prev].header.timestamp + h.round * r.blockTime
  }

  /** The engine authorizes the header on the ledger of the moment, the block matches both its roots, and it fits. */
  ghost predicate Passes<S>(r: Rules<S>, n: Node<S>, b: Block)
  {
    r.authorized(n.state, b.header) && r.merkleOk(b) && r.bodyOk(b) && Fits(r, n.bodies, b.header)
  }

  /** The first check a block fails. */
  ghost predicate Fails<S>(r: Rules<S>, n: Node<S>, b: Block, e: ChainError)
  {
    var h := b.header;
    match e
    case Unauthorized => !r.authorized(n.state, h)
    case BadMerkle => r.authorized(n.state, h) && !r.merkleOk(b)
    case BadBodyHash => r.authorized(n.state, h) && r.merkleOk(b) && !r.bodyOk(b)
    case UnknownParent => r.authorized(n.state, h) && r.merkleOk(b) && r.bodyOk(b) && h.prev !in n.bodies
    case BadHeight => && r.authorized(n.state, h) && r.merkleOk(b) && r.bodyOk(b) && h.prev in n.bodies
                      && h.height != n.bodies[h.prev].header.height + 1
    case BadRound => && r.authorized(n.state, h) && r.merkleOk(b) && r.bodyOk(b) && h.prev in n.bodies
                     && h.height == n.bodies[h.prev].header.height + 1
                     && h.timestamp < n.bodies[h.prev].header.timestamp + h.round * r.blockTime
    case _ => false
  }

  lemma AdvanceStores<S>(r: Rules<S>, n: Node<S>)
    requires Linked(n.bodies)
    ensures Advance(r, n).bodies == n.bodies && Advance(r, n).head == n.head && Advance(r, n).state == n.state
  {
  }

  /** Whatever becomes of the head, following the tip stores nothing and forgets nothing. */
  lemma FollowStores<S>(r: Rules<S>, n: Node<S>)
    requires Linked(n.bodies)
    ensures Follow(r, n).node.bodies == n.bodies
  {
    var best, head := Best(n.nodes), r.id(n.head);
    if best != head && Walk(n.bodies, best, head).Some? {
      var suffix := Walk(n.bodies, best, head).value;
      var e := ApplyAll(r, n.state, suffix);
      if e.ok && suffix != [] { AdvanceStores(r, n.(state := e.state, head := suffix[|suffix| - 1].header)); }
    } else if best != head && n.base.Some? && Walk(n.bodies, best, n.baseId).Some? {
      var branch := Walk(n.bodies, best, n.baseId).value;
      var e := ApplyAll(r, n.base.value, branch);
      if e.ok && branch != [] { AdvanceStores(r, n.(state := e.state, head := branch[|branch| - 1].header)); }
    }
  }

  /**
   A block is received. If it is stored already nothing happens. If it is new, it is stored just when it passes every
   check, whatever becomes of the head; else the node is as it was, and the error names the first check that failed.
   */
  lemma {:induction false} ReceivedIsChecked<S>(r: Rules<S>, g: Origin<S>, n: Node<S>, b: Block)
    requires Inv(r, g, n) && r.id(b.header) != ZERO
    ensures var x, id := Accept(r, n, b), r.id(b.header);
            if id in n.bodies then x == Stepped(n, None)
            else if Passes(r, n, b) then
              x.node.bodies == n.bodies[id := b] && (x.err.Some? ==> x.err == Some(ReorgReplay))
            else x.node == n && x.err.Some? && Fails(r, n, b, x.err.value)
  {
    if r.id(b.header) !in n.bodies && Passes(r, n, b) {
      RecordLinks(r, n, b);
      FollowStores(r, Record(r, n, b));
    }
  }

  /** What a node makes itself: a block on its head, one higher, with the proposal's fields, the body built on its
      ledger and the seal of the ledger after it. */
  ghost predicate Made<S>(r: Rules<S>, n: Node<S>, p: Proposal<S>, b: Block)
  {
    var h, after := b.header, r.apply(n.state, n.head.height + 1, p.validator, p.build(n.state));
    && after.ok && h.height == n.head.height + 1 && h.prev == r.id(n.head) && h.validator == p.validator
    && h.timestamp == p.timestamp && h.round == p.round && b.body == p.build(n.state) && h.seal == p.seal(after.state)
  }

  /** A production stores its block, and the head is that block; or it fails, and what is stored is as it was. */
  lemma {:induction false} ProducedIsMade<S>(r: Rules<S>, g: Origin<S>, n: Node<S>, p: Proposal<S>)
    requires Inv(r, g, n) && NoCollision(r, n, Proposed(r, n, p))
    ensures var x, b := Produce(r, n, p), Proposed(r, n, p);
            if x.err.None? then
              Made(r, n, p, b) && x.node.bodies == n.bodies[r.id(b.header) := b] && x.node.head == b.header
            else x.node.bodies == n.bodies && x.node.head == n.head
  {
    var b := Proposed(r, n, p);
    var e := Apply(r, n.state, b);
    if e.ok {
      var m := n.(state := e.state, head := b.header);
      RecordLinks(r, m, b);
      AdvanceStores(r, Record(r, m, b));
    }
  }

  /** At this step the block got in: it was received, new, and passed every check on the node as it was; or the node
      made it. */
  ghost predicate GetsIn<S>(r: Rules<S>, n: Node<S>, s: Step<S>, b: Block)
  {
    match s
    case Receive(b') => b' == b && r.id(b.header) !in n.bodies && Passes(r, n, b)
    case Make(p) => b == Proposed(r, n, p) && Made(r, n, p, b)
  }

  /** A step stores the block that gets in, if one does, and no other. */
  lemma {:induction false} StepStores<S>(r: Rules<S>, g: Origin<S>, n: Node<S>, s: Step<S>)
    requires Inv(r, g, n) && Possible(r, g, n, s)
    ensures var m := Take(r, g, n, s).node;
            && (forall id :: id in m.bodies && id !in n.bodies ==> GetsIn(r, n, s, m.bodies[id]))
            && (forall b :: GetsIn(r, n, s, b) ==> r.id(b.header) in m.bodies && m.bodies[r.id(b.header)] == b)
            && Extends(n.bodies, m.bodies)
  {
    match s
    case Receive(b) => ReceivedIsChecked(r, g, n, b);
    case Make(p) => ProducedIsMade(r, g, n, p);
  }

  ghost predicate Has<S>(r: Rules<S>, n: Node<S>, b: Block)
  {
    r.id(b.header) in n.bodies && n.bodies[r.id(b.header)] == b
  }

  lemma {:induction false} HasAfter<S>(r: Rules<S>, g: Origin<S>, n: Node<S>, s: Step<S>, m: Node<S>, b: Block)
    requires Inv(r, g, n) && Follows(r, g, n, s, m)
    ensures Has(r, m, b) <==> Has(r, n, b) || GetsIn(r, n, s, b)
  {
    StepStores(r, g, n, s);
  }

  /** At some step of the run before `i` this block got in. */
  ghost predicate GotIn<S>(r: Rules<S>, ns: seq<Node<S>>, steps: seq<Step<S>>, i: nat, b: Block)
    requires i <= |steps| <= |ns|
  {
    exists j :: 0 <= j < i && GetsIn(r, ns[j], steps[j], b)
  }

  lemma {:induction false} GotInBy<S>(r: Rules<S>, ns: seq<Node<S>>, steps: seq<Step<S>>, i: nat, b: Block)
    requires 0 < i <= |steps| <= |ns|
    ensures GotIn(r, ns, steps, i, b) <==> GotIn(r, ns, steps, i - 1, b) || GetsIn(r, ns[i - 1], steps[i - 1], b)
  {
  }

  lemma {:induction false} LastStep<S>(r: Rules<S>, g: Origin<S>, ns: seq<Node<S>>, steps: seq<Step<S>>, i: nat,
      b: Block)
    requires Run(r, g, ns, steps) && 0 < i < |ns|
    ensures Has(r, ns[i], b) <==> Has(r, ns[i - 1], b) || GetsIn(r, ns[i - 1], steps[i - 1], b)
  {
    RunKeeps(r, g, ns, steps, i - 1);
    assert Follows(r, g, ns[i - 1], steps[i - 1], ns[i - 1 + 1]);
    HasAfter(r, g, ns[i - 1], steps[i - 1], ns[i], b);
  }

  /**
   At every point of a run, a block other than the genesis block is stored just when at an earlier step it was
   received and passed authorization, both roots, the parent's height and the round's time, all on the node of that
   step, or the node made it itself.
   */
  lemma {:induction false} AdmittedOverRuns<S>(r: Rules<S>, g: Origin<S>, ns: seq<Node<S>>, steps: seq<Step<S>>, i: nat,
      b: Block)
    requires Run(r, g, ns, steps) && i < |ns| && b != g.block
    ensures Has(r, ns[i], b) <==> GotIn(r, ns, steps, i, b)
  {
    if i > 0 {
      AdmittedOverRuns(r, g, ns, steps, i - 1, b);
      LastStep(r, g, ns, steps, i, b);
      GotInBy(r, ns, steps, i, b);
    }
  }
}
