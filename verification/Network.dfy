/** The chain over the ledger: what holds of the ledger of every node, whatever blocks it is sent. */
module Network {
  import opened Words
  import opened Fork
  import opened Chain
  import opened Finality
  import L = Ledger
  import Registry
  import Supply
  import Wire

  /* ----- Properties of ledgers that execution keeps ----- */

  ghost predicate KeptBy<S(!new)>(r: Rules<S>, p: S -> bool)
  {
    forall s: S, height: nat, validator: seq<byte>, body: seq<byte> ::
      p(s) ==> p(r.apply(s, height, validator, body).state)
  }

  ghost predicate Holds<S>(p: S -> bool, n: Node<S>)
  {
    p(n.state) && (n.base.Some? ==> p(n.base.value))
  }

  lemma {:induction false} ApplyAllKeeps<S(!new)>(r: Rules<S>, p: S -> bool, s: S, bs: seq<Block>)
    requires KeptBy(r, p) && p(s)
    ensures p(ApplyAll(r, s, bs).state)
    decreases bs
  {
    if bs != [] {
      var e := Apply(r, s, bs[0]);
      assert p(e.state);
      if e.ok { ApplyAllKeeps(r, p, e.state, bs[1..]); }
    }
  }

  lemma {:induction false} AdvanceHolds<S(!new)>(r: Rules<S>, p: S -> bool, n: Node<S>)
    requires KeptBy(r, p) && Linked(n.bodies) && Holds(p, n)
    ensures Holds(p, Advance(r, n))
  {
    if n.base.Some? && Walk(n.bodies, r.id(n.head), n.baseId).Some? && n.head.height >= r.depth {
      ApplyAllKeeps(r, p, n.base.value, UpTo(Walk(n.bodies, r.id(n.head), n.baseId).value, n.head.height - r.depth));
    }
  }

  lemma {:induction false} FollowHolds<S(!new)>(r: Rules<S>, p: S -> bool, n: Node<S>)
    requires KeptBy(r, p) && Linked(n.bodies) && Holds(p, n)
    ensures Holds(p, Follow(r, n).node)
  {
    var best, head := Best(n.nodes), r.id(n.head);
    if best != head {
      match Walk(n.bodies, best, head)
      case Some(suffix) =>
        ApplyAllKeeps(r, p, n.state, suffix);
        var m := n.(state := ApplyAll(r, n.state, suffix).state);
        if suffix != [] { AdvanceHolds(r, p, m.(head := suffix[|suffix| - 1].header)); }
      case None =>
        if n.base.Some? && Walk(n.bodies, best, n.baseId).Some? {
          var branch := Walk(n.bodies, best, n.baseId).value;
          ApplyAllKeeps(r, p, n.base.value, branch);
          var m := n.(state := ApplyAll(r, n.base.value, branch).state);
          if branch != [] { AdvanceHolds(r, p, m.(head := branch[|branch| - 1].header)); }
        }
    }
  }

  lemma {:induction false} StepHolds<S(!new)>(r: Rules<S>, g: Origin<S>, p: S -> bool, n: Node<S>, s: Step<S>)
    requires KeptBy(r, p) && Inv(r, g, n) && Possible(r, g, n, s) && Holds(p, n)
    ensures Holds(p, Take(r, g, n, s).node)
  {
    match s
    case Receive(b) =>
      if r.id(b.header) !in n.nodes && Refusal(r, n, b).None? {
        RecordLinks(r, n, b);
        FollowHolds(r, p, Record(r, n, b));
      }
    case Make(q) =>
      var b := Proposed(r, n, q);
      var e := Apply(r, n.state, b);
      assert p(e.state);
      if e.ok {
        var m := n.(state := e.state, head := b.header);
        RecordLinks(r, m, b);
        AdvanceHolds(r, p, Record(r, m, b));
      }
  }

  /** What execution keeps holds of the ledger and of the replay base at every point of every run. */
  lemma {:induction false} HoldsOverRuns<S(!new)>(r: Rules<S>, g: Origin<S>, p: S -> bool, ns: seq<Node<S>>,
      steps: seq<Step<S>>, i: nat)
    requires Run(r, g, ns, steps) && KeptBy(r, p) && p(g.state) && i < |ns|
    ensures Holds(p, ns[i])
  {
    if i > 0 {
      HoldsOverRuns(r, g, p, ns, steps, i - 1);
      RunKeeps(r, g, ns, steps, i - 1);
      assert Follows(r, g, ns[i - 1], steps[i - 1], ns[i - 1 + 1]);
      StepHolds(r, g, p, ns[i - 1], steps[i - 1]);
    }
  }

  /* ----- The ledger ----- */

  /** The ledger as the chain copies, replays and installs it: without the logs of the last block. */
  function Quiet(s: L.State): (r: L.State)
  {
    s.(lastLogs := [])
  }

  /** Executing a block's encoded transactions on the ledger. */
  function Execute(cfg: L.Config, s: L.State, height: nat, validator: seq<byte>, body: seq<byte>): (e: Exec<L.State>)
  {
    match Wire.BodyTxs(body)
    case None => Exec(s, false)
    case Some(txs) =>
      if height >= TWO64 then Exec(s, false)
      else
        match L.ApplyBlock(cfg, s, L.Block(height, validator, txs))
        case Accepted(s') => Exec(Quiet(s'), true)
        case Rejected(s', _) => Exec(s', false)
  }

  ghost predicate Solvent(cfg: L.Config, s: L.State)
  {
    Registry.Sound(cfg, s.validators) && Supply.Supplied(s)
  }

  lemma ExecuteKeepsSolvent(cfg: L.Config, s: L.State, height: nat, validator: seq<byte>, body: seq<byte>)
    requires Solvent(cfg, s)
    ensures Solvent(cfg, Execute(cfg, s, height, validator, body).state)
  {
    var txs := Wire.BodyTxs(body);
    if txs.Some? && height < TWO64 {
      var b := L.Block(height, validator, txs.value);
      Supply.BlockConservesSupply(cfg, s, b);
      Registry.BlockPreserves(cfg, s, b);
    }
  }

  /** A chain whose blocks execute on the ledger. */
  ghost predicate RunsLedger(cfg: L.Config, r: Rules<L.State>)
  {
    forall s: L.State, height: nat, validator: seq<byte>, body: seq<byte> ::
      r.apply(s, height, validator, body) == Execute(cfg, s, height, validator, body)
  }

  /**
   On every node, after any blocks received or produced, valid or not: no more is in circulation than
   was minted, no more was minted than the cap, and the validator registry is sound; and the same holds
   of the ledger a reorg would rewind to.
   */
  lemma {:induction false} LedgersStaySolvent(cfg: L.Config, r: Rules<L.State>, g: Origin<L.State>,
      ns: seq<Node<L.State>>, steps: seq<Step<L.State>>, i: nat)
    requires RunsLedger(cfg, r) && Run(r, g, ns, steps) && Solvent(cfg, g.state) && i < |ns|
    ensures Solvent(cfg, ns[i].state) && (ns[i].base.Some? ==> Solvent(cfg, ns[i].base.value))
  {
    var p := (s: L.State) => Solvent(cfg, s);
    forall s: L.State, height: nat, validator: seq<byte>, body: seq<byte> | p(s)
      ensures p(r.apply(s, height, validator, body).state)
    {
      ExecuteKeepsSolvent(cfg, s, height, validator, body);
    }
    HoldsOverRuns(r, g, p, ns, steps, i);
  }
}
