/**
 What failed productions do to the ledger: they leave faucet claims on it, and nothing else; and what
 those do to the blocks that come after.
 */
module Leaks {
  import opened Words
  import opened Fork
  import opened Chain
  import opened Finality
  import opened Converge
  import opened Replays
  import opened Network
  import opened Setback
  import opened Alike
  import opened Txs
  import L = Ledger
  import Atomic
  import Codec
  import Contracts
  import Wire

  /* ----- One production ----- */

  /**
   A block that fails to execute leaves what reads like the ledger, just when it got through no faucet
   transaction.
   */
  lemma {:induction false} FailureReads(cfg: L.Config, s: L.State, b: Block)
    requires !Execute(cfg, s, b.header.height, b.header.validator, b.body).ok
    ensures var t := Execute(cfg, s, b.header.height, b.header.validator, b.body).state;
            && Atomic.SameLedger(s, t) && (Atomic.NoClaim(GotThrough(cfg, s, b)) ==> t.claims == s.claims)
            && (Aged(s) && s.height < b.header.height ==>
                  (t.claims == s.claims <==> Atomic.NoClaim(GotThrough(cfg, s, b))))
  {
    ExecutedHeight(cfg, s, b);
    if Aged(s) && s.height < b.header.height { RefusedClaims(cfg, s, b); }
    var txs := Wire.BodyTxs(b.body);
    if txs.Some? && b.header.height < TWO64 {
      Atomic.RefusedBlockLeaksClaims(cfg, s, L.Block(b.header.height, b.header.validator, txs.value));
    }
  }

  /**
   A production that fails, on a node whose ledger reads like the replay: tree, bodies, head and base
   stay, and the ledger's accounts, registry, height and supply; its faucet claims stay just when the
   block got through no faucet transaction before the one that failed.
   */
  lemma {:induction false} FailedProduction(cfg: L.Config, r: Rules<L.State>, g: Origin<L.State>, n: Node<L.State>,
      p: Proposal<L.State>)
    requires RunsLedger(cfg, r) && Inv(r, g, n) && ReadsLive(r, g, n) && g.state.height == 0 && Aged(g.state)
    requires NoCollision(r, n, Proposed(r, n, p)) && Produce(r, n, p).err.Some?
    ensures var x := Produce(r, n, p);
            && x.err == Some(BadBlock) && x.node == n.(state := x.node.state) && LooksLive(r, g, x.node)
            && (ClaimsLive(r, g, x.node) <==> Atomic.NoClaim(GotThrough(cfg, n.state, Proposed(r, n, p))))
  {
    var b, x := Proposed(r, n, p), Produce(r, n, p).node;
    LiveHeight(cfg, r, g, n);
    FailureReads(cfg, n.state, b);
    SameReplay(r, g, n, x);
  }

  /* ----- Runs ----- */

  ghost function Reading(): (alike: (L.State, L.State) -> bool)
  {
    (s: L.State, t: L.State) => ReadsAlike(s, t)
  }

  lemma ReadsInTurn(s: L.State, t: L.State, u: L.State)
    requires ReadsAlike(s, t) && ReadsAlike(t, u)
    ensures ReadsAlike(s, u)
  {
    forall a ensures Contracts.Get(u.accounts, a) == Contracts.Get(s.accounts, a) {
      assert Contracts.Get(u.accounts, a) == Contracts.Get(t.accounts, a);
    }
  }

  lemma {:induction false} ExecuteRespects(cfg: L.Config, s: L.State, t: L.State, height: nat, validator: seq<byte>,
      body: seq<byte>)
    requires ReadsAlike(s, t)
    ensures SameFor(Reading(), Execute(cfg, s, height, validator, body), Execute(cfg, t, height, validator, body))
  {
    var txs := Wire.BodyTxs(body);
    if txs.Some? && height < TWO64 {
      BlockRespects(cfg, s, t, L.Block(height, validator, txs.value));
    }
  }

  lemma {:induction false} ReadingIsRespected(cfg: L.Config, r: Rules<L.State>)
    requires RunsLedger(cfg, r)
    ensures Respected(r, Reading()) == true
  {
    var alike := Reading();
    forall s, t, u | alike(s, t) && alike(t, u) ensures alike(s, u) { ReadsInTurn(s, t, u); }
    forall s, t, height: nat, validator: seq<byte>, body: seq<byte> | alike(s, t)
      ensures SameFor(alike, r.apply(s, height, validator, body), r.apply(t, height, validator, body))
    {
      ExecuteRespects(cfg, s, t, height, validator, body);
    }
  }

  /** A production that fails before any faucet transaction gets through, or that does not fail. */
  ghost predicate LeavesClaims(cfg: L.Config, r: Rules<L.State>, g: Origin<L.State>, n: Node<L.State>, s: Step<L.State>)
  {
    s.Make? && Inv(r, g, n) && Possible(r, g, n, s) && Take(r, g, n, s).err.Some? ==>
      Atomic.NoClaim(GotThrough(cfg, n.state, Proposed(r, n, s.p)))
  }

  lemma {:induction false} LeavingClaimsIsHarmless(cfg: L.Config, r: Rules<L.State>, g: Origin<L.State>,
      n: Node<L.State>, s: Step<L.State>)
    requires RunsLedger(cfg, r) && LeavesClaims(cfg, r, g, n, s)
    ensures Harmless(r, g, Reading(), n, s)
  {
    if s.Make? && Inv(r, g, n) && Possible(r, g, n, s) && Take(r, g, n, s).err.Some? {
      FailureReads(cfg, n.state, Proposed(r, n, s.p));
    }
  }

  /**
   At every point of a run of executable blocks in which no failed production got through a faucet
   transaction, the ledger reads like the replay of the canonical chain: accounts, registry, height,
   supply and claims. No replay fails on the way.
   */
  lemma {:induction false} LedgerLiveOverRuns(cfg: L.Config, r: Rules<L.State>, g: Origin<L.State>,
      ns: seq<Node<L.State>>, steps: seq<Step<L.State>>, i: nat)
    requires RunsLedger(cfg, r) && Run(r, g, ns, steps) && i < |ns| && Linked(ns[i].bodies) && Executable(r, g, ns[i])
    requires forall j :: 0 <= j < i ==> LeavesClaims(cfg, r, g, ns[j], steps[j])
    ensures Inv(r, g, ns[i]) && ReadsLive(r, g, ns[i])
    ensures i > 0 ==> Inv(r, g, ns[i - 1]) && Possible(r, g, ns[i - 1], steps[i - 1])
                      && Take(r, g, ns[i - 1], steps[i - 1]).err != Some(ReorgReplay)
  {
    ReadingIsRespected(cfg, r);
    forall j | 0 <= j < i ensures Harmless(r, g, Reading(), ns[j], steps[j]) {
      assert LeavesClaims(cfg, r, g, ns[j], steps[j]);
      LeavingClaimsIsHarmless(cfg, r, g, ns[j], steps[j]);
    }
    LiveOverRuns(r, g, Reading(), ns, steps, i);
  }

  /* ----- A leaked claim, and the head that stalls on it ----- */

  /** A valid child of the genesis block that this node's ledger refuses: it is the tip, and the head stays. */
  lemma {:induction false} Stalls<S(!new)>(r: Rules<S>, g: Origin<S>, n: Node<S>, b: Block)
    requires Inv(r, g, n) && n.head == g.block.header && n.bodies.Keys == {r.id(g.block.header)}
    requires WellMade(r, b) && Attaches(r, g.block, b) && r.id(b.header) != r.id(g.block.header)
    requires !Apply(r, n.state, b).ok
    ensures var x := Accept(r, n, b);
            && x.err == Some(ReorgReplay) && x.node == Record(r, n, b).(state := Apply(r, n.state, b).state)
            && Best(x.node.nodes) == r.id(b.header) && Inv(r, g, x.node)
  {
    var m, root, id := Record(r, n, b), r.id(g.block.header), r.id(b.header);
    RecordKeepsShape(r, g, n, b);
    RecordKeepsBase(r, g, n, m);
    OneAbove(m.bodies, id, root);
    assert Stored(r, g, m, root) && Stored(r, g, m, id);
    assert m.bodies.Keys == {root, id};
    assert IsBest(m.nodes, id);
    BestIsUnique(m.nodes, Best(m.nodes), id);
    assert [b][1..] == [];
    assert ApplyAll(r, n.state, [b]) == Apply(r, n.state, b);
    AcceptKeeps(r, g, n, b);
  }

  /** Two stored blocks, the second of which executes on the genesis ledger. */
  lemma {:induction false} BothExecute<S(!new)>(r: Rules<S>, g: Origin<S>, n: Node<S>, b: Block)
    requires Inv(r, g, n) && Attaches(r, g.block, b) && b.header.prev != ZERO && Apply(r, g.state, b).ok
    requires n.bodies == map[r.id(g.block.header) := g.block, r.id(b.header) := b]
    requires r.id(b.header) != r.id(g.block.header)
    ensures Executable(r, g, n)
  {
    var root, id := r.id(g.block.header), r.id(b.header);
    OneAbove(n.bodies, id, root);
    assert [b][1..] == [];
    assert ApplyAll(r, g.state, [b]).ok;
    forall x | x in n.bodies ensures Runs(r, g, n.bodies, x) {
      assert x == root || x == id;
    }
  }

  ghost function FaucetOrigin(): (g: Origin<L.State>)
  {
    Origin(At(0, ZERO, 1, []), Atomic.FaucetLedger())
  }

  /** A producer's block: a faucet claim, then a coinbase where none may be. */
  ghost function LeakyProposal(body: seq<byte>): (p: Proposal<L.State>)
  {
    Proposal([], 0, 0, (s: L.State) => body, (s: L.State) => [2])
  }

  lemma {:induction false} LeakyFails(o: Contracts.Oracle, body: seq<byte>)
    requires Wire.BodyTxs(body) == Some([Atomic.FaucetClaim(), Atomic.Misplaced()])
    ensures var e := Execute(Atomic.FaucetConfig(o), Atomic.FaucetLedger(), 1, [], body);
            !e.ok && Atomic.FaucetClaim().from in e.state.claims && e.state.claims[Atomic.FaucetClaim().from] == 1
  {
    Atomic.ClaimOutlives(o);
    var cfg, s, b := Atomic.FaucetConfig(o), Atomic.FaucetLedger(),
                     L.Block(1, [], [Atomic.FaucetClaim(), Atomic.Misplaced()]);
    Atomic.RefusedBlockLeaksClaims(cfg, s, b);
    var done := L.Payload(b)[..Atomic.Progress(cfg, L.Opened(s), L.Payload(b), 1, 0)];
    ClaimedAt(s.claims, done, 1, Atomic.FaucetClaim().from);
  }

  lemma {:induction false} ClaimedAt(claims: map<Address, u64>, txs: seq<Tx>, height: u64, a: Address)
    requires a !in claims
    ensures var m := Atomic.Marked(claims, txs, height); a in m ==> m[a] == height
  {
    if exists j :: 0 <= j < |txs| && txs[j].kind == FAUCET && txs[j].from == a {
      Atomic.MarkedAt(claims, txs, height, a);
    } else {
      Unmarked(claims, txs, height, a);
    }
  }

  lemma {:induction false} Unmarked(claims: map<Address, u64>, txs: seq<Tx>, height: u64, a: Address)
    requires a !in claims && forall j :: 0 <= j < |txs| ==> !(txs[j].kind == FAUCET && txs[j].from == a)
    ensures a !in Atomic.Marked(claims, txs, height)
    decreases txs
  {
    if txs != [] {
      Unmarked(if txs[0].kind == FAUCET then claims[txs[0].from := height] else claims, txs[1..], height, a);
    }
  }

  lemma {:induction false} OneTx(cfg: L.Config, k: L.Work, t: Tx, height: u64)
    ensures L.ApplyTxs(cfg, k, [t], height, 0) == L.ApplyTx(cfg, k, t, height, 0)
  {
    assert [t][1..] == [];
  }

  /** The claim in a block of its own is valid on the genesis ledger. */
  lemma {:induction false} HonestExecutes(o: Contracts.Oracle, body: seq<byte>)
    requires Wire.BodyTxs(body) == Some([Atomic.FaucetClaim()])
    ensures Execute(Atomic.FaucetConfig(o), Atomic.FaucetLedger(), 1, [], body).ok
  {
    var cfg, s, t := Atomic.FaucetConfig(o), Atomic.FaucetLedger(), Atomic.FaucetClaim();
    assert t.data[..8] == U64Bytes(0);
    U64RoundTrip(0);
    Atomic.ClaimIsPayable(o, L.Opened(s), t);
    Atomic.PayableIsPaid(cfg, L.Opened(s), t, 1, 0);
    OneTx(cfg, L.Opened(s), t, 1);
    PaidBlock(cfg, s, t);
  }

  lemma {:induction false} PaidBlock(cfg: L.Config, s: L.State, t: Tx)
    requires t.from != [] && L.ApplyTxs(cfg, L.Opened(s), [t], 1, 0).Going?
    ensures L.ApplyBlock(cfg, s, L.Block(1, [], [t])).Accepted?
  {
    assert L.Payload(L.Block(1, [], [t])) == [t];
  }

  /** On a ledger that remembers the claim it is refused. */
  lemma {:induction false} HonestRefused(o: Contracts.Oracle, s: L.State, body: seq<byte>)
    requires Wire.BodyTxs(body) == Some([Atomic.FaucetClaim()])
    requires Atomic.FaucetClaim().from in s.claims && s.claims[Atomic.FaucetClaim().from] == 1
    ensures !Execute(Atomic.FaucetConfig(o), s, 1, [], body).ok
  {
    var cfg, t := Atomic.FaucetConfig(o), Atomic.FaucetClaim();
    Atomic.CooldownStops(cfg, L.Opened(s), t, 1, 0);
    OneTx(cfg, L.Opened(s), t, 1);
    BrokenBlock(cfg, s, t);
  }

  lemma {:induction false} BrokenBlock(cfg: L.Config, s: L.State, t: Tx)
    requires t.from != [] && L.ApplyTxs(cfg, L.Opened(s), [t], 1, 0).Broken?
    ensures L.ApplyBlock(cfg, s, L.Block(1, [], [t])).Rejected?
  {
    assert L.Payload(L.Block(1, [], [t])) == [t];
  }

  /** The first step: the production fails, and its claim stays. */
  lemma {:induction false} Leaks(o: Contracts.Oracle, leaky: seq<byte>) returns (n: Node<L.State>)
    requires Wire.BodyTxs(leaky) == Some([Atomic.FaucetClaim(), Atomic.Misplaced()])
    ensures var r, g := LedgerRules(Atomic.FaucetConfig(o)), FaucetOrigin();
            var n0, p := Begin(r, g.block, g.state), LeakyProposal(leaky);
            && GoodOrigin(r, g) && Inv(r, g, n0) && NoCollision(r, n0, Proposed(r, n0, p))
            && Produce(r, n0, p) == Stepped(n, Some(BadBlock)) && n == n0.(state := n.state) && Inv(r, g, n)
            && Atomic.FaucetClaim().from in n.state.claims && n.state.claims[Atomic.FaucetClaim().from] == 1
  {
    var r, g := LedgerRules(Atomic.FaucetConfig(o)), FaucetOrigin();
    var n0, p := Begin(r, g.block, g.state), LeakyProposal(leaky);
    assert ZERO[0] == 0 && Tag(1)[0] == 1 && Tag(2)[0] == 2;
    BeginsWell(r, g);
    LeakyFails(o, leaky);
    n := Produce(r, n0, p).node;
    ProduceKeeps(r, g, n0, p);
  }

  /** Every stored block executes; a production fails, and after it the tip is a block the node refuses. */
  ghost predicate HeadStays<S(!new)>(r: Rules<S>, g: Origin<S>, ns: seq<Node<S>>, p: Proposal<S>, b: Block)
  {
    && |ns| == 3 && Run(r, g, ns, [Make(p), Receive(b)])
    && Good(r, g, ns[0]) && Good(r, g, ns[1]) && Good(r, g, ns[2])
    && NoCollision(r, ns[0], Proposed(r, ns[0], p)) && r.id(b.header) != ZERO
    && Produce(r, ns[0], p).err == Some(BadBlock) && Accept(r, ns[1], b).err == Some(ReorgReplay)
    && ns[2].head == ns[1].head == ns[0].head && Best(ns[2].nodes) == r.id(b.header) != r.id(ns[2].head)
  }

  ghost predicate Good<S(!new)>(r: Rules<S>, g: Origin<S>, n: Node<S>)
  {
    Inv(r, g, n) && Executable(r, g, n)
  }

  lemma {:induction false} StallingRun<S(!new)>(r: Rules<S>, g: Origin<S>, n0: Node<S>, n1: Node<S>, p: Proposal<S>,
      b: Block) returns (ns: seq<Node<S>>)
    requires GoodOrigin(r, g) && n0 == Begin(r, g.block, g.state) && Inv(r, g, n0)
             && NoCollision(r, n0, Proposed(r, n0, p))
    requires Produce(r, n0, p) == Stepped(n1, Some(BadBlock)) && n1 == n0.(state := n1.state) && Inv(r, g, n1)
    requires WellMade(r, b) && Attaches(r, g.block, b) && r.id(b.header) != r.id(g.block.header)
    requires !Apply(r, n1.state, b).ok && Apply(r, g.state, b).ok
    ensures HeadStays(r, g, ns, p, b) == true && ns[1] == n1
  {
    Stalls(r, g, n1, b);
    var n2 := Accept(r, n1, b).node;
    BothExecute(r, g, n2, b);
    ExecutableBefore(r, g, n1, n2);
    ExecutableBefore(r, g, n0, n2);
    ns := [n0, n1, n2];
    assert Follows(r, g, n0, Make(p), n1) && Follows(r, g, n1, Receive(b), n2);
  }

  lemma {:induction false} ClaimIsNew(r: Rules<L.State>, g: Origin<L.State>, n: Node<L.State>, a: Address)
    requires Inv(r, g, n) && n.head == g.block.header && a !in g.state.claims && a in n.state.claims
    ensures !ClaimsLive(r, g, n) && !Live(r, g, n)
  {
    assert Walk(n.bodies, r.id(n.head), r.id(g.block.header)) == Some([]);
  }

  ghost predicate HonestBlock<S(!new)>(r: Rules<S>, g: Origin<S>, b: Block)
  {
    WellMade(r, b) && Attaches(r, g.block, b) && r.id(b.header) != r.id(g.block.header)
  }

  lemma HonestIsWellMade(o: Contracts.Oracle, body: seq<byte>)
    ensures HonestBlock(LedgerRules(Atomic.FaucetConfig(o)), FaucetOrigin(), Carrying(1, Tag(1), 3, body))
  {
    assert ZERO[0] == 0 && Tag(1)[0] == 1 && Tag(3)[0] == 3;
  }

  lemma {:induction false} StallsFrom(o: Contracts.Oracle, leaky: seq<byte>, honest: seq<byte>)
      returns (ns: seq<Node<L.State>>)
    requires Wire.BodyTxs(leaky) == Some([Atomic.FaucetClaim(), Atomic.Misplaced()])
    requires Wire.BodyTxs(honest) == Some([Atomic.FaucetClaim()])
    ensures var r, g := LedgerRules(Atomic.FaucetConfig(o)), FaucetOrigin();
            HeadStays(r, g, ns, LeakyProposal(leaky), Carrying(1, Tag(1), 3, honest)) == true
            && !ClaimsLive(r, g, ns[1])
  {
    var r, g := LedgerRules(Atomic.FaucetConfig(o)), FaucetOrigin();
    var n1 := Leaks(o, leaky);
    HonestExecutes(o, honest);
    HonestRefused(o, n1.state, honest);
    HonestIsWellMade(o, honest);
    ClaimIsNew(r, g, n1, Atomic.FaucetClaim().from);
    ns := StallingRun(r, g, Begin(r, g.block, g.state), n1, LeakyProposal(leaky), Carrying(1, Tag(1), 3, honest));
  }

  /**
   A run on the ledger of accounts in which every stored block executes. A production fails after a
   faucet claim got through: the ledger is no longer the replay. Then a block with that claim arrives,
   which executes on the replay: it becomes the tip, the node refuses it, and its head stays below.
   */
  lemma {:induction false} HeadStalls(o: Contracts.Oracle)
      returns (ns: seq<Node<L.State>>, p: Proposal<L.State>, b: Block)
    ensures var cfg, r, g := Atomic.FaucetConfig(o), LedgerRules(Atomic.FaucetConfig(o)), FaucetOrigin();
            RunsLedger(cfg, r) && HeadStays(r, g, ns, p, b) == true && !ClaimsLive(r, g, ns[1])
  {
    var leaky, honest := TheBodies();
    p, b := LeakyProposal(leaky), Carrying(1, Tag(1), 3, honest);
    ns := StallsFrom(o, leaky, honest);
    LedgerRulesRun(Atomic.FaucetConfig(o));
  }

  lemma LedgerRulesRun(cfg: L.Config)
    ensures RunsLedger(cfg, LedgerRules(cfg))
  {
  }

  lemma {:induction false} TheBodies() returns (leaky: seq<byte>, honest: seq<byte>)
    ensures Wire.BodyTxs(leaky) == Some([Atomic.FaucetClaim(), Atomic.Misplaced()])
    ensures Wire.BodyTxs(honest) == Some([Atomic.FaucetClaim()])
  {
    ShortIsSized(Atomic.FaucetClaim());
    ShortIsSized(Atomic.Misplaced());
    leaky, honest := BodiesOf(Atomic.FaucetClaim(), Atomic.Misplaced());
  }

  lemma {:induction false} BodiesOf(t: Tx, u: Tx) returns (both: seq<byte>, one: seq<byte>)
    requires Codec.TxSized(t) && Codec.TxSized(u)
    ensures Wire.BodyTxs(both) == Some([t, u]) && Wire.BodyTxs(one) == Some([t])
  {
    both, one := Wire.BodyBytes([t, u]), Wire.BodyBytes([t]);
    BodyReads([t, u]);
    BodyReads([t]);
  }
}
