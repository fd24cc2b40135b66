/**
 What a failed fast-forward leaves on the ledger of accounts, and blocks of real transactions that
 leave it ahead of the head.
 */
module Setback {
  import opened Words
  import opened Fork
  import opened Chain
  import opened Finality
  import opened Converge
  import opened Network
  import opened Txs
  import L = Ledger
  import Ahead
  import Atomic
  import Codec
  import Contracts
  import Replays
  import Wire

  /* ----- Executing one block ----- */

  /** No claim is later than the ledger's height. */
  ghost predicate Aged(s: L.State)
  {
    forall a :: a in s.claims ==> s.claims[a] <= s.height
  }

  /** The transactions of a block that execution gets through before the one that breaks. */
  function GotThrough(cfg: L.Config, s: L.State, b: Block): (txs: seq<Tx>)
  {
    match Wire.BodyTxs(b.body)
    case None => []
    case Some(txs) =>
      if b.header.height >= TWO64 then []
      else
        var payload := L.Payload(L.Block(b.header.height, b.header.validator, txs));
        payload[..Atomic.Progress(cfg, L.Opened(s), payload, b.header.height, 0)]
  }

  lemma {:induction false} MarkedLimit(claims: map<Address, u64>, txs: seq<Tx>, height: u64, limit: u64)
    requires height <= limit && forall a :: a in claims ==> claims[a] <= limit
    ensures forall a :: a in Atomic.Marked(claims, txs, height) ==> Atomic.Marked(claims, txs, height)[a] <= limit
    decreases txs
  {
    if txs != [] {
      MarkedLimit(if txs[0].kind == FAUCET then claims[txs[0].from := height] else claims, txs[1..], height, limit);
    }
  }

  /** An accepted block sets the height, and its claims are of that height. */
  lemma {:induction false} AcceptedHeight(cfg: L.Config, s: L.State, b: L.Block)
    requires L.ApplyBlock(cfg, s, b).Accepted?
    ensures var s' := L.ApplyBlock(cfg, s, b).s;
            s'.height == b.height && (Aged(s) && s.height <= b.height ==> Aged(s'))
  {
    var payload := L.Payload(b);
    var k := L.ApplyTxs(cfg, L.Opened(s), payload, b.height, 0).k;
    Atomic.ClaimsAre(cfg, L.Opened(s), payload, b.height, 0);
    if Aged(s) && s.height <= b.height {
      MarkedLimit(s.claims, payload[..Atomic.Progress(cfg, L.Opened(s), payload, b.height, 0)], b.height, b.height);
    }
  }

  lemma {:induction false} ExecutedHeight(cfg: L.Config, s: L.State, b: Block)
    ensures var e := Execute(cfg, s, b.header.height, b.header.validator, b.body);
            if e.ok then e.state.height == b.header.height && (Aged(s) && s.height <= b.header.height ==> Aged(e.state))
            else Atomic.SameLedger(s, e.state)
  {
    var txs := Wire.BodyTxs(b.body);
    if txs.Some? && b.header.height < TWO64 {
      var lb := L.Block(b.header.height, b.header.validator, txs.value);
      if L.ApplyBlock(cfg, s, lb).Accepted? {
        AcceptedHeight(cfg, s, lb);
      } else {
        Atomic.RefusedBlockChangesNothing(cfg, s, lb);
      }
    }
  }

  /** A refused block leaves the claims alone just when it got through no faucet transaction. */
  lemma {:induction false} RefusedClaims(cfg: L.Config, s: L.State, b: Block)
    requires Aged(s) && s.height < b.header.height
    requires !Execute(cfg, s, b.header.height, b.header.validator, b.body).ok
    ensures Execute(cfg, s, b.header.height, b.header.validator, b.body).state.claims == s.claims <==>
              Atomic.NoClaim(GotThrough(cfg, s, b))
  {
    var txs := Wire.BodyTxs(b.body);
    if txs.Some? && b.header.height < TWO64 {
      var lb := L.Block(b.header.height, b.header.validator, txs.value);
      Atomic.RefusedBlockLeaksClaims(cfg, s, lb);
      var done := GotThrough(cfg, s, b);
      assert Atomic.NothingNew(s.claims, done, b.header.height) <==> Atomic.NoClaim(done);
    }
  }

  /* ----- Executing a path ----- */

  /** Accepted in full, a path brings the ledger to its last block's height. */
  lemma {:induction false} ReplayedHeight(cfg: L.Config, r: Rules<L.State>, s: L.State, p: seq<Block>)
    requires RunsLedger(cfg, r) && Climbs(p, s.height) && Aged(s) && ApplyAll(r, s, p).ok
    ensures ApplyAll(r, s, p).state.height == s.height + |p| && Aged(ApplyAll(r, s, p).state)
    decreases p
  {
    if p != [] {
      var e := Apply(r, s, p[0]);
      ExecutedHeight(cfg, s, p[0]);
      forall i | 0 <= i < |p[1..]| ensures p[1..][i].header.height == e.state.height + 1 + i {
        assert p[1..][i] == p[i + 1];
      }
      ReplayedHeight(cfg, r, e.state, p[1..]);
    }
  }

  /** Accepted in part, a path never lowers the height. */
  lemma {:induction false} HeightNeverFalls(cfg: L.Config, r: Rules<L.State>, s: L.State, p: seq<Block>)
    requires RunsLedger(cfg, r) && Climbs(p, s.height)
    ensures s.height <= ApplyAll(r, s, p).state.height
    decreases p
  {
    if p != [] {
      var e := Apply(r, s, p[0]);
      ExecutedHeight(cfg, s, p[0]);
      if e.ok {
        forall i | 0 <= i < |p[1..]| ensures p[1..][i].header.height == e.state.height + 1 + i {
          assert p[1..][i] == p[i + 1];
        }
        HeightNeverFalls(cfg, r, e.state, p[1..]);
      }
    }
  }

  /**
   A path that fails to execute from a ledger at the foot of it. Accounts, registry, height and supply
   are as before just when its very first block is refused; the faucet claims are too just when that
   block, in addition, got through no faucet transaction.
   */
  lemma {:induction false} FailedPath(cfg: L.Config, r: Rules<L.State>, s: L.State, p: seq<Block>)
    requires RunsLedger(cfg, r) && Climbs(p, s.height) && Aged(s) && !ApplyAll(r, s, p).ok
    ensures p != []
    ensures Atomic.SameLedger(s, ApplyAll(r, s, p).state) <==> !Apply(r, s, p[0]).ok
    ensures Atomic.SameLedger(s, ApplyAll(r, s, p).state) && ApplyAll(r, s, p).state.claims == s.claims
            <==> !Apply(r, s, p[0]).ok && Atomic.NoClaim(GotThrough(cfg, s, p[0]))
  {
    var e := Apply(r, s, p[0]);
    ExecutedHeight(cfg, s, p[0]);
    if e.ok {
      forall i | 0 <= i < |p[1..]| ensures p[1..][i].header.height == e.state.height + 1 + i {
        assert p[1..][i] == p[i + 1];
      }
      HeightNeverFalls(cfg, r, e.state, p[1..]);
    } else {
      RefusedClaims(cfg, s, p[0]);
    }
  }

  /** The chain's ledger against the replay of the canonical chain, as a reader of accounts sees them. */
  ghost predicate LooksLive(r: Rules<L.State>, g: Origin<L.State>, n: Node<L.State>)
    requires Linked(n.bodies)
  {
    var e := Replay(r, g, n.bodies, r.id(n.head));
    e.ok && Atomic.SameLedger(e.state, n.state)
  }

  ghost predicate ClaimsLive(r: Rules<L.State>, g: Origin<L.State>, n: Node<L.State>)
    requires Linked(n.bodies)
  {
    Replay(r, g, n.bodies, r.id(n.head)).state.claims == n.state.claims
  }

  ghost predicate ReadsLive(r: Rules<L.State>, g: Origin<L.State>, n: Node<L.State>)
    requires Linked(n.bodies)
  {
    LooksLive(r, g, n) && ClaimsLive(r, g, n)
  }

  /** A ledger that reads like the replay is at the height of the head, and no claim on it is later. */
  lemma {:induction false} LiveHeight(cfg: L.Config, r: Rules<L.State>, g: Origin<L.State>, n: Node<L.State>)
    requires RunsLedger(cfg, r) && Inv(r, g, n) && ReadsLive(r, g, n) && g.state.height == 0 && Aged(g.state)
    ensures n.state.height == n.head.height && Aged(n.state)
  {
    var root, head := r.id(g.block.header), r.id(n.head);
    FromGenesis(r, g, n, head);
    WalkClimbs(n.bodies, head, root);
    ReplayedHeight(cfg, r, g.state, Walk(n.bodies, head, root).value);
  }

  /**
   A received block whose fast-forward or reorg fails, on a node whose ledger reads like the replay of
   the canonical chain. After a failed reorg it still does. After a failed fast-forward its accounts,
   registry, height and supply do just when the first block above the head is one this ledger refuses,
   and its faucet claims do too just when that block got through no faucet transaction.
   */
  lemma {:induction false} FailedForward(cfg: L.Config, r: Rules<L.State>, g: Origin<L.State>, n: Node<L.State>,
      b: Block)
    requires RunsLedger(cfg, r) && Inv(r, g, n) && ReadsLive(r, g, n) && g.state.height == 0 && Aged(g.state)
    requires r.id(b.header) != ZERO && Accept(r, n, b).err == Some(ReorgReplay)
    ensures var m, x := Record(r, n, b), Accept(r, n, b).node;
            && Linked(m.bodies) && Linked(x.bodies)
            && match Walk(m.bodies, Best(m.nodes), r.id(n.head))
               case None => ReadsLive(r, g, x) && (Live(r, g, n) ==> Live(r, g, x))
               case Some(suffix) =>
                 && suffix != []
                 && (LooksLive(r, g, x) <==> !Apply(r, n.state, suffix[0]).ok)
                 && (ReadsLive(r, g, x)
                     <==> !Apply(r, n.state, suffix[0]).ok && Atomic.NoClaim(GotThrough(cfg, n.state, suffix[0])))
  {
    Replays.FailedReceive(r, g, n, b);
    var m, x := Record(r, n, b), Accept(r, n, b).node;
    RecordKeepsShape(r, g, n, b);
    WalkStays(n.bodies, m.bodies, r.id(n.head), r.id(g.block.header));
    var best, head := Best(m.nodes), r.id(n.head);
    if Walk(m.bodies, best, head).Some? {
      ForwardFails(cfg, r, g, m, best, Walk(m.bodies, best, head).value);
      SameReplay(r, g, m, x);
    }
  }

  lemma {:induction false} ForwardFails(cfg: L.Config, r: Rules<L.State>, g: Origin<L.State>, m: Node<L.State>,
      best: Hash, suffix: seq<Block>)
    requires RunsLedger(cfg, r) && Inv(r, g, m) && ReadsLive(r, g, m) && g.state.height == 0 && Aged(g.state)
    requires Walk(m.bodies, best, r.id(m.head)) == Some(suffix) && !ApplyAll(r, m.state, suffix).ok
    ensures suffix != []
    ensures var s := ApplyAll(r, m.state, suffix).state;
            (Atomic.SameLedger(m.state, s) <==> !Apply(r, m.state, suffix[0]).ok)
            && (Atomic.SameLedger(m.state, s) && s.claims == m.state.claims
                <==> !Apply(r, m.state, suffix[0]).ok && Atomic.NoClaim(GotThrough(cfg, m.state, suffix[0])))
  {
    LiveHeight(cfg, r, g, m);
    WalkClimbs(m.bodies, best, r.id(m.head));
    FailedPath(cfg, r, m.state, suffix);
  }

  /** What reads like the ledger before reads like the replay. */
  lemma {:induction false} SameReplay(r: Rules<L.State>, g: Origin<L.State>, m: Node<L.State>, x: Node<L.State>)
    requires Inv(r, g, m) && ReadsLive(r, g, m) && x == m.(state := x.state)
    ensures LooksLive(r, g, x) <==> Atomic.SameLedger(m.state, x.state)
    ensures ClaimsLive(r, g, x) <==> x.state.claims == m.state.claims
  {
    Transfers(Replay(r, g, m.bodies, r.id(m.head)).state, m.state, x.state);
  }

  lemma Transfers(s: L.State, t: L.State, u: L.State)
    requires Atomic.SameLedger(s, t)
    ensures Atomic.SameLedger(s, u) <==> Atomic.SameLedger(t, u)
  {
    forall a ensures Contracts.Get(t.accounts, a) == Contracts.Get(s.accounts, a) { }
  }

  /* ----- Blocks that leave the ledger ahead ----- */

  function Tag(k: byte): (id: Hash)
    ensures id[0] == k
  {
    seq(32, i => k)
  }

  /** A chain over the ledger whose headers hash to their seals. */
  function LedgerRules(cfg: L.Config): (r: Rules<L.State>)
  {
    Rules((h: Header) => if |h.seal| == 1 then Tag(h.seal[0]) else Tag(255),
          (s: L.State, height: nat, v: seq<byte>, body: seq<byte>) => Execute(cfg, s, height, v, body),
          (s: L.State, h: Header) => true, (b: Block) => true, (b: Block) => true, 1, 0)
  }

  function At(height: nat, prev: Hash, seal: byte, txs: seq<Tx>): (b: Block)
  {
    Carrying(height, prev, seal, Wire.BodyBytes(txs))
  }

  function Carrying(height: nat, prev: Hash, seal: byte, body: seq<byte>): (b: Block)
  {
    Block(Header(height, prev, [], 0, 0, [seal]), body)
  }

  /** A reward to someone who is not the block's validator. */
  const THEFT := Tx([], [7], 0, 0, 0, 0, TRANSFER, 0, [], [], [])

  lemma {:induction false} ShortFields(fs: seq<Codec.Field>)
    requires forall i :: 0 <= i < |fs| ==> |Codec.Put(fs[i])| <= 24
    ensures |Codec.PutAll(fs)| <= 24 * |fs|
  {
    if fs != [] { ShortFields(fs[1..]); }
  }

  lemma {:induction false} ShortIsSized(t: Tx)
    requires |t.from| <= 16 && |t.to| <= 16 && |t.data| <= 16 && |t.pubKey| <= 16 && |t.sig| <= 16
    ensures Codec.TxSized(t)
  {
    ShortFields(Codec.SignedFields(t));
  }

  /** A body of one coinbase that is not paid to the validator. */
  lemma {:induction false} TheftIsRefused(cfg: L.Config, s: L.State, height: nat, body: seq<byte>)
    requires height < TWO64 && Wire.BodyTxs(body) == Some([THEFT])
    ensures Execute(cfg, s, height, [], body) == Exec(s, false)
  {
    var b := L.Block(height, [], [THEFT]);
    assert L.Payload(b) == [];
    assert L.Restored(L.Opened(s).world) == s.accounts;
  }

  lemma {:induction false} BodyReads(txs: seq<Tx>)
    requires Wire.BodySized(txs)
    ensures Wire.BodyTxs(Wire.BodyBytes(txs)) == Some(txs)
  {
    Wire.BodyRoundTrip(txs, []);
    assert Wire.BodyBytes(txs) + [] == Wire.BodyBytes(txs);
  }

  lemma {:induction false} EmptyIsAccepted(cfg: L.Config, s: L.State, height: nat, body: seq<byte>)
    requires height < TWO64 && Wire.BodyTxs(body) == Some([])
    ensures Execute(cfg, s, height, [], body) == Exec(Quiet(s.(height := height)), true)
  {
  }

  /**
   On every configuration and every genesis ledger: an invalid block, its empty sibling and an invalid
   child of that one, which received in this order leave the ledger one block ahead of its head.
   */
  lemma {:induction false} TrapExists(cfg: L.Config, s: L.State)
    requires s.height == 0
    ensures RunsLedger(cfg, LedgerRules(cfg))
    ensures Ahead.Trap(LedgerRules(cfg), Origin(At(0, ZERO, 1, []), s), At(1, Tag(1), 2, [THEFT]), At(1, Tag(1), 3, []),
                       At(2, Tag(3), 4, [THEFT]))
  {
    var theft, none := Wire.BodyBytes([THEFT]), Wire.BodyBytes([]);
    ShortIsSized(THEFT);
    BodyReads([THEFT]);
    BodyReads([]);
    TrapFrom(cfg, s, theft, none);
  }

  lemma {:induction false} TrapFrom(cfg: L.Config, s: L.State, theft: seq<byte>, none: seq<byte>)
    requires s.height == 0 && Wire.BodyTxs(theft) == Some([THEFT]) && Wire.BodyTxs(none) == Some([])
    ensures RunsLedger(cfg, LedgerRules(cfg))
    ensures Ahead.Trap(LedgerRules(cfg), Origin(Carrying(0, ZERO, 1, none), s), Carrying(1, Tag(1), 2, theft),
                       Carrying(1, Tag(1), 3, none), Carrying(2, Tag(3), 4, theft))
  {
    TheftIsRefused(cfg, s, 1, theft);
    EmptyIsAccepted(cfg, s, 1, none);
    TheftIsRefused(cfg, Quiet(s.(height := 1)), 2, theft);
    TrapOf(cfg, s, theft, none);
  }

  lemma {:induction false} TrapOf(cfg: L.Config, s: L.State, theft: seq<byte>, none: seq<byte>)
    requires s.height == 0
    requires Execute(cfg, s, 1, [], theft) == Exec(s, false)
             && Execute(cfg, s, 1, [], none) == Exec(Quiet(s.(height := 1)), true)
    requires Execute(cfg, Quiet(s.(height := 1)), 2, [], theft) == Exec(Quiet(s.(height := 1)), false)
    ensures RunsLedger(cfg, LedgerRules(cfg))
    ensures Ahead.Trap(LedgerRules(cfg), Origin(Carrying(0, ZERO, 1, none), s), Carrying(1, Tag(1), 2, theft),
                       Carrying(1, Tag(1), 3, none), Carrying(2, Tag(3), 4, theft))
  {
    assert ZERO[0] == 0;
    DifferenceAt(Tag(2), Tag(3), 0);
  }
}
