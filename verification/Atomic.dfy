/** A refused block leaves no trace, but for faucet claims. */
module Atomic {
  import opened Words
  import opened Txs
  import opened Economy
  import opened Contracts
  import opened Frames
  import opened Ledger

  /** A rollback would restore the same from both, and nothing is changed that a rollback would miss. */
  ghost predicate SameUndo(w: World, w': World)
  {
    (forall a {:trigger Undone(w', a)} :: Undone(w', a) == Undone(w, a)) && w.saved.Keys <= w'.saved.Keys
  }

  lemma EnteredUndo(w: World, a: Address)
    ensures SameUndo(w, Entered(w, a)) && a in Entered(w, a).saved
  {
  }

  lemma TouchedUndo(w: World, a: Address)
    ensures SameUndo(w, Touched(w, a)) && a in Touched(w, a).saved
  {
  }

  lemma WriteUndo(w: World, a: Address, c: Account)
    requires a in w.saved
    ensures SameUndo(w, w.(accounts := w.accounts[a := c]))
  {
  }

  lemma AcctUndo(w: World, a: Address)
    ensures SameUndo(w, w.(accounts := Acct(w.accounts, a)))
  {
  }

  lemma WithinUndo(w: World, w': World)
    requires Within(w, w')
    ensures SameUndo(w, w')
  {
    forall a ensures Undone(w', a) == Undone(w, a) && (a in w.saved ==> a in w'.saved) { assert Keeps(w, w', a); }
  }

  lemma InTurn(w: World, w': World, w'': World)
    requires SameUndo(w, w') && SameUndo(w', w'')
    ensures SameUndo(w, w'')
  {
    forall a ensures Undone(w'', a) == Undone(w, a) { assert Undone(w', a) == Undone(w, a); }
  }

  /** Credit after a snapshot. */
  lemma TouchAndWrite(w: World, a: Address, c: Account)
    ensures SameUndo(w, Touched(w, a).(accounts := Touched(w, a).accounts[a := c]))
  {
    TouchedUndo(w, a);
    WriteUndo(Touched(w, a), a, c);
    InTurn(w, Touched(w, a), Touched(w, a).(accounts := Touched(w, a).accounts[a := c]));
  }

  lemma CreditedUndo(w: World, a: Address, x: u64)
    requires a in w.saved
    ensures SameUndo(w, Credited(w, a, x)) && SameUndo(w, Debited(w, a, x))
  {
    var c := Get(w.accounts, a);
    WriteUndo(w, a, c.(balance := Wrap(c.balance + x)));
    WriteUndo(w, a, c.(balance := Wrap(c.balance - x)));
  }

  lemma PaidUndo(w: World, a: Address, x: u64)
    ensures SameUndo(w, Credited(Touched(w, a), a, x))
  {
    var c := Get(Touched(w, a).accounts, a);
    TouchAndWrite(w, a, c.(balance := Wrap(c.balance + x)));
  }

  lemma CalledUndo(cfg: Config, w: World, t: Tx, i: nat)
    requires t.from in w.saved
    ensures SameUndo(w, Called(cfg, w, t, i)) == true
  {
    PaidUndo(w, t.to, t.amount);
    var w1 := Credited(Touched(w, t.to), t.to, t.amount);
    if Get(w1.accounts, t.to).code != [] {
      var x := Exec(cfg.oracle, w1, CallOf(cfg, t, i));
      ContractFrameRule(cfg.oracle, w1, CallOf(cfg, t, i));
      WithinUndo(w1, x.world);
      InTurn(w, w1, x.world);
      if !x.ok {
        CreditedUndo(x.world, t.to, t.amount);
        var w2 := Debited(x.world, t.to, t.amount);
        InTurn(w, x.world, w2);
        CreditedUndo(w2, t.from, t.amount);
        InTurn(w, w2, Credited(w2, t.from, t.amount));
      }
    }
  }

  lemma FaucetUndo(cfg: Config, w: World, from: Address)
    requires from in w.saved
    ensures var w1 := w.(accounts := Acct(w.accounts, cfg.faucetSource));
            && SameUndo(w, w1)
            && SameUndo(w, Credited(Debited(Snap(w1, cfg.faucetSource), cfg.faucetSource, cfg.faucetAmount), from,
                                    cfg.faucetAmount))
  {
    EnteredUndo(w, cfg.faucetSource);
    var w2 := Entered(w, cfg.faucetSource);
    CreditedUndo(w2, cfg.faucetSource, cfg.faucetAmount);
    var w3 := Debited(w2, cfg.faucetSource, cfg.faucetAmount);
    InTurn(w, w2, w3);
    CreditedUndo(w3, from, cfg.faucetAmount);
    InTurn(w, w3, Credited(w3, from, cfg.faucetAmount));
  }

  lemma KindUndo(cfg: Config, k: Work, t: Tx, height: u64, i: nat)
    requires t.from in k.world.saved
    ensures SameUndo(k.world, ApplyKind(cfg, k, t, height, i).k.world) == true
  {
    if t.kind == DEPLOY {
      var a := cfg.contractAddress(t.from, t.nonce);
      var c := Get(Touched(k.world, a).accounts, a);
      TouchAndWrite(k.world, a, c.(code := t.data, balance := Wrap(c.balance + t.amount)));
    } else if t.kind == CALL {
      CalledUndo(cfg, k.world, t, i);
    } else if t.kind == FAUCET {
      FaucetUndo(cfg, k.world, t.from);
    } else if t.kind == SLASH {
      var a := cfg.evidence(t.data);
      if a.Some? && a.value in k.validators { PaidUndo(k.world, t.from, k.validators[a.value].bond / 10); }
    } else if t.kind == UNREGISTER {
      AcctUndo(k.world, t.from);
    } else if t.kind != REGISTER && t.kind != STORAGE_PROOF {
      PaidUndo(k.world, t.to, t.amount);
    }
  }

  lemma TxUndo(cfg: Config, k: Work, t: Tx, height: u64, i: nat)
    ensures SameUndo(k.world, ApplyTx(cfg, k, t, height, i).k.world)
  {
    EnteredUndo(k.world, t.from);
    var k1 := k.(world := Entered(k.world, t.from));
    KindUndo(cfg, Charged(k1, t), t, height, i);
  }

  lemma {:induction false} TxsUndo(cfg: Config, k: Work, txs: seq<Tx>, height: u64, i: nat)
    ensures SameUndo(k.world, ApplyTxs(cfg, k, txs, height, i).k.world)
    decreases txs
  {
    if txs != [] {
      TxUndo(cfg, k, txs[0], height, i);
      var r := ApplyTx(cfg, k, txs[0], height, i);
      if r.Going? { TxsUndo(cfg, r.k, txs[1..], height, i + 1); }
    }
  }

  /** Accounts as a reader sees them, validators, height, supply and logs. */
  ghost predicate SameLedger(s: State, s': State)
  {
    (forall a {:trigger Get(s'.accounts, a)} :: Get(s'.accounts, a) == Get(s.accounts, a))
    && s'.validators == s.validators && s'.height == s.height && s'.minted == s.minted && s'.lastLogs == s.lastLogs
  }

  /**
   Block atomicity: whatever the error, and however many transactions and contract calls came before
   it, a refused block leaves every account as it was, and the registry, height, supply and logs.
   */
  lemma {:induction false} RefusedBlockChangesNothing(cfg: Config, s: State, b: Block)
    requires ApplyBlock(cfg, s, b).Rejected?
    ensures SameLedger(s, ApplyBlock(cfg, s, b).s)
  {
    TxsUndo(cfg, Opened(s), Payload(b), b.height, 0);
    var k := ApplyTxs(cfg, Opened(s), Payload(b), b.height, 0).k;
    forall a ensures Get(Restored(k.world), a) == Get(s.accounts, a) {
      assert Undone(k.world, a) == Undone(Opened(s).world, a);
    }
  }

  /* ----- Faucet claims ----- */

  /** How many transactions are applied before the first that breaks. */
  function Progress(cfg: Config, k: Work, txs: seq<Tx>, height: u64, i: nat): (n: nat)
    ensures n <= |txs|
    decreases txs
  {
    if txs == [] then 0
    else
      var r := ApplyTx(cfg, k, txs[0], height, i);
      if r.Broken? then 0 else 1 + Progress(cfg, r.k, txs[1..], height, i + 1)
  }

  /** The claims once these transactions' faucet claims are recorded. */
  function Marked(claims: map<Address, u64>, txs: seq<Tx>, height: u64): (r: map<Address, u64>)
    decreases txs
  {
    if txs == [] then claims
    else Marked(if txs[0].kind == FAUCET then claims[txs[0].from := height] else claims, txs[1..], height)
  }

  lemma KindMarks(cfg: Config, k: Work, t: Tx, height: u64, i: nat)
    ensures var r := ApplyKind(cfg, k, t, height, i);
            r.k.claims == if r.Going? && t.kind == FAUCET then k.claims[t.from := height] else k.claims
  {
  }

  lemma TxMarks(cfg: Config, k: Work, t: Tx, height: u64, i: nat)
    ensures var r := ApplyTx(cfg, k, t, height, i);
            r.k.claims == if r.Going? && t.kind == FAUCET then k.claims[t.from := height] else k.claims
  {
    KindMarks(cfg, Charged(k.(world := Entered(k.world, t.from)), t), t, height, i);
  }

  lemma {:induction false} ClaimsAre(cfg: Config, k: Work, txs: seq<Tx>, height: u64, i: nat)
    ensures ApplyTxs(cfg, k, txs, height, i).k.claims
            == Marked(k.claims, txs[..Progress(cfg, k, txs, height, i)], height)
    decreases txs
  {
    if txs != [] {
      var r, n := ApplyTx(cfg, k, txs[0], height, i), Progress(cfg, k, txs, height, i);
      TxMarks(cfg, k, txs[0], height, i);
      if r.Going? {
        ClaimsAre(cfg, r.k, txs[1..], height, i + 1);
        assert txs[..n][1..] == txs[1..][..n - 1];
      }
    }
  }

  /** Every faucet claim among these was already recorded at this height. */
  ghost predicate NothingNew(claims: map<Address, u64>, txs: seq<Tx>, height: u64)
  {
    forall j :: 0 <= j < |txs| && txs[j].kind == FAUCET ==> txs[j].from in claims && claims[txs[j].from] == height
  }

  lemma {:induction false} MarkedAt(claims: map<Address, u64>, txs: seq<Tx>, height: u64, a: Address)
    ensures var m := Marked(claims, txs, height);
            && (a in claims && claims[a] == height ==> a in m && m[a] == height)
            && ((exists j :: 0 <= j < |txs| && txs[j].kind == FAUCET && txs[j].from == a) ==> a in m && m[a] == height)
    decreases txs
  {
    if txs != [] {
      var next := if txs[0].kind == FAUCET then claims[txs[0].from := height] else claims;
      MarkedAt(next, txs[1..], height, a);
      if j :| 0 <= j < |txs| && txs[j].kind == FAUCET && txs[j].from == a {
        if j > 0 { assert txs[1..][j - 1] == txs[j]; }
      }
    }
  }

  lemma {:induction false} MarkedSame(claims: map<Address, u64>, txs: seq<Tx>, height: u64)
    ensures Marked(claims, txs, height) == claims <==> NothingNew(claims, txs, height)
    decreases txs
  {
    if NothingNew(claims, txs, height) {
      if txs != [] {
        if txs[0].kind == FAUCET { assert claims[txs[0].from := height] == claims; }
        forall j | 0 <= j < |txs[1..]| && txs[1..][j].kind == FAUCET
          ensures txs[1..][j].from in claims && claims[txs[1..][j].from] == height
        {
          assert txs[1..][j] == txs[j + 1];
        }
        MarkedSame(claims, txs[1..], height);
      }
    } else {
      var j :| 0 <= j < |txs| && txs[j].kind == FAUCET && !(txs[j].from in claims && claims[txs[j].from] == height);
      MarkedAt(claims, txs, height, txs[j].from);
    }
  }

  /**
   What a refused block does leave behind: the faucet claims of the transactions before the one that
   broke. They are as before just when each of them was already recorded at this height, so in
   particular when the block has no faucet transaction.
   */
  lemma {:induction false} RefusedBlockLeaksClaims(cfg: Config, s: State, b: Block)
    requires ApplyBlock(cfg, s, b).Rejected?
    ensures var done := Payload(b)[..Progress(cfg, Opened(s), Payload(b), b.height, 0)];
            && ApplyBlock(cfg, s, b).s.claims == Marked(s.claims, done, b.height)
            && (ApplyBlock(cfg, s, b).s.claims == s.claims <==> NothingNew(s.claims, done, b.height))
  {
    ClaimsAre(cfg, Opened(s), Payload(b), b.height, 0);
    MarkedSame(s.claims, Payload(b)[..Progress(cfg, Opened(s), Payload(b), b.height, 0)], b.height);
  }

  /* ----- With a cooldown ----- */

  /** A claim recorded at this very height is too fresh for another. */
  lemma CooldownStops(cfg: Config, k: Work, t: Tx, height: u64, i: nat)
    requires t.kind == FAUCET && t.from in k.claims && k.claims[t.from] == height
    requires 0 < cfg.faucetCooldown && height + cfg.faucetCooldown < TWO64
    ensures ApplyTx(cfg, k, t, height, i).Broken?
  {
  }

  /** None of these is a faucet transaction. */
  ghost predicate NoClaim(txs: seq<Tx>)
  {
    forall j :: 0 <= j < |txs| ==> txs[j].kind != FAUCET
  }

  lemma NoClaimFirst(claims: map<Address, u64>, txs: seq<Tx>, height: u64)
    requires txs != []
    ensures NothingNew(claims, txs, height) ==> NothingNew(claims, txs[1..], height)
    ensures txs[0].kind != FAUCET && NoClaim(txs[1..]) ==> NoClaim(txs)
  {
    assert forall j :: 0 < j < |txs| ==> txs[j] == txs[1..][j - 1];
  }

  lemma {:induction false} NothingNewIsNoClaim(cfg: Config, k: Work, txs: seq<Tx>, height: u64, i: nat)
    requires 0 < cfg.faucetCooldown && height + cfg.faucetCooldown < TWO64
    requires NothingNew(k.claims, txs[..Progress(cfg, k, txs, height, i)], height)
    ensures NoClaim(txs[..Progress(cfg, k, txs, height, i)])
    decreases txs
  {
    if txs != [] {
      var r := ApplyTx(cfg, k, txs[0], height, i);
      if r.Going? {
        var done := txs[..Progress(cfg, k, txs, height, i)];
        assert done[0] == txs[0] && done[1..] == txs[1..][..|done| - 1];
        NoClaimFirst(k.claims, done, height);
        if txs[0].kind == FAUCET { CooldownStops(cfg, k, txs[0], height, i); }
        TxMarks(cfg, k, txs[0], height, i);
        NothingNewIsNoClaim(cfg, r.k, txs[1..], height, i + 1);
      }
    }
  }

  /**
   With a cooldown, a refused block leaves no claim behind just when no faucet transaction precedes the
   one that broke.
   */
  lemma {:induction false} RefusedBlockWithoutClaims(cfg: Config, s: State, b: Block)
    requires ApplyBlock(cfg, s, b).Rejected? && 0 < cfg.faucetCooldown && b.height + cfg.faucetCooldown < TWO64
    ensures ApplyBlock(cfg, s, b).s.claims == s.claims
            <==> NoClaim(Payload(b)[..Progress(cfg, Opened(s), Payload(b), b.height, 0)])
  {
    RefusedBlockLeaksClaims(cfg, s, b);
    var n := Progress(cfg, Opened(s), Payload(b), b.height, 0);
    if NothingNew(s.claims, Payload(b)[..n], b.height) {
      NothingNewIsNoClaim(cfg, Opened(s), Payload(b), b.height, 0);
    }
  }

  /* ----- A claim that outlives its block ----- */

  /** A first faucet claim followed by a misplaced coinbase: the block is refused, the claim is remembered. */
  lemma {:induction false} ClaimOutlivesBlock(cfg: Config, s: State, b: Block, t: Tx, t': Tx)
    requires b.txs == [t, t'] && t.kind == FAUCET && t.from != [] && t'.from == []
    requires ApplyTx(cfg, Opened(s), t, b.height, 0).Going? && t.from !in s.claims
    ensures ApplyBlock(cfg, s, b).Rejected? && ApplyBlock(cfg, s, b).err == CoinbaseInBody
    ensures t.from in ApplyBlock(cfg, s, b).s.claims
  {
    TxMarks(cfg, Opened(s), t, b.height, 0);
    SecondBreaks(cfg, Opened(s), t, t', b.height);
  }

  lemma {:induction false} SecondBreaks(cfg: Config, k: Work, t: Tx, t': Tx, height: u64)
    requires ApplyTx(cfg, k, t, height, 0).Going? && t'.from == []
    ensures ApplyTxs(cfg, k, [t, t'], height, 0) == Broken(ApplyTx(cfg, k, t, height, 0).k, CoinbaseInBody)
  {
    var k1 := ApplyTx(cfg, k, t, height, 0).k;
    assert [t, t'][1..] == [t'];
    assert ApplyTxs(cfg, k1, [t'], height, 1) == Broken(k1, CoinbaseInBody);
  }

  /** A faucet that pays 1 from address [9] every five blocks, on any chain and with any contracts. */
  function FaucetConfig(o: Oracle): (cfg: Config)
  {
    Config(0, o, (t: Tx) => true, (a: Address, n: u64) => a, (a: Address, n: u64) => true, (d: seq<byte>) => None,
           1, 5, 0, [9], Some((h: u64) => Some([])), (a: Address, d: seq<byte>, n: u64) => true,
           0, 0, 0, None, (h: u64, i: int, d: seq<byte>) => true)
  }

  function FaucetLedger(): (s: State)
  {
    State(map[[9] := NO_ACCOUNT.(balance := 1)], map[], 0, 1, map[], [])
  }

  function FaucetClaim(): (t: Tx)
  {
    Tx([1], [], 0, 0, 0, 0, FAUCET, 0, U64Bytes(0) + U64Bytes(0), [], [])
  }

  function Misplaced(): (t: Tx)
  {
    Tx([], [], 0, 0, 0, 0, TRANSFER, 0, [], [], [])
  }

  /** What it takes for a first claim to be paid. */
  ghost predicate Payable(cfg: Config, k: Work, t: Tx, height: u64)
  {
    t.kind == FAUCET && t.from != [] && t.from != cfg.faucetSource && t.from !in k.claims && t.amount == 0 && t.fee == 0
    && cfg.verify(t) && t.chainId == cfg.chainId && t.nonce == Get(k.world.accounts, t.from).nonce
    && 0 < cfg.faucetAmount <= Get(k.world.accounts, cfg.faucetSource).balance && cfg.anchor.Some? && |t.data| == 16
    && var at := BytesU64(t.data[..8]);
       Wrap(at + cfg.faucetDepth) <= height <= Wrap(at + 256) && cfg.anchor.value(at).Some?
       && cfg.faucetPow(t.from, cfg.anchor.value(at).value, BytesU64(t.data[8..16]))
  }

  lemma PayableIsPaid(cfg: Config, k: Work, t: Tx, height: u64, i: nat)
    requires Payable(cfg, k, t, height)
    ensures ApplyTx(cfg, k, t, height, i).Going?
  {
    var k1 := k.(world := Entered(k.world, t.from));
    var k2 := Charged(k1, t);
    assert Get(k1.world.accounts, t.from) == Get(k.world.accounts, t.from);
    assert Get(k2.world.accounts, cfg.faucetSource) == Get(k.world.accounts, cfg.faucetSource);
    assert FaucetPays(cfg, k2, t, height).Going?;
    assert Faucet(cfg, k2, t, height).Going?;
  }

  lemma ClaimIsPayable(o: Oracle, k: Work, t: Tx)
    requires k == Opened(FaucetLedger()) && t.(data := []) == FaucetClaim().(data := [])
    requires |t.data| == 16 && BytesU64(t.data[..8]) == 0
    ensures Payable(FaucetConfig(o), k, t, 1)
  {
  }

  /** Block 1 of this chain: it is refused, and its claim is on record. */
  lemma {:induction false} ClaimOutlives(o: Oracle)
    ensures var r := ApplyBlock(FaucetConfig(o), FaucetLedger(), Block(1, [], [FaucetClaim(), Misplaced()]));
            r.Rejected? && r.err == CoinbaseInBody && FaucetClaim().from in r.s.claims && FaucetLedger().claims == map[]
  {
    var t := FaucetClaim();
    assert t.data[..8] == U64Bytes(0);
    U64RoundTrip(0);
    ClaimIsPayable(o, Opened(FaucetLedger()), t);
    PayableIsPaid(FaucetConfig(o), Opened(FaucetLedger()), t, 1, 0);
    ClaimOutlivesBlock(FaucetConfig(o), FaucetLedger(), Block(1, [], [t, Misplaced()]), t, Misplaced());
  }
}
