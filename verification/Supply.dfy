/** Conservation of $SHARD: balances and bonds change by what is minted and burned, and by nothing else. */
module Supply {
  import opened Words
  import opened Txs
  import opened Economy
  import opened Contracts
  import opened Frames
  import opened Ledger
  import opened Registry
  import opened Atomic
  import VM

  /* ----- Sums over finite maps ----- */

  ghost function Sum(m: map<Address, nat>): (n: nat)
    decreases |m|
  {
    if m == map[] then 0
    else
      var a :| a in m;
      Smaller(m, a);
      m[a] + Sum(m - {a})
  }

  lemma Smaller(m: map<Address, nat>, a: Address)
    requires a in m
    ensures |m - {a}| < |m|
  {
    assert m == (m - {a})[a := m[a]];
    assert (m - {a}).Keys == m.Keys - {a};
    assert |m.Keys - {a}| < |m.Keys|;
    assert |m| == |m.Keys| && |m - {a}| == |(m - {a}).Keys|;
  }

  /** The order of summation does not matter. */
  lemma {:induction false} SumWithout(m: map<Address, nat>, a: Address)
    requires a in m
    ensures Sum(m) == m[a] + Sum(m - {a})
    decreases |m|
  {
    var b :| b in m && Sum(m) == m[b] + Sum(m - {b});
    if a != b {
      Smaller(m, b);
      SumWithout(m - {b}, a);
      Smaller(m, a);
      SumWithout(m - {a}, b);
      assert m - {a} - {b} == m - {b} - {a};
    }
  }

  function At(m: map<Address, nat>, a: Address): (n: nat)
  {
    if a in m then m[a] else 0
  }

  lemma SumUpdate(m: map<Address, nat>, a: Address, x: nat)
    ensures Sum(m[a := x]) == Sum(m) - At(m, a) + x
    ensures At(m, a) <= Sum(m)
  {
    SumWithout(m[a := x], a);
    if a in m {
      SumWithout(m, a);
      assert m[a := x] - {a} == m - {a};
    } else {
      assert m[a := x] - {a} == m;
    }
  }

  lemma {:induction false} SumZero(m: map<Address, nat>)
    requires forall a :: At(m, a) == 0
    ensures Sum(m) == 0
    decreases |m|
  {
    if a :| a in m {
      assert At(m, a) == 0;
      Smaller(m, a);
      SumWithout(m, a);
      forall x ensures At(m - {a}, x) == 0 { assert At(m, x) == 0; }
      SumZero(m - {a});
    }
  }

  /** Entries that are zero do not matter. */
  lemma {:induction false} SumSame(m: map<Address, nat>, m': map<Address, nat>)
    requires forall a :: At(m, a) == At(m', a)
    ensures Sum(m) == Sum(m')
    decreases |m|
  {
    if m == map[] {
      forall a ensures At(m', a) == 0 { assert At(m, a) == At(m', a); }
      SumZero(m');
    } else {
      var a :| a in m;
      Smaller(m, a);
      forall x ensures At(m - {a}, x) == At(m'[a := 0], x) { assert At(m, x) == At(m', x); }
      SumSame(m - {a}, m'[a := 0]);
      SumWithout(m, a);
      SumUpdate(m', a, 0);
      assert At(m, a) == At(m', a);
    }
  }

  /* ----- Balances and bonds ----- */

  ghost function Balances(accounts: map<Address, Account>): (m: map<Address, nat>)
  {
    map a | a in accounts :: accounts[a].balance
  }

  ghost function Bonds(validators: map<Address, Validator>): (m: map<Address, nat>)
  {
    map a | a in validators :: validators[a].bond
  }

  ghost function Held(accounts: map<Address, Account>): (n: nat) { Sum(Balances(accounts)) }

  ghost function Locked(validators: map<Address, Validator>): (n: nat) { Sum(Bonds(validators)) }

  lemma HeldUpdate(accounts: map<Address, Account>, a: Address, c: Account)
    ensures Held(accounts[a := c]) == Held(accounts) - Get(accounts, a).balance + c.balance
    ensures Get(accounts, a).balance <= Held(accounts)
  {
    assert Balances(accounts[a := c]) == Balances(accounts)[a := c.balance];
    SumUpdate(Balances(accounts), a, c.balance);
  }

  lemma LockedUpdate(validators: map<Address, Validator>, a: Address, v: Validator)
    ensures Locked(validators[a := v])
            == Locked(validators) - (if a in validators then validators[a].bond else 0) + v.bond
    ensures a in validators ==> validators[a].bond <= Locked(validators)
  {
    assert Bonds(validators[a := v]) == Bonds(validators)[a := v.bond];
    SumUpdate(Bonds(validators), a, v.bond);
  }

  lemma LockedRemove(validators: map<Address, Validator>, a: Address)
    requires a in validators
    ensures Locked(validators - {a}) == Locked(validators) - validators[a].bond
  {
    assert Bonds(validators - {a}) == Bonds(validators) - {a};
    SumWithout(Bonds(validators), a);
  }

  lemma HeldSame(x: map<Address, Account>, y: map<Address, Account>)
    requires forall a :: Get(x, a).balance == Get(y, a).balance
    ensures Held(x) == Held(y)
  {
    forall a ensures At(Balances(x), a) == At(Balances(y), a) { assert Get(x, a).balance == Get(y, a).balance; }
    SumSame(Balances(x), Balances(y));
  }

  lemma TouchedHeld(w: World, a: Address)
    ensures Held(Touched(w, a).accounts) == Held(w.accounts) && Held(Entered(w, a).accounts) == Held(w.accounts)
  {
    HeldSame(Touched(w, a).accounts, w.accounts);
    HeldSame(Entered(w, a).accounts, w.accounts);
  }

  lemma CreditedHeld(w: World, a: Address, x: u64)
    requires Held(w.accounts) + x < TWO64
    ensures Held(Credited(w, a, x).accounts) == Held(w.accounts) + x
    ensures Get(Credited(w, a, x).accounts, a).balance == Get(w.accounts, a).balance + x
  {
    var c := Get(w.accounts, a);
    HeldUpdate(w.accounts, a, c.(balance := Wrap(c.balance + x)));
  }

  lemma DebitedHeld(w: World, a: Address, x: u64)
    requires x <= Get(w.accounts, a).balance
    ensures Held(Debited(w, a, x).accounts) == Held(w.accounts) - x
  {
    var c := Get(w.accounts, a);
    HeldUpdate(w.accounts, a, c.(balance := Wrap(c.balance - x)));
  }

  lemma WithinHeld(w: World, w': World)
    requires Within(w, w')
    ensures Held(w'.accounts) == Held(w.accounts)
            && forall a :: Get(w'.accounts, a).balance == Get(w.accounts, a).balance
  {
    forall a ensures Get(w'.accounts, a).balance == Get(w.accounts, a).balance { assert Keeps(w, w', a); }
    HeldSame(w'.accounts, w.accounts);
  }

  /* ----- Transactions ----- */

  /** Everything in circulation while a block is applied: balances, bonds, and fees in flight. */
  ghost function Wealth(k: Work): (n: nat)
  {
    Held(k.world.accounts) + Locked(k.validators) + k.fees
  }

  /** What a transaction destroys: value attached where nobody receives it, and nine tenths of a slashed bond. */
  function Burned(cfg: Config, k: Work, t: Tx): (n: nat)
  {
    if t.kind == FAUCET || t.kind == STORAGE_PROOF then t.amount
    else if t.kind == SLASH then
      match cfg.evidence(t.data)
      case None => t.amount
      case Some(a) => if a in k.validators then t.amount + (k.validators[a].bond - k.validators[a].bond / 10)
                      else t.amount
    else 0
  }

  lemma PaidHeld(w: World, a: Address, x: u64)
    requires Held(w.accounts) + x < TWO64
    ensures Held(Credited(Touched(w, a), a, x).accounts) == Held(w.accounts) + x
    ensures Get(Credited(Touched(w, a), a, x).accounts, a).balance == Get(w.accounts, a).balance + x
  {
    TouchedHeld(w, a);
    CreditedHeld(Touched(w, a), a, x);
  }

  lemma CalledHeld(cfg: Config, w: World, t: Tx, i: nat)
    requires Held(w.accounts) + t.amount < TWO64
    ensures Held(Called(cfg, w, t, i).accounts) == Held(w.accounts) + t.amount
  {
    PaidHeld(w, t.to, t.amount);
    var w1 := Credited(Touched(w, t.to), t.to, t.amount);
    if Get(w1.accounts, t.to).code != [] {
      var x := Exec(cfg.oracle, w1, CallOf(cfg, t, i));
      ContractFrameRule(cfg.oracle, w1, CallOf(cfg, t, i));
      WithinHeld(w1, x.world);
      if !x.ok {
        DebitedHeld(x.world, t.to, t.amount);
        CreditedHeld(Debited(x.world, t.to, t.amount), t.from, t.amount);
      }
    }
  }

  lemma DeployedHeld(cfg: Config, w: World, t: Tx)
    requires Held(w.accounts) + t.amount < TWO64
    ensures Held(Deployed(cfg, w, t).accounts) == Held(w.accounts) + t.amount
  {
    var a := cfg.contractAddress(t.from, t.nonce);
    TouchedHeld(w, a);
    var c := Get(Touched(w, a).accounts, a);
    HeldUpdate(Touched(w, a).accounts, a, c.(code := t.data, balance := Wrap(c.balance + t.amount)));
  }

  /** The effect of a transaction's kind, its value already debited. */
  ghost predicate Balanced(cfg: Config, k: Work, t: Tx, r: Applied)
  {
    r.Going? ==> Wealth(r.k) + Burned(cfg, k, t) == Wealth(k) + t.amount
  }

  lemma SlashBalances(cfg: Config, k: Work, t: Tx)
    requires t.kind == SLASH && Wealth(k) + t.amount <= MAX_SUPPLY
    ensures Balanced(cfg, k, t, Slash(cfg, k, t)) == true
  {
    var a := cfg.evidence(t.data);
    if a.Some? && a.value in k.validators {
      var v := k.validators[a.value];
      LockedUpdate(k.validators, a.value, Validator(0, false, v.since, true, 0, 0));
      PaidHeld(k.world, t.from, v.bond / 10);
    }
  }

  lemma UnregisterHeld(w: World, a: Address, bond: u64, amount: u64)
    requires Held(w.accounts) + bond + amount <= MAX_SUPPLY
    ensures Held(Credited(w.(accounts := Acct(w.accounts, a)), a,
                          Wrap(bond + amount)).accounts) == Held(w.accounts) + bond + amount
  {
    HeldSame(Acct(w.accounts, a), w.accounts);
    CreditedHeld(w.(accounts := Acct(w.accounts, a)), a, bond + amount);
  }

  lemma UnregisterBalances(cfg: Config, k: Work, t: Tx)
    requires t.kind == UNREGISTER && Wealth(k) + t.amount <= MAX_SUPPLY
    ensures Balanced(cfg, k, t, Unregister(k, t)) == true
  {
    if t.from in k.validators {
      var v := k.validators[t.from];
      LockedUpdate(k.validators, t.from, v);
      LockedRemove(k.validators, t.from);
      UnregisterHeld(k.world, t.from, v.bond, t.amount);
    }
  }

  lemma FaucetBalances(cfg: Config, k: Work, t: Tx, height: u64)
    requires t.kind == FAUCET && Wealth(k) + t.amount <= MAX_SUPPLY
    ensures Balanced(cfg, k, t, FaucetPays(cfg, k, t, height)) == true
  {
    var w := k.world.(accounts := Acct(k.world.accounts, cfg.faucetSource));
    HeldSame(w.accounts, k.world.accounts);
    var w1 := Snap(w, cfg.faucetSource);
    if Get(w.accounts, cfg.faucetSource).balance >= cfg.faucetAmount {
      DebitedHeld(w1, cfg.faucetSource, cfg.faucetAmount);
      CreditedHeld(Debited(w1, cfg.faucetSource, cfg.faucetAmount), t.from, cfg.faucetAmount);
    }
  }

  lemma RegisterBalances(cfg: Config, k: Work, t: Tx, height: u64)
    requires t.kind == REGISTER && Sound(cfg, k.validators)
    ensures Balanced(cfg, k, t, Register(cfg, k, t, height)) == true
  {
    if t.from in k.validators { assert Sane(cfg, k.validators[t.from]); }
    LockedUpdate(k.validators, t.from, Validator(t.amount, true, height, false, 0, 0));
  }

  lemma ProofBalances(cfg: Config, k: Work, t: Tx, height: u64)
    requires t.kind == STORAGE_PROOF
    ensures Balanced(cfg, k, t, ProveStorage(cfg, k, t, height)) == true
  {
    if t.from in k.validators {
      var v := k.validators[t.from];
      LockedUpdate(k.validators, t.from, v.(score := if v.score < cfg.storageCap then v.score + 1
                                                     else v.score, lastProof := height));
    }
  }

  lemma TransferBalances(cfg: Config, k: Work, t: Tx, w: World)
    requires t.kind != FAUCET && t.kind != STORAGE_PROOF && t.kind != SLASH
             && Held(w.accounts) == Held(k.world.accounts) + t.amount
    ensures Balanced(cfg, k, t, Going(k.(world := w))) == true
  {
  }

  lemma KindBalances(cfg: Config, k: Work, t: Tx, height: u64, i: nat)
    requires Sound(cfg, k.validators) && Wealth(k) + t.amount <= MAX_SUPPLY
    ensures Balanced(cfg, k, t, ApplyKind(cfg, k, t, height, i)) == true
  {
    if t.kind == DEPLOY {
      DeployedHeld(cfg, k.world, t);
      TransferBalances(cfg, k, t, Deployed(cfg, k.world, t));
    } else if t.kind == CALL {
      CalledHeld(cfg, k.world, t, i);
      TransferBalances(cfg, k, t, Called(cfg, k.world, t, i));
    } else if t.kind == REGISTER {
      RegisterBalances(cfg, k, t, height);
    } else if t.kind == SLASH {
      SlashBalances(cfg, k, t);
    } else if t.kind == UNREGISTER {
      UnregisterBalances(cfg, k, t);
    } else if t.kind == FAUCET {
      FaucetBalances(cfg, k, t, height);
    } else if t.kind == STORAGE_PROOF {
      ProofBalances(cfg, k, t, height);
    } else {
      PaidHeld(k.world, t.to, t.amount);
    }
  }

  lemma ChargedHeld(k: Work, t: Tx)
    requires t.amount + t.fee <= Get(k.world.accounts, t.from).balance && Wealth(k) <= MAX_SUPPLY
    ensures Wealth(Charged(k, t)) + t.amount == Wealth(k)
  {
    var from := Get(k.world.accounts, t.from);
    HeldUpdate(k.world.accounts, t.from, from.(balance := from.balance - (t.amount + t.fee),
                                               nonce := Wrap(from.nonce + 1)));
  }

  ghost predicate Conserves(cfg: Config, k: Work, t: Tx, r: Applied)
  {
    r.Going? ==> Wealth(r.k) + Burned(cfg, k, t) == Wealth(k)
  }

  /** `charged` is `k` with the transaction's value and fee taken. */
  lemma ConservesFrom(cfg: Config, k: Work, charged: Work, t: Tx, r: Applied)
    requires charged.validators == k.validators && Wealth(charged) + t.amount == Wealth(k)
             && Balanced(cfg, charged, t, r) == true
    ensures Conserves(cfg, k, t, r) == true
  {
  }

  /** A transaction that is applied takes out of circulation what it burns, exactly; nothing wraps. */
  lemma TxBalances(cfg: Config, k: Work, t: Tx, height: u64, i: nat)
    requires Sound(cfg, k.validators) && Wealth(k) <= MAX_SUPPLY
    ensures Conserves(cfg, k, t, ApplyTx(cfg, k, t, height, i)) == true
  {
    var r := ApplyTx(cfg, k, t, height, i);
    if r.Going? {
      var k1 := k.(world := Entered(k.world, t.from));
      GoingMeans(cfg, k, t, height, i);
      TouchedHeld(k.world, t.from);
      ChargedHeld(k1, t);
      KindBalances(cfg, Charged(k1, t), t, height, i);
      ConservesFrom(cfg, k, Charged(k1, t), t, r);
    }
  }

  lemma GoingMeans(cfg: Config, k: Work, t: Tx, height: u64, i: nat)
    requires ApplyTx(cfg, k, t, height, i).Going?
    ensures var k1 := k.(world := Entered(k.world, t.from));
            && t.amount + t.fee <= Get(k1.world.accounts, t.from).balance
            && ApplyTx(cfg, k, t, height, i) == ApplyKind(cfg, Charged(k1, t), t, height, i)
  {
    NoWrap(t.amount, t.fee);
  }

  lemma NoWrap(a: u64, b: u64)
    ensures Wrap(a + b) >= a <==> a + b < TWO64
    ensures Wrap(a + b) >= a ==> Wrap(a + b) == a + b
  {
  }

  ghost function BurnedByAll(cfg: Config, k: Work, txs: seq<Tx>, height: u64, i: nat): (n: nat)
    decreases txs
  {
    if txs == [] then 0
    else
      var r := ApplyTx(cfg, k, txs[0], height, i);
      Burned(cfg, k, txs[0]) + (if r.Going? then BurnedByAll(cfg, r.k, txs[1..], height, i + 1) else 0)
  }

  lemma {:induction false} TxsBalance(cfg: Config, k: Work, txs: seq<Tx>, height: u64, i: nat)
    requires Sound(cfg, k.validators) && Wealth(k) <= MAX_SUPPLY
    ensures var r := ApplyTxs(cfg, k, txs, height, i); r.Going? ==>
                                                         Wealth(r.k) + BurnedByAll(cfg, k, txs, height, i) == Wealth(k)
    decreases txs
  {
    if txs != [] {
      TxBalances(cfg, k, txs[0], height, i);
      TxPreserves(cfg, k, txs[0], height, i);
      var r := ApplyTx(cfg, k, txs[0], height, i);
      if r.Going? { TxsBalance(cfg, r.k, txs[1..], height, i + 1); }
    }
  }

  /* ----- Blocks ----- */

  ghost function Circulating(s: State): (n: nat)
  {
    Held(s.accounts) + Locked(s.validators)
  }

  /** No more in circulation than was minted, and no more minted than the cap. */
  ghost predicate Supplied(s: State)
  {
    Circulating(s) <= s.minted <= MAX_SUPPLY
  }

  /** What an accepted block mints, burns in its transactions, and loses in fees that nobody collects. */
  ghost function Subsidy(s: State, b: Block): (n: nat)
  {
    if CoinbaseOf(b).Some? then BlockReward(b.height, s.minted) else 0
  }

  ghost function BlockBurns(cfg: Config, s: State, b: Block): (n: nat)
  {
    BurnedByAll(cfg, Opened(s), Payload(b), b.height, 0)
  }

  ghost function FeesLost(cfg: Config, s: State, b: Block): (n: nat)
  {
    if CoinbaseOf(b).None? && b.validator == [] then ApplyTxs(cfg, Opened(s), Payload(b), b.height, 0).k.fees else 0
  }

  lemma SettledBalances(s: State, k: Work, b: Block)
    requires Wealth(k) <= s.minted <= MAX_SUPPLY && Settled(s, k, b).Going?
    ensures var r := Settled(s, k, b).k;
            && Held(r.world.accounts) + Locked(r.validators)
               + (if CoinbaseOf(b).None? && b.validator == [] then k.fees else 0)
               == Wealth(k) + Subsidy(s, b)
            && MintedAfter(s, b) == s.minted + Subsidy(s, b)
  {
    var c := CoinbaseOf(b);
    if c.Some? {
      PaidHeld(k.world, c.value.to, c.value.amount);
    } else {
      PaidHeld(k.world, b.validator, k.fees);
    }
  }

  /** An accepted block changes what is in circulation by its subsidy, less what it burns and loses. */
  lemma {:induction false} BlockConservesSupply(cfg: Config, s: State, b: Block)
    requires Sound(cfg, s.validators) && Supplied(s)
    ensures var r := ApplyBlock(cfg, s, b);
            && Supplied(r.s)
            && (r.Accepted? ==>
                  Circulating(r.s) + BlockBurns(cfg, s, b) + FeesLost(cfg, s, b) == Circulating(s) + Subsidy(s, b)
                                && r.s.minted == s.minted + Subsidy(s, b))
            && (r.Rejected? ==> Circulating(r.s) == Circulating(s) && r.s.minted == s.minted)
  {
    var k0 := Opened(s);
    TxsBalance(cfg, k0, Payload(b), b.height, 0);
    var r := ApplyTxs(cfg, k0, Payload(b), b.height, 0);
    if ApplyBlock(cfg, s, b).Rejected? {
      RefusedBlockChangesNothing(cfg, s, b);
      HeldSame(ApplyBlock(cfg, s, b).s.accounts, s.accounts);
    } else {
      SettledBalances(s, r.k, b);
    }
  }

  /** In every state a run reaches, circulation is at most what was minted, which is at most the cap. */
  lemma {:induction false} SupplyOverRuns(cfg: Config, s: State, blocks: seq<Block>)
    requires Sound(cfg, s.validators) && Supplied(s)
    ensures Supplied(Through(cfg, s, blocks)) && s.minted <= Through(cfg, s, blocks).minted
    decreases blocks
  {
    if blocks != [] {
      BlockConservesSupply(cfg, s, blocks[0]);
      BlockPreserves(cfg, s, blocks[0]);
      SupplyOverRuns(cfg, ApplyBlock(cfg, s, blocks[0]).s, blocks[1..]);
    }
  }

  /* ----- Genesis ----- */

  /** The ledger of a funding table and a first validator. */
  ghost function Genesis(funding: map<Address, u64>, validator: Address): (s: State)
  {
    State(map a | a in funding :: NO_ACCOUNT.(balance := funding[a]),
          map[validator := Validator(0, true, 0, false, 0, 0)],
          0, Wrap(Sum(funding)), map[], [])
  }

  lemma GenesisIsSupplied(cfg: Config, funding: map<Address, u64>, validator: Address)
    requires Sum(funding) <= MAX_SUPPLY
    ensures var s := Genesis(funding, validator); Supplied(s) && Circulating(s) == s.minted && Sound(cfg, s.validators)
  {
    var s := Genesis(funding, validator);
    assert Balances(s.accounts) == funding;
    assert Bonds(s.validators) == map[validator := 0];
    SumWithout(map[validator := 0], validator);
    assert map[validator := 0] - {validator} == map[];
  }
}
