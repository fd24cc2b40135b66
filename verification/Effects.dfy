/** Who pays and who is paid: the exact change of every account by every kind of transaction. */
module Effects {
  import opened Words
  import opened Txs
  import opened Economy
  import opened Contracts
  import opened Frames
  import opened Ledger
  import opened Supply

  function Only(here: bool, x: int): (r: int)
  {
    if here then x else 0
  }

  /** Whether the called contract ran and failed. */
  ghost predicate Reverts(cfg: Config, w: World, t: Tx, i: nat)
  {
    var w1 := Credited(Touched(w, t.to), t.to, t.amount);
    Get(w1.accounts, t.to).code != [] && !Exec(cfg.oracle, w1, CallOf(cfg, t, i)).ok
  }

  /** What address `a` receives from the effect of a transaction's kind, its value already debited. */
  ghost function Gain(cfg: Config, k: Work, t: Tx, i: nat, a: Address): (g: int)
  {
    if t.kind == DEPLOY then Only(a == cfg.contractAddress(t.from, t.nonce), t.amount)
    else if t.kind == CALL then Only(a == (if Reverts(cfg, k.world, t, i) then t.from else t.to), t.amount)
    else if t.kind == REGISTER || t.kind == STORAGE_PROOF then 0
    else if t.kind == SLASH then
      match cfg.evidence(t.data)
      case None => 0
      case Some(v) => Only(a == t.from && v in k.validators, if v in k.validators then k.validators[v].bond / 10 else 0)
    else if t.kind == UNREGISTER then Only(a == t.from && t.from in k.validators,
                                           t.amount + (if t.from in k.validators then k.validators[t.from].bond else 0))
    else if t.kind == FAUCET then Only(a == t.from, cfg.faucetAmount) - Only(a == cfg.faucetSource, cfg.faucetAmount)
    else Only(a == t.to, t.amount)
  }

  /** From `w` to `w'`, `a` gains `g`; nonces and code are as before. */
  ghost predicate Gains(w: World, w': World, a: Address, g: int)
  {
    var c, c' := Get(w.accounts, a), Get(w'.accounts, a);
    c'.balance == c.balance + g && c'.nonce == c.nonce && c'.code == c.code
  }

  lemma CreditGains(w: World, to: Address, x: u64, a: Address)
    requires Held(w.accounts) + x < TWO64
    ensures Gains(w, Credited(w, to, x), a, Only(a == to, x))
  {
    HeldUpdate(w.accounts, to, Get(w.accounts, to));
  }

  lemma PaidGains(w: World, to: Address, x: u64, a: Address)
    requires Held(w.accounts) + x < TWO64
    ensures Gains(w, Credited(Touched(w, to), to, x), a, Only(a == to, x))
  {
    TouchedHeld(w, to);
    CreditGains(Touched(w, to), to, x, a);
  }

  lemma CalledGains(cfg: Config, w: World, t: Tx, i: nat, a: Address)
    requires Held(w.accounts) + t.amount < TWO64
    ensures Gains(w, Called(cfg, w, t, i), a, Only(a == (if Reverts(cfg, w, t, i) then t.from else t.to), t.amount))
  {
    PaidGains(w, t.to, t.amount, a);
    PaidGains(w, t.to, t.amount, t.to);
    PaidHeld(w, t.to, t.amount);
    var w1 := Credited(Touched(w, t.to), t.to, t.amount);
    if Get(w1.accounts, t.to).code != [] {
      var x := Exec(cfg.oracle, w1, CallOf(cfg, t, i));
      ContractFrameRule(cfg.oracle, w1, CallOf(cfg, t, i));
      if !x.ok { RefundGains(w1, x.world, t, a); } else { assert Keeps(w1, x.world, a); }
    }
  }

  /** The refund after a call that failed: the callee is as before it was paid, and the sender has the value back. */
  lemma RefundGains(w1: World, w2: World, t: Tx, a: Address)
    requires Within(w1, w2) && Held(w1.accounts) < TWO64 && t.amount <= Get(w1.accounts, t.to).balance
    ensures Gains(w1, Credited(Debited(w2, t.to, t.amount), t.from, t.amount), a,
                  Only(a == t.from, t.amount) - Only(a == t.to, t.amount))
  {
    assert Keeps(w1, w2, a) && Keeps(w1, w2, t.to);
    WithinHeld(w1, w2);
    DebitedHeld(w2, t.to, t.amount);
    CreditGains(Debited(w2, t.to, t.amount), t.from, t.amount, a);
  }

  lemma FaucetGains(cfg: Config, k: Work, t: Tx, height: u64, a: Address)
    requires t.kind == FAUCET && Wealth(k) <= MAX_SUPPLY && FaucetPays(cfg, k, t, height).Going?
    ensures Gains(k.world, FaucetPays(cfg, k, t, height).k.world, a,
                  Only(a == t.from, cfg.faucetAmount) - Only(a == cfg.faucetSource, cfg.faucetAmount))
  {
    var w := k.world.(accounts := Acct(k.world.accounts, cfg.faucetSource));
    HeldSame(w.accounts, k.world.accounts);
    var w1 := Snap(w, cfg.faucetSource);
    DebitedHeld(w1, cfg.faucetSource, cfg.faucetAmount);
    CreditGains(Debited(w1, cfg.faucetSource, cfg.faucetAmount), t.from, cfg.faucetAmount, a);
  }

  ghost predicate KindGains(cfg: Config, k: Work, t: Tx, i: nat, r: Applied, a: Address)
  {
    r.Going? ==> var c, c' := Get(k.world.accounts, a), Get(r.k.world.accounts, a);
                 && c'.balance == c.balance + Gain(cfg, k, t, i, a) && c'.nonce == c.nonce
                 && c'.code == (if t.kind == DEPLOY && a == cfg.contractAddress(t.from, t.nonce) then t.data
                                else c.code)
  }

  lemma DeployGains(cfg: Config, k: Work, t: Tx, i: nat, a: Address)
    requires t.kind == DEPLOY && Held(k.world.accounts) + t.amount < TWO64
    ensures KindGains(cfg, k, t, i, Going(k.(world := Deployed(cfg, k.world, t))), a) == true
  {
    var at := cfg.contractAddress(t.from, t.nonce);
    TouchedHeld(k.world, at);
    HeldUpdate(k.world.accounts, at, Get(k.world.accounts, at));
  }

  lemma SlashGains(cfg: Config, k: Work, t: Tx, i: nat, a: Address)
    requires t.kind == SLASH && Wealth(k) <= MAX_SUPPLY
    ensures KindGains(cfg, k, t, i, Slash(cfg, k, t), a) == true
  {
    var v := cfg.evidence(t.data);
    if v.Some? && v.value in k.validators {
      LockedUpdate(k.validators, v.value, k.validators[v.value]);
      PaidGains(k.world, t.from, k.validators[v.value].bond / 10, a);
    }
  }

  lemma UnregisterGains(cfg: Config, k: Work, t: Tx, i: nat, a: Address)
    requires t.kind == UNREGISTER && Wealth(k) + t.amount <= MAX_SUPPLY
    ensures KindGains(cfg, k, t, i, Unregister(k, t), a) == true
  {
    if t.from in k.validators {
      LockedUpdate(k.validators, t.from, k.validators[t.from]);
      var w := k.world.(accounts := Acct(k.world.accounts, t.from));
      HeldSame(w.accounts, k.world.accounts);
      CreditGains(w, t.from, k.validators[t.from].bond + t.amount, a);
    }
  }

  lemma KindHasEffect(cfg: Config, k: Work, t: Tx, height: u64, i: nat, a: Address)
    requires Wealth(k) + t.amount <= MAX_SUPPLY
    ensures KindGains(cfg, k, t, i, ApplyKind(cfg, k, t, height, i), a) == true
  {
    if t.kind == DEPLOY {
      DeployGains(cfg, k, t, i, a);
    } else if t.kind == CALL {
      CalledGains(cfg, k.world, t, i, a);
    } else if t.kind == SLASH {
      SlashGains(cfg, k, t, i, a);
    } else if t.kind == UNREGISTER {
      UnregisterGains(cfg, k, t, i, a);
    } else if t.kind == FAUCET {
      if FaucetPays(cfg, k, t, height).Going? { FaucetGains(cfg, k, t, height, a); }
    } else if t.kind != REGISTER && t.kind != STORAGE_PROOF {
      PaidGains(k.world, t.to, t.amount, a);
    }
  }

  /** `a` before and after an applied transaction; `charged` is the state once the sender has paid. */
  ghost predicate TxGains(cfg: Config, k: Work, charged: Work, t: Tx, i: nat, r: Applied, a: Address)
  {
    r.Going? ==> var c, c' := Get(k.world.accounts, a), Get(r.k.world.accounts, a);
                 && c'.balance == c.balance - Only(a == t.from, t.amount + t.fee) + Gain(cfg, charged, t, i, a)
                 && c'.nonce == (if a == t.from then Wrap(c.nonce + 1) else c.nonce)
                 && c'.code == (if t.kind == DEPLOY && a == cfg.contractAddress(t.from, t.nonce) then t.data
                                else c.code)
                 && r.k.fees == k.fees + t.fee
  }

  ghost predicate Paid(k: Work, charged: Work, t: Tx, a: Address)
  {
    var c, c' := Get(k.world.accounts, a), Get(charged.world.accounts, a);
    c'.balance == c.balance - Only(a == t.from, t.amount + t.fee)
    && c'.nonce == (if a == t.from then Wrap(c.nonce + 1) else c.nonce)
    && c'.code == c.code && charged.fees == k.fees + t.fee
  }

  lemma SenderPays(k: Work, t: Tx, a: Address)
    requires Wealth(k) <= MAX_SUPPLY && t.amount + t.fee <= Get(k.world.accounts, t.from).balance
    ensures Paid(k, Charged(k.(world := Entered(k.world, t.from)), t), t, a) == true
  {
    HeldUpdate(k.world.accounts, t.from, Get(k.world.accounts, t.from));
  }

  lemma EffectFrom(cfg: Config, k: Work, charged: Work, t: Tx, i: nat, r: Applied, a: Address)
    requires Paid(k, charged, t, a) == true && KindGains(cfg, charged, t, i, r, a) == true && r.k.fees == charged.fees
    ensures TxGains(cfg, k, charged, t, i, r, a) == true
  {
  }

  /**
   The effect of an applied transaction on any account: the sender pays value and fee and its nonce
   goes up by one; the recipient of the kind, and nobody else, gains; code changes only by deployment.
   */
  lemma TxHasEffect(cfg: Config, k: Work, t: Tx, height: u64, i: nat, a: Address)
    requires Wealth(k) <= MAX_SUPPLY
    ensures TxGains(cfg, k, Charged(k.(world := Entered(k.world, t.from)), t), t, i, ApplyTx(cfg, k, t, height, i),
                    a) == true
  {
    var r := ApplyTx(cfg, k, t, height, i);
    if r.Going? {
      var k1 := k.(world := Entered(k.world, t.from));
      GoingMeans(cfg, k, t, height, i);
      TouchedHeld(k.world, t.from);
      ChargedHeld(k1, t);
      SenderPays(k, t, a);
      KindHasEffect(cfg, Charged(k1, t), t, height, i, a);
      FeesStay(cfg, Charged(k1, t), t, height, i);
      EffectFrom(cfg, k, Charged(k1, t), t, i, r, a);
    }
  }

  lemma FeesStay(cfg: Config, k: Work, t: Tx, height: u64, i: nat)
    ensures ApplyKind(cfg, k, t, height, i).k.fees == k.fees
  {
  }

  /** A coinbase that matches the schedule pays the block's validator the subsidy and all fees. */
  lemma CoinbasePays(s: State, k: Work, b: Block, a: Address)
    requires Wealth(k) <= s.minted <= MAX_SUPPLY && Settled(s, k, b).Going?
    ensures Gains(k.world, Settled(s, k, b).k.world, a,
                  Only(a == b.validator && (CoinbaseOf(b).Some? || a != []),
                       k.fees + (if CoinbaseOf(b).Some? then BlockReward(b.height, s.minted) else 0)))
  {
    var c := CoinbaseOf(b);
    if c.Some? {
      PaidGains(k.world, c.value.to, c.value.amount, a);
    } else {
      PaidGains(k.world, b.validator, k.fees, a);
    }
  }
}
