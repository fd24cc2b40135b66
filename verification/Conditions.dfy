/**
 When a transaction is applied, kind by kind, and what it then changes: from any ledger, any registry and any
 claims, in terms of the transaction's fields and the protocol's parameters alone.
 */
module Conditions {
  import opened Words
  import opened Txs
  import opened Contracts
  import opened Ledger

  const WORD: int := 0x1_0000_0000_0000_0000

  /* ----- Charging the sender ----- */

  /** The sender can be charged: a signed transaction of this chain, next in turn, that the balance covers. */
  ghost predicate Chargeable(cfg: Config, k: Work, t: Tx)
  {
    var c := Get(k.world.accounts, t.from);
    && t.from != [] && cfg.verify(t) && t.chainId == cfg.chainId
    && t.nonce == c.nonce && t.amount + t.fee <= c.balance
  }

  /** The account of address `a` once the transaction is charged. */
  function Charge(k: Work, t: Tx, a: Address): (r: Account)
  {
    var c := Get(k.world.accounts, a);
    if a != t.from then c
    else c.(balance := (c.balance - t.amount - t.fee) % WORD, nonce := (c.nonce + 1) % WORD)
  }

  function With(c: Account, more: int): (r: Account)
  {
    c.(balance := (c.balance + more) % WORD)
  }

  /** The sender is charged, and no account is changed otherwise. */
  ghost predicate OnlyCharges(k: Work, k': Work, t: Tx)
  {
    (forall a :: Get(k'.world.accounts, a) == Charge(k, t, a)) && Tallies(k, k', t)
  }

  /** The sender is charged, `to` is paid, and no account is changed otherwise. */
  ghost predicate ChargesAndPays(k: Work, k': Work, t: Tx, to: Address, amount: int)
  {
    && (forall a :: Get(k'.world.accounts, a) == if a == to then With(Charge(k, t, a), amount) else Charge(k, t, a))
    && Tallies(k, k', t)
  }

  /** The fee is collected, and no event is emitted. */
  ghost predicate Tallies(k: Work, k': Work, t: Tx)
  {
    k'.fees == (k.fees + t.fee) % WORD && k'.world.logs == k.world.logs
  }

  /** Why a transaction cannot be charged: the first check that fails. */
  lemma Uncharged(cfg: Config, k: Work, t: Tx, height: u64, i: nat)
    requires !Chargeable(cfg, k, t)
    ensures var r, c := ApplyTx(cfg, k, t, height, i), Get(k.world.accounts, t.from);
            r.Broken? && r.err == (if t.from == [] then CoinbaseInBody
                                   else if !cfg.verify(t) then BadSignature
                                   else if t.chainId != cfg.chainId then BadChainId
                                   else if t.nonce != c.nonce then BadNonce
                                   else Insufficient)
  {
  }

  /** The check of one transaction against the ledger as it stands, with nothing applied. */
  function CheckTx(cfg: Config, s: State, t: Tx): (e: Option<LedgerError>)
  {
    var c, total := Get(s.accounts, t.from), Wrap(t.amount + t.fee);
    if !cfg.verify(t) then Some(BadSignature)
    else if t.IsCoinbase() then Some(CoinbaseInBody)
    else if t.chainId != cfg.chainId then Some(BadChainId)
    else if t.nonce != c.nonce then Some(BadNonce)
    else if total < t.amount || c.balance < total then Some(Insufficient)
    else None
  }

  /** It lets through exactly what a block executed now could charge. */
  lemma CheckedIsChargeable(cfg: Config, s: State, t: Tx)
    ensures CheckTx(cfg, s, t).None? <==> Chargeable(cfg, Opened(s), t)
  {
  }

  function Payer(k: Work, t: Tx): (k1: Work)
  {
    Charged(k.(world := Entered(k.world, t.from)), t)
  }

  lemma ChargeFits(balance: u64, amount: u64, fee: u64)
    requires amount + fee <= balance
    ensures Wrap(balance - Wrap(amount + fee)) == (balance - amount - fee) % WORD
  {
  }

  lemma PayerIsCharged(cfg: Config, k: Work, t: Tx, k1: Work)
    requires Chargeable(cfg, k, t) && k1 == Payer(k, t)
    ensures OnlyCharges(k, k1, t) && k1.validators == k.validators && k1.claims == k.claims
  {
    ChargeFits(Get(k.world.accounts, t.from).balance, t.amount, t.fee);
  }

  /** A chargeable transaction comes to the effect of its kind with nothing but the charge done. */
  lemma ComesToKind(cfg: Config, k: Work, t: Tx, height: u64, i: nat) returns (k1: Work)
    requires Chargeable(cfg, k, t)
    ensures OnlyCharges(k, k1, t) && k1.validators == k.validators && k1.claims == k.claims
    ensures ApplyTx(cfg, k, t, height, i) == ApplyKind(cfg, k1, t, height, i)
  {
    k1 := Payer(k, t);
    PayerIsCharged(cfg, k, t, k1);
  }

  /* ----- Registering ----- */

  /** The sender is in the registry and validates. */
  ghost predicate Active(validators: map<Address, Validator>, a: Address)
  {
    a in validators && validators[a].active
  }

  /** The sender is in the registry for good: it was slashed. */
  ghost predicate Barred(validators: map<Address, Validator>, a: Address)
  {
    a in validators && validators[a].slashed
  }

  /** The proof of work is over the sender and the nonce in the first eight bytes of the data, zero without them. */
  ghost predicate SolvesPuzzle(cfg: Config, t: Tx)
  {
    cfg.regPow(t.from, if |t.data| >= 8 then BytesU64(t.data[..8]) else 0)
  }

  lemma Registers(cfg: Config, k: Work, t: Tx, height: u64, i: nat)
    requires t.kind == 3
    ensures var r := ApplyKind(cfg, k, t, height, i);
            if SolvesPuzzle(cfg, t) && t.amount >= 1_000 * 100_000_000 && !Active(k.validators, t.from)
               && !Barred(k.validators, t.from)
            then r == Going(k.(validators := k.validators[t.from := Validator(t.amount, true, height, false, 0, 0)]))
            else r.Broken? && r.err == (if !SolvesPuzzle(cfg, t) then BadRegPow
                                        else if t.amount < 1_000 * 100_000_000 then BondTooLow else AlreadyValidator)
  {
  }

  /**
   A registration is applied just when its sender can be charged, has solved the puzzle, bonds 1,000 coins or more,
   and neither validates nor has been slashed. It makes the sender an active validator with that bond and no score.
   */
  lemma RegisterTx(cfg: Config, k: Work, t: Tx, height: u64, i: nat)
    requires t.kind == 3
    ensures var r := ApplyTx(cfg, k, t, height, i);
            && (r.Going? <==> Chargeable(cfg, k, t) && SolvesPuzzle(cfg, t) && t.amount >= 1_000 * 100_000_000
                              && !Active(k.validators, t.from) && !Barred(k.validators, t.from))
            && (r.Going? ==> OnlyCharges(k, r.k, t) && r.k.claims == k.claims
                             && r.k.validators ==
                                k.validators[t.from := Validator(t.amount, true, height, false, 0, 0)])
            && (r.Broken? && Chargeable(cfg, k, t) ==>
                  r.err == (if !SolvesPuzzle(cfg, t) then BadRegPow
                            else if t.amount < 1_000 * 100_000_000 then BondTooLow else AlreadyValidator))
  {
    if Chargeable(cfg, k, t) {
      var k1 := ComesToKind(cfg, k, t, height, i);
      Registers(cfg, k1, t, height, i);
    } else {
      Uncharged(cfg, k, t, height, i);
    }
  }

  /* ----- Unregistering ----- */

  /** What unregistering makes of the charged state. */
  ghost predicate Leaves(k: Work, t: Tx, r: Applied)
  {
    if Active(k.validators, t.from) then
      && r.Going? && r.k.validators == k.validators - {t.from} && r.k.claims == k.claims && r.k.fees == k.fees
      && Pays(k.world, r.k.world, t.from, k.validators[t.from].bond + t.amount)
    else r.Broken? && r.err == NotValidator
  }

  lemma Unregisters(cfg: Config, k: Work, t: Tx, height: u64, i: nat)
    requires t.kind == 4
    ensures Leaves(k, t, ApplyKind(cfg, k, t, height, i)) == true
  {
    if Active(k.validators, t.from) {
      WrapsOnce(Get(k.world.accounts, t.from).balance, k.validators[t.from].bond + t.amount);
    }
  }

  lemma WrapsOnce(x: int, y: int)
    ensures Wrap(x + Wrap(y)) == (x + y) % WORD
  {
  }

  /** `to` is paid, modulo 2^64, and nothing else that can be read of the ledger changes. */
  ghost predicate Pays(w: World, w': World, to: Address, amount: int)
  {
    && (forall a :: Get(w'.accounts, a) == if a == to then With(Get(w.accounts, a), amount) else Get(w.accounts, a))
    && w'.logs == w.logs
  }

  lemma ChargedThenPaid(k: Work, k1: Work, r: Applied, t: Tx, to: Address, amount: int)
    requires OnlyCharges(k, k1, t) && r.Going? && Pays(k1.world, r.k.world, to, amount) && r.k.fees == k1.fees
    ensures ChargesAndPays(k, r.k, t, to, amount)
  {
  }

  lemma ChargedThenLeft(k: Work, k1: Work, t: Tx, r: Applied)
    requires OnlyCharges(k, k1, t) && k1.validators == k.validators && k1.claims == k.claims && Leaves(k1, t, r)
    ensures if Active(k.validators, t.from) then
              && r.Going? && ChargesAndPays(k, r.k, t, t.from, k.validators[t.from].bond + t.amount)
              && r.k.claims == k.claims && r.k.validators == k.validators - {t.from}
            else r.Broken? && r.err == NotValidator
  {
  }

  /** A validator, and nobody else, can unregister: the bond, with the amount, is paid back, and its record is gone. */
  lemma UnregisterTx(cfg: Config, k: Work, t: Tx, height: u64, i: nat)
    requires t.kind == 4
    ensures var r := ApplyTx(cfg, k, t, height, i);
            && (r.Going? <==> Chargeable(cfg, k, t) && Active(k.validators, t.from))
            && (r.Going? ==> ChargesAndPays(k, r.k, t, t.from, k.validators[t.from].bond + t.amount)
                             && r.k.claims == k.claims && r.k.validators == k.validators - {t.from})
            && (r.Broken? && Chargeable(cfg, k, t) ==> r.err == NotValidator)
  {
    if Chargeable(cfg, k, t) {
      var k1 := ComesToKind(cfg, k, t, height, i);
      Unregisters(cfg, k1, t, height, i);
      ChargedThenLeft(k, k1, t, ApplyKind(cfg, k1, t, height, i));
    } else {
      Uncharged(cfg, k, t, height, i);
    }
  }

  /* ----- Slashing ----- */

  lemma Slashes(cfg: Config, k: Work, t: Tx, height: u64, i: nat)
    requires t.kind == 5
    ensures var r, e := ApplyKind(cfg, k, t, height, i), cfg.evidence(t.data);
            if e.Some? && Active(k.validators, e.value) then
              var v := k.validators[e.value];
              && r.Going? && r.k.claims == k.claims && r.k.fees == k.fees
              && r.k.validators == k.validators[e.value := Validator(0, false, v.since, true, 0, 0)]
              && Pays(k.world, r.k.world, t.from, v.bond / 10)
            else r.Broken? && r.err == if e.None? then BadEvidence else NotValidator
  {
  }

  /** A report is applied just when it proves that an active validator signed two blocks of one height. That validator
      loses its bond, a tenth of which goes to the reporter, and is barred. */
  lemma SlashTx(cfg: Config, k: Work, t: Tx, height: u64, i: nat)
    requires t.kind == 5
    ensures var r, e := ApplyTx(cfg, k, t, height, i), cfg.evidence(t.data);
            && (r.Going? <==> Chargeable(cfg, k, t) && e.Some? && Active(k.validators, e.value))
            && (r.Going? ==> var v := k.validators[e.value];
                             && ChargesAndPays(k, r.k, t, t.from, v.bond / 10) && r.k.claims == k.claims
                             && r.k.validators == k.validators[e.value := Validator(0, false, v.since, true, 0, 0)])
            && (r.Broken? && Chargeable(cfg, k, t) ==> r.err == if e.None? then BadEvidence else NotValidator)
  {
    if Chargeable(cfg, k, t) {
      var k1 := ComesToKind(cfg, k, t, height, i);
      Slashes(cfg, k1, t, height, i);
      var r, e := ApplyKind(cfg, k1, t, height, i), cfg.evidence(t.data);
      if r.Going? { ChargedThenPaid(k, k1, r, t, t.from, k.validators[e.value].bond / 10); }
    } else {
      Uncharged(cfg, k, t, height, i);
    }
  }

  /* ----- Storage proofs ----- */

  /** The block the proof is about: its height stands in the first eight bytes of the data. */
  function Target(t: Tx): (h: u64)
    requires |t.data| >= 8
  {
    BytesU64(t.data[..8])
  }

  /** The target lies in the past, deep enough, and no further back than the window, whose end wraps. */
  ghost predicate InWindow(cfg: Config, target: u64, height: u64)
  {
    target < height && height <= (target + cfg.storageWindow) % WORD && height - target >= cfg.storageMinDepth
  }

  /** The data carry the shard of the target block that the sender is to hold: the one at the digest of the
      sender's address and the block's id, modulo the number of shards. */
  ghost predicate HoldsItsShard(cfg: Config, t: Tx)
    requires cfg.shardAt.Some? && |t.data| >= 8
  {
    var info := cfg.shardAt.value(Target(t));
    && info.Some? && info.value.total > 0
    && cfg.shardOk(Target(t), cfg.oracle.digest(t.from + info.value.blockId) % info.value.total, t.data[8..])
  }

  ghost predicate ProvesStorage(cfg: Config, validators: map<Address, Validator>, t: Tx, height: u64)
  {
    && cfg.shardAt.Some? && Active(validators, t.from) && |t.data| >= 8
    && InWindow(cfg, Target(t), height) && HoldsItsShard(cfg, t)
  }

  /** The record after a proof: one point more up to the cap, proved at this height. */
  ghost predicate Proved(cfg: Config, v: Validator, v': Validator, height: u64)
  {
    && v'.score == (if v.score >= cfg.storageCap then v.score else v.score + 1) && v'.lastProof == height
    && v'.bond == v.bond && v'.active == v.active && v'.since == v.since && v'.slashed == v.slashed
  }

  /** One record changes, and no other. */
  ghost predicate OnlyRecord(validators: map<Address, Validator>, validators': map<Address, Validator>, a: Address)
  {
    validators'.Keys == validators.Keys && forall b :: b in validators && b != a ==> validators'[b] == validators[b]
  }

  lemma ProvesIts(cfg: Config, k: Work, t: Tx, height: u64, i: nat)
    requires t.kind == 7
    ensures var r := ApplyKind(cfg, k, t, height, i);
            if ProvesStorage(cfg, k.validators, t, height) then
              && r.Going? && r.k.world == k.world && r.k.claims == k.claims && r.k.fees == k.fees
              && OnlyRecord(k.validators, r.k.validators, t.from)
              && Proved(cfg, k.validators[t.from], r.k.validators[t.from], height)
            else r.Broken? && r.err == (if cfg.shardAt.None? then StorageDisabled
                                        else if !Active(k.validators, t.from) then NotValidator else BadStorageProof)
  {
  }

  /**
   A storage proof is applied just when its sender can be charged and validates, the target lies in the window, and
   the data hold the very shard of the target that the sender is to hold. The sender's record then gains a point, up
   to the cap, and the height of the proof, and nothing else changes.
   */
  lemma StorageProofTx(cfg: Config, k: Work, t: Tx, height: u64, i: nat)
    requires t.kind == 7
    ensures var r := ApplyTx(cfg, k, t, height, i);
            && (r.Going? <==> Chargeable(cfg, k, t) && ProvesStorage(cfg, k.validators, t, height))
            && (r.Going? ==> OnlyCharges(k, r.k, t) && r.k.claims == k.claims
                             && OnlyRecord(k.validators, r.k.validators, t.from)
                             && Proved(cfg, k.validators[t.from], r.k.validators[t.from], height))
            && (r.Broken? && Chargeable(cfg, k, t) ==>
                  r.err == (if cfg.shardAt.None? then StorageDisabled
                            else if !Active(k.validators, t.from) then NotValidator else BadStorageProof))
  {
    if Chargeable(cfg, k, t) {
      var k1 := ComesToKind(cfg, k, t, height, i);
      ProvesIts(cfg, k1, t, height, i);
    } else {
      Uncharged(cfg, k, t, height, i);
    }
  }

  /* ----- The faucet ----- */

  /** The height of the block a claim is anchored at stands first in its data, and its proof of work after that. */
  function AnchorHeight(t: Tx): (h: u64)
    requires |t.data| >= 16
  {
    BytesU64(t.data[..8])
  }

  /** The anchor is deep enough and at most 256 blocks back; both sums wrap. */
  ghost predicate IsRecent(cfg: Config, at: u64, height: u64)
  {
    (at + cfg.faucetDepth) % WORD <= height && height <= (at + 256) % WORD
  }

  /** The claim's proof of work is over its sender, what the chain has at the anchor, and the claim's nonce. */
  ghost predicate Solves(cfg: Config, t: Tx)
    requires cfg.anchor.Some? && |t.data| >= 16
  {
    var anchor := cfg.anchor.value(AnchorHeight(t));
    anchor.Some? && cfg.faucetPow(t.from, anchor.value, BytesU64(t.data[8..16]))
  }

  /** The cooldown since the sender's last claim, if there is one, is over; the sum wraps. */
  ghost predicate Cooled(cfg: Config, claims: map<Address, u64>, a: Address, height: u64)
  {
    a in claims ==> height >= (claims[a] + cfg.faucetCooldown) % WORD
  }

  /** Everything the faucet asks for but a full treasury. */
  ghost predicate MayClaim(cfg: Config, k: Work, t: Tx, height: u64)
  {
    && cfg.faucetAmount != 0 && cfg.anchor.Some? && |t.data| >= 16
    && IsRecent(cfg, AnchorHeight(t), height) && Solves(cfg, t) && Cooled(cfg, k.claims, t.from, height)
  }

  /** An account after the faucet has paid. */
  function AfterFaucet(cfg: Config, t: Tx, a: Address, c: Account): (r: Account)
  {
    if a == t.from && a == cfg.faucetSource then c
    else if a == t.from then With(c, cfg.faucetAmount)
    else if a == cfg.faucetSource then With(c, 0 - cfg.faucetAmount)
    else c
  }

  /** The first thing wrong with a claim; the cooldown when all else is right. */
  ghost function Objection(cfg: Config, t: Tx, height: u64): (e: LedgerError)
  {
    if cfg.faucetAmount == 0 || cfg.anchor.None? then FaucetDisabled
    else if |t.data| < 16 || !IsRecent(cfg, AnchorHeight(t), height) || cfg.anchor.value(AnchorHeight(t)).None?
      then BadFaucet
    else if !Solves(cfg, t) then BadFaucetPow
    else FaucetCooldown
  }

  lemma Claims(cfg: Config, k: Work, t: Tx, height: u64, i: nat)
    requires t.kind == 6
    ensures ApplyKind(cfg, k, t, height, i) == Faucet(cfg, k, t, height)
  {
  }

  lemma ClaimGoes(cfg: Config, k: Work, t: Tx, height: u64)
    requires MayClaim(cfg, k, t, height)
    ensures Faucet(cfg, k, t, height) == FaucetPays(cfg, k, t, height)
  {
  }

  lemma ClaimStops(cfg: Config, k: Work, t: Tx, height: u64)
    requires !MayClaim(cfg, k, t, height)
    ensures var r := Faucet(cfg, k, t, height); r.Broken? && r.err == Objection(cfg, t, height)
  {
  }

  lemma CreditIs(w: World, a: Address, amount: u64)
    ensures Pays(w, Credited(w, a, amount), a, amount) == true
  {
  }

  lemma DebitIs(w: World, a: Address, amount: u64)
    ensures Pays(w, Debited(w, a, amount), a, 0 - amount) == true
  {
  }

  lemma BackAndForth(c: Account, amount: int)
    ensures With(With(c, 0 - amount), amount) == c
  {
  }

  lemma InAndOut(cfg: Config, t: Tx, w: World, w1: World, w2: World)
    requires Pays(w, w1, cfg.faucetSource, 0 - cfg.faucetAmount) && Pays(w1, w2, t.from, cfg.faucetAmount)
    ensures forall a :: Get(w2.accounts, a) == AfterFaucet(cfg, t, a, Get(w.accounts, a))
    ensures w2.logs == w.logs
  {
    BackAndForth(Get(w.accounts, t.from), cfg.faucetAmount);
  }

  lemma Paying(cfg: Config, k: Work, t: Tx, height: u64)
    ensures var r := FaucetPays(cfg, k, t, height);
            if Get(k.world.accounts, cfg.faucetSource).balance >= cfg.faucetAmount then
              && r.Going? && r.k.validators == k.validators && r.k.claims == k.claims[t.from := height]
              && (forall a :: Get(r.k.world.accounts, a) == AfterFaucet(cfg, t, a, Get(k.world.accounts, a)))
              && r.k.fees == k.fees && r.k.world.logs == k.world.logs
            else r.Broken? && r.err == FaucetDry
  {
    var w := Snap(k.world.(accounts := Acct(k.world.accounts, cfg.faucetSource)), cfg.faucetSource);
    DebitIs(w, cfg.faucetSource, cfg.faucetAmount);
    var w1 := Debited(w, cfg.faucetSource, cfg.faucetAmount);
    CreditIs(w1, t.from, cfg.faucetAmount);
    InAndOut(cfg, t, w, w1, Credited(w1, t.from, cfg.faucetAmount));
  }

  /**
   A faucet claim is applied just when its sender can be charged, its anchor is deep and recent, its proof of work
   holds, the cooldown since the sender's last claim is over, and the treasury, after the charge, has the amount. The
   treasury pays it to the sender, and the claim is on record at this height.
   */
  lemma FaucetTx(cfg: Config, k: Work, t: Tx, height: u64, i: nat)
    requires t.kind == 6
    ensures var r := ApplyTx(cfg, k, t, height, i);
            && (r.Going? <==> Chargeable(cfg, k, t) && MayClaim(cfg, k, t, height)
                              && Charge(k, t, cfg.faucetSource).balance >= cfg.faucetAmount)
            && (r.Going? ==> r.k.validators == k.validators && r.k.claims == k.claims[t.from := height]
                             && (forall a :: Get(r.k.world.accounts, a) == AfterFaucet(cfg, t, a, Charge(k, t, a)))
                             && Tallies(k, r.k, t))
            && (r.Broken? && Chargeable(cfg, k, t) ==>
                  r.err == if MayClaim(cfg, k, t, height) then FaucetDry else Objection(cfg, t, height))
  {
    if Chargeable(cfg, k, t) {
      var k1 := ComesToKind(cfg, k, t, height, i);
      Claims(cfg, k1, t, height, i);
      if MayClaim(cfg, k1, t, height) {
        ClaimGoes(cfg, k1, t, height);
        Paying(cfg, k1, t, height);
      } else {
        ClaimStops(cfg, k1, t, height);
      }
    } else {
      Uncharged(cfg, k, t, height, i);
    }
  }

  /* ----- The other kinds ----- */

  /** Nothing but accounts is changed, and the fee is collected. */
  ghost predicate Plainly(k: Work, r: Applied, fee: int)
  {
    r.Going? && r.k.validators == k.validators && r.k.claims == k.claims && r.k.fees == (k.fees + fee) % WORD
  }

  lemma Plain(cfg: Config, k: Work, t: Tx, height: u64, i: nat)
    requires t.kind !in {3, 4, 5, 6, 7}
    ensures Plainly(k, ApplyKind(cfg, k, t, height, i), 0) == true
  {
  }

  /** A transfer, which is what every number without another meaning stands for, a deployment and a call are applied
      whenever the sender can be charged. They leave the registry and the claims alone. */
  lemma PlainTx(cfg: Config, k: Work, t: Tx, height: u64, i: nat)
    requires t.kind !in {3, 4, 5, 6, 7}
    ensures var r := ApplyTx(cfg, k, t, height, i);
            (r.Going? <==> Chargeable(cfg, k, t)) && (r.Going? ==> Plainly(k, r, t.fee))
  {
    if Chargeable(cfg, k, t) {
      var k1 := ComesToKind(cfg, k, t, height, i);
      Plain(cfg, k1, t, height, i);
    } else {
      Uncharged(cfg, k, t, height, i);
    }
  }

  lemma Transfers(cfg: Config, k: Work, t: Tx, height: u64, i: nat)
    requires t.kind == 0 || t.kind > 7
    ensures var r := ApplyKind(cfg, k, t, height, i);
            r.Going? && Pays(k.world, r.k.world, t.to, t.amount) && r.k.fees == k.fees
  {
    CreditIs(Touched(k.world, t.to), t.to, t.amount);
  }

  lemma TransferTx(cfg: Config, k: Work, t: Tx, height: u64, i: nat)
    requires t.kind == 0 || t.kind > 7
    ensures var r := ApplyTx(cfg, k, t, height, i); r.Going? ==> ChargesAndPays(k, r.k, t, t.to, t.amount)
  {
    if Chargeable(cfg, k, t) {
      var k1 := ComesToKind(cfg, k, t, height, i);
      Transfers(cfg, k1, t, height, i);
      ChargedThenPaid(k, k1, ApplyKind(cfg, k1, t, height, i), t, t.to, t.amount);
    } else {
      Uncharged(cfg, k, t, height, i);
    }
  }

  /** `w'` is `w` with this code, and this much more, at one address. */
  ghost predicate Deploys(w: World, w': World, at: Address, code: seq<byte>, amount: u64)
  {
    && (forall a :: Get(w'.accounts, a) == if a == at then With(Get(w.accounts, a), amount).(code := code)
                                           else Get(w.accounts, a))
    && w'.logs == w.logs
  }

  lemma Deploying(cfg: Config, w: World, t: Tx)
    ensures Deploys(w, Deployed(cfg, w, t), cfg.contractAddress(t.from, t.nonce), t.data, t.amount)
  {
  }

  /** The sender is charged, and at this address there are this code and this much more; the storage there stays. */
  ghost predicate ChargesAndDeploys(k: Work, k': Work, t: Tx, at: Address)
  {
    && (forall a :: Get(k'.world.accounts, a) == if a == at then With(Charge(k, t, a), t.amount).(code := t.data)
                                                 else Charge(k, t, a))
    && Tallies(k, k', t)
  }

  lemma ChargedThenDeployed(k: Work, k1: Work, k': Work, t: Tx, at: Address)
    requires OnlyCharges(k, k1, t) && Deploys(k1.world, k'.world, at, t.data, t.amount) && k'.fees == k1.fees
    ensures ChargesAndDeploys(k, k', t, at)
  {
  }

  /** A deployment puts its data at the contract's address as its code, and pays its amount there. */
  lemma DeployTx(cfg: Config, k: Work, t: Tx, height: u64, i: nat)
    requires t.kind == 1
    ensures var r := ApplyTx(cfg, k, t, height, i);
            r.Going? ==> ChargesAndDeploys(k, r.k, t, cfg.contractAddress(t.from, t.nonce))
  {
    if Chargeable(cfg, k, t) {
      var k1 := ComesToKind(cfg, k, t, height, i);
      Deploying(cfg, k1.world, t);
      ChargedThenDeployed(k, k1, ApplyKind(cfg, k1, t, height, i).k, t, cfg.contractAddress(t.from, t.nonce));
    } else {
      Uncharged(cfg, k, t, height, i);
    }
  }
}
