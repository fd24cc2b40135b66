/** The validator registry: what every record looks like, in every state a run can reach. */
module Registry {
  import opened Words
  import opened Txs
  import opened Economy
  import opened Contracts
  import opened Ledger

  /** Active and unslashed, or inactive, slashed and without a bond. */
  ghost predicate Sane(cfg: Config, v: Validator)
  {
    (if v.active then !v.slashed else v.slashed && v.bond == 0)
    && (v.bond == 0 || v.bond >= MIN_BOND) && v.score <= cfg.storageCap
  }

  ghost predicate Sound(cfg: Config, validators: map<Address, Validator>)
  {
    forall a :: a in validators ==> Sane(cfg, validators[a])
  }

  /** Slashed, which is forever. */
  ghost predicate Barred(validators: map<Address, Validator>, a: Address)
  {
    a in validators && validators[a].slashed && !validators[a].active
  }

  ghost predicate Preserved(cfg: Config, before: map<Address, Validator>, after: map<Address, Validator>)
  {
    Sound(cfg, after) && forall a :: Barred(before, a) ==> Barred(after, a)
  }

  lemma SlashPreserves(cfg: Config, k: Work, t: Tx)
    requires Sound(cfg, k.validators)
    ensures Preserved(cfg, k.validators, Slash(cfg, k, t).k.validators)
  {
    var a := cfg.evidence(t.data);
    if a.Some? && a.value in k.validators { assert Sane(cfg, k.validators[a.value]); }
  }

  lemma ProofPreserves(cfg: Config, k: Work, t: Tx, height: u64)
    requires Sound(cfg, k.validators)
    ensures Preserved(cfg, k.validators, ProveStorage(cfg, k, t, height).k.validators)
  {
    if t.from in k.validators { assert Sane(cfg, k.validators[t.from]); }
  }

  lemma KindPreserves(cfg: Config, k: Work, t: Tx, height: u64, i: nat)
    requires Sound(cfg, k.validators)
    ensures Preserved(cfg, k.validators, ApplyKind(cfg, k, t, height, i).k.validators)
  {
    if t.kind == SLASH {
      SlashPreserves(cfg, k, t);
    } else if t.kind == STORAGE_PROOF {
      ProofPreserves(cfg, k, t, height);
    } else if t.from in k.validators {
      assert Sane(cfg, k.validators[t.from]);
    }
  }

  lemma TxPreserves(cfg: Config, k: Work, t: Tx, height: u64, i: nat)
    requires Sound(cfg, k.validators)
    ensures Preserved(cfg, k.validators, ApplyTx(cfg, k, t, height, i).k.validators)
  {
    var k1 := k.(world := Entered(k.world, t.from));
    KindPreserves(cfg, Charged(k1, t), t, height, i);
  }

  lemma {:induction false} TxsPreserve(cfg: Config, k: Work, txs: seq<Tx>, height: u64, i: nat)
    requires Sound(cfg, k.validators)
    ensures Preserved(cfg, k.validators, ApplyTxs(cfg, k, txs, height, i).k.validators)
    decreases txs
  {
    if txs != [] {
      TxPreserves(cfg, k, txs[0], height, i);
      var r := ApplyTx(cfg, k, txs[0], height, i);
      if r.Going? { TxsPreserve(cfg, r.k, txs[1..], height, i + 1); }
    }
  }

  lemma BlockPreserves(cfg: Config, s: State, b: Block)
    requires Sound(cfg, s.validators)
    ensures Preserved(cfg, s.validators, ApplyBlock(cfg, s, b).s.validators)
  {
    TxsPreserve(cfg, Opened(s), Payload(b), b.height, 0);
  }

  /** The states a ledger goes through as blocks are applied, accepted or not. */
  function Through(cfg: Config, s: State, blocks: seq<Block>): (r: State)
    decreases blocks
  {
    if blocks == [] then s else Through(cfg, ApplyBlock(cfg, s, blocks[0]).s, blocks[1..])
  }

  /**
   After any blocks, every record is active and unslashed, or inactive, slashed and without a bond;
   every bond is zero or at least the minimum; scores respect the cap; and a slashed address is never
   active again.
   */
  lemma {:induction false} RegistryOverRuns(cfg: Config, s: State, blocks: seq<Block>)
    requires Sound(cfg, s.validators)
    ensures Preserved(cfg, s.validators, Through(cfg, s, blocks).validators)
    decreases blocks
  {
    if blocks != [] {
      BlockPreserves(cfg, s, blocks[0]);
      RegistryOverRuns(cfg, ApplyBlock(cfg, s, blocks[0]).s, blocks[1..]);
    }
  }

  /** A registry that holds the genesis validator alone. */
  lemma GenesisIsSound(cfg: Config, a: Address)
    ensures Sound(cfg, map[a := Validator(0, true, 0, false, 0, 0)])
  {
  }

  /* ----- Election weights ----- */

  /** One, plus the storage score while the last proof is fresh. */
  function Weight(cfg: Config, height: u64, v: Validator): (w: u64)
  {
    Wrap(if cfg.storageWindow == 0 || height < Wrap(v.lastProof + cfg.storageWindow) then 1 + v.score else 1)
  }

  method StorageWeights(cfg: Config, s: State) returns (out: map<Address, u64>)
    requires Sound(cfg, s.validators)
    ensures out.Keys == set a | a in s.validators && s.validators[a].active
    ensures forall a :: a in out ==> out[a] == Weight(cfg, s.height, s.validators[a])
    ensures cfg.storageCap < TWO64 - 1 ==> forall a :: a in out ==> 1 <= out[a] <= 1 + cfg.storageCap
  {
    out := map[];
    var rest := s.validators.Keys;
    while rest != {}
      invariant rest <= s.validators.Keys
      invariant out.Keys == set a | a in s.validators && a !in rest && s.validators[a].active
      invariant forall a :: a in out ==> out[a] == Weight(cfg, s.height, s.validators[a])
      decreases |rest|
    {
      var a :| a in rest;
      rest := rest - {a};
      var v := s.validators[a];
      if v.active {
        var w: u64 := 1;
        if cfg.storageWindow == 0 || s.height < Wrap(v.lastProof + cfg.storageWindow) { w := Wrap(w + v.score); }
        out := out[a := w];
      }
    }
    forall a | a in out ensures cfg.storageCap < TWO64 - 1 ==> 1 <= out[a] <= 1 + cfg.storageCap {
      assert a in s.validators && Sane(cfg, s.validators[a]);
    }
  }
}
