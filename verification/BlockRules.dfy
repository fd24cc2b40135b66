/** When a block is accepted: its transactions, its coinbase, its fees and its subsidy. */
module BlockRules {
  import opened Words
  import opened Txs
  import opened Contracts
  import opened Ledger
  import opened Conditions
  import Economy

  /* ----- Transactions in turn ----- */

  /** Transaction `i` of its block is applied, and takes `k` to `k'`. */
  ghost predicate Takes(cfg: Config, k: Work, t: Tx, height: u64, i: nat, k': Work)
  {
    ApplyTx(cfg, k, t, height, i) == Going(k')
  }

  ghost predicate TakesAt(cfg: Config, ks: seq<Work>, txs: seq<Tx>, height: u64, i: nat, j: nat)
    requires j < |txs| && |ks| == |txs| + 1
  {
    Takes(cfg, ks[j], txs[j], height, i + j, ks[j + 1])
  }

  /** Transactions are applied one after the other, the first of them the `i`-th of its block. */
  ghost predicate InTurn(cfg: Config, ks: seq<Work>, txs: seq<Tx>, height: u64, i: nat)
  {
    |ks| == |txs| + 1
    && forall j {:trigger TakesAt(cfg, ks, txs, height, i, j)} ::
      0 <= j < |txs| ==> TakesAt(cfg, ks, txs, height, i, j)
  }

  lemma {:induction false} OneFirst(cfg: Config, k: Work, txs: seq<Tx>, height: u64, i: nat, r: Applied)
    requires txs != [] && r == ApplyTx(cfg, k, txs[0], height, i)
    ensures ApplyTxs(cfg, k, txs, height, i) ==
            if r.Broken? then r else ApplyTxs(cfg, r.k, txs[1..], height, i + 1)
  {
  }

  lemma {:induction false} FirstAndRest(cfg: Config, k: Work, ks: seq<Work>, txs: seq<Tx>, height: u64, i: nat)
    requires txs != [] && InTurn(cfg, ks, txs[1..], height, i + 1) && Takes(cfg, k, txs[0], height, i, ks[0])
    ensures InTurn(cfg, [k] + ks, txs, height, i)
  {
    var all := [k] + ks;
    forall j | 0 <= j < |txs| ensures TakesAt(cfg, all, txs, height, i, j) {
      if j > 0 {
        assert all[j] == ks[j - 1] && all[j + 1] == ks[j] && txs[j] == txs[1..][j - 1];
        assert TakesAt(cfg, ks, txs[1..], height, i + 1, j - 1);
      }
    }
  }

  /** What goes through goes through in turn. */
  lemma {:induction false} GoneInTurn(cfg: Config, k: Work, txs: seq<Tx>, height: u64, i: nat, k': Work)
      returns (ks: seq<Work>)
    requires ApplyTxs(cfg, k, txs, height, i) == Going(k')
    ensures InTurn(cfg, ks, txs, height, i) && ks[0] == k && ks[|txs|] == k'
    decreases txs
  {
    if txs == [] {
      ks := [k];
    } else {
      var r := ApplyTx(cfg, k, txs[0], height, i);
      OneFirst(cfg, k, txs, height, i, r);
      var rest := GoneInTurn(cfg, r.k, txs[1..], height, i + 1, k');
      FirstAndRest(cfg, k, rest, txs, height, i);
      ks := [k] + rest;
    }
  }

  lemma {:induction false} RestInTurn(cfg: Config, ks: seq<Work>, txs: seq<Tx>, height: u64, i: nat)
    requires txs != [] && InTurn(cfg, ks, txs, height, i)
    ensures InTurn(cfg, ks[1..], txs[1..], height, i + 1)
  {
    var later, rest := ks[1..], txs[1..];
    forall j {:trigger TakesAt(cfg, later, rest, height, i + 1, j)} | 0 <= j < |rest|
      ensures TakesAt(cfg, later, rest, height, i + 1, j)
    {
      assert TakesAt(cfg, ks, txs, height, i, j + 1);
    }
  }

  /** And what is applied in turn goes through. */
  lemma {:induction false} InTurnGoes(cfg: Config, ks: seq<Work>, txs: seq<Tx>, height: u64, i: nat)
    requires InTurn(cfg, ks, txs, height, i)
    ensures ApplyTxs(cfg, ks[0], txs, height, i) == Going(ks[|txs|])
    decreases txs
  {
    if txs != [] {
      assert TakesAt(cfg, ks, txs, height, i, 0);
      OneFirst(cfg, ks[0], txs, height, i, Going(ks[1]));
      RestInTurn(cfg, ks, txs, height, i);
      InTurnGoes(cfg, ks[1..], txs[1..], height, i + 1);
    }
  }

  /* ----- Fees ----- */

  /** The fees of the first `n` transactions together. */
  function Fees(txs: seq<Tx>, n: nat): (fees: nat)
    requires n <= |txs|
  {
    if n == 0 then 0 else Fees(txs, n - 1) + txs[n - 1].fee
  }

  lemma InTwo(x: int, y: int, z: int)
    ensures ((x + y) % WORD + z) % WORD == (x + (y + z)) % WORD
  {
  }

  lemma EveryTxPaysItsFee(cfg: Config, k: Work, t: Tx, height: u64, i: nat, k': Work)
    requires Takes(cfg, k, t, height, i, k')
    ensures k'.fees == (k.fees + t.fee) % WORD
  {
    match t.kind
    case 3 => RegisterTx(cfg, k, t, height, i);
    case 4 => UnregisterTx(cfg, k, t, height, i);
    case 5 => SlashTx(cfg, k, t, height, i);
    case 6 => FaucetTx(cfg, k, t, height, i);
    case 7 => StorageProofTx(cfg, k, t, height, i);
    case _ => PlainTx(cfg, k, t, height, i);
  }

  /** `fees` is what was collected before and this much more. */
  predicate Collected(before: int, more: int, fees: int)
  {
    fees == (before + more) % WORD
  }

  lemma CollectsOneMore(before: int, more: int, fees: int, fee: int, fees': int)
    requires Collected(before, more, fees) && Collected(fees, fee, fees')
    ensures Collected(before, more + fee, fees')
  {
    InTwo(before, more, fee);
  }

  lemma {:induction false} FeesAddUp(ks: seq<Work>, txs: seq<Tx>, n: nat)
    requires |ks| == |txs| + 1 && n <= |txs|
    requires forall j :: 0 <= j < |txs| ==> Collected(ks[j].fees, txs[j].fee, ks[j + 1].fees)
    ensures Collected(ks[0].fees, Fees(txs, n), ks[n].fees)
  {
    if n > 0 {
      FeesAddUp(ks, txs, n - 1);
      assert Collected(ks[n - 1].fees, txs[n - 1].fee, ks[n - 1 + 1].fees);
      CollectsOneMore(ks[0].fees, Fees(txs, n - 1), ks[n - 1].fees, txs[n - 1].fee, ks[n].fees);
    }
  }

  lemma PaysTaken(cfg: Config, ks: seq<Work>, txs: seq<Tx>, height: u64, j: nat)
    requires j < |txs| && |ks| == |txs| + 1 && TakesAt(cfg, ks, txs, height, 0, j)
    ensures Collected(ks[j].fees, txs[j].fee, ks[j + 1].fees) == true
  {
    EveryTxPaysItsFee(cfg, ks[j], txs[j], height, 0 + j, ks[j + 1]);
  }

  lemma PaysAt(cfg: Config, ks: seq<Work>, txs: seq<Tx>, height: u64, j: nat)
    requires InTurn(cfg, ks, txs, height, 0) && j < |txs|
    ensures Collected(ks[j].fees, txs[j].fee, ks[j + 1].fees) == true
  {
    PaysTaken(cfg, ks, txs, height, j);
  }

  /** Transactions that are applied in turn pay all their fees. */
  lemma {:induction false} InTurnCollects(cfg: Config, ks: seq<Work>, txs: seq<Tx>, height: u64)
    requires InTurn(cfg, ks, txs, height, 0)
    ensures Collected(ks[0].fees, Fees(txs, |txs|), ks[|txs|].fees)
  {
    forall j | 0 <= j < |txs| ensures Collected(ks[j].fees, txs[j].fee, ks[j + 1].fees) {
      PaysAt(cfg, ks, txs, height, j);
    }
    FeesAddUp(ks, txs, |txs|);
  }

  /* ----- Blocks ----- */

  /** A block that begins with a coinbase. */
  ghost predicate HasCoinbase(b: Block)
  {
    b.txs != [] && b.txs[0].from == []
  }

  function Rest(b: Block): (txs: seq<Tx>)
  {
    if b.txs != [] && b.txs[0].from == [] then b.txs[1..] else b.txs
  }

  /** The coinbase, if there is one, pays the block's validator this much, modulo 2^64. */
  ghost predicate RightCoinbase(b: Block, reward: int)
  {
    HasCoinbase(b) ==> b.txs[0].to == b.validator && b.txs[0].amount == reward % WORD
  }

  lemma Settles(s: State, k: Work, b: Block)
    ensures Settled(s, k, b).Going? <==> RightCoinbase(b, Economy.BlockReward(b.height, s.minted) + k.fees)
  {
  }

  lemma Joins(s: State, b: Block, r: Applied, accepted: bool)
    requires accepted <==> r.Going? && Settled(s, r.k, b).Going?
    ensures accepted <==> r.Going? && RightCoinbase(b, Economy.BlockReward(b.height, s.minted) + r.k.fees)
  {
    Settles(s, r.k, b);
  }

  lemma Closes(cfg: Config, s: State, b: Block, r: Applied)
    requires r == ApplyTxs(cfg, Opened(s), Rest(b), b.height, 0)
    ensures ApplyBlock(cfg, s, b).Accepted? <==> r.Going? && Settled(s, r.k, b).Going?
  {
  }

  /** The block's transactions after its coinbase are applied in turn, from the ledger as it is. */
  ghost predicate Runs(cfg: Config, s: State, b: Block, ks: seq<Work>)
  {
    InTurn(cfg, ks, Rest(b), b.height, 0) && ks[0] == Work(World(s.accounts, map[], [], []), s.validators, s.claims, 0)
  }

  lemma {:induction false} RunsThrough(cfg: Config, s: State, b: Block, ks: seq<Work>) returns (k: Work)
    requires Runs(cfg, s, b, ks)
    ensures ApplyTxs(cfg, Opened(s), Rest(b), b.height, 0) == Going(k)
    ensures Collected(0, Fees(Rest(b), |Rest(b)|), k.fees)
  {
    InTurnGoes(cfg, ks, Rest(b), b.height, 0);
    InTurnCollects(cfg, ks, Rest(b), b.height);
    k := ks[|Rest(b)|];
  }

  /** The transactions go through just when they can be applied in turn. */
  lemma {:induction false} GoesIfItRuns(cfg: Config, s: State, b: Block)
    ensures (exists ks :: Runs(cfg, s, b, ks)) <==> ApplyTxs(cfg, Opened(s), Rest(b), b.height, 0).Going?
  {
    if ks :| Runs(cfg, s, b, ks) { var k := RunsThrough(cfg, s, b, ks); }
    if ApplyTxs(cfg, Opened(s), Rest(b), b.height, 0).Going? { var ks := GoneRuns(cfg, s, b); }
  }

  lemma {:induction false} GoneRuns(cfg: Config, s: State, b: Block) returns (ks: seq<Work>)
    requires ApplyTxs(cfg, Opened(s), Rest(b), b.height, 0).Going?
    ensures Runs(cfg, s, b, ks) == true
  {
    ks := GoneInTurn(cfg, Opened(s), Rest(b), b.height, 0, ApplyTxs(cfg, Opened(s), Rest(b), b.height, 0).k);
  }

  /** All their fees are then collected. */
  lemma {:induction false} GoneCollects(cfg: Config, s: State, b: Block, r: Applied)
    requires r == ApplyTxs(cfg, Opened(s), Rest(b), b.height, 0)
    ensures r.Going? ==> r.k.fees == Fees(Rest(b), |Rest(b)|) % WORD
  {
    if r.Going? {
      var ks := GoneRuns(cfg, s, b);
      var k' := RunsThrough(cfg, s, b, ks);
    }
  }

  /**
   A block is accepted just when every transaction after its coinbase is applied in turn and the coinbase, if there
   is one, pays the block's validator the subsidy and the fees.
   */
  lemma {:induction false} BlockIsAccepted(cfg: Config, s: State, b: Block, r: Applied)
    requires r == ApplyTxs(cfg, Opened(s), Rest(b), b.height, 0)
    ensures ApplyBlock(cfg, s, b).Accepted? <==>
              r.Going? && RightCoinbase(b, Economy.BlockReward(b.height, s.minted) + r.k.fees)
  {
    Closes(cfg, s, b, r);
    Joins(s, b, r, ApplyBlock(cfg, s, b).Accepted?);
  }

  lemma Heights(cfg: Config, s: State, b: Block)
    ensures var o := ApplyBlock(cfg, s, b);
            o.Accepted? ==> o.s.height == b.height && o.s.minted == MintedAfter(s, b)
  {
  }

  lemma Mints(s: State, b: Block, minted: u64)
    requires minted == MintedAfter(s, b)
    ensures minted == if HasCoinbase(b) then (s.minted + Economy.BlockReward(b.height, s.minted)) % WORD else s.minted
  {
  }

  /** Only with a coinbase is the subsidy minted; the ledger is then at the block's height. */
  lemma {:induction false} SubsidyIsMinted(cfg: Config, s: State, b: Block)
    requires ApplyBlock(cfg, s, b).Accepted?
    ensures var s' := ApplyBlock(cfg, s, b).s;
            && s'.height == b.height
            && s'.minted == if HasCoinbase(b) then (s.minted + Economy.BlockReward(b.height, s.minted)) % WORD
                            else s.minted
  {
    Heights(cfg, s, b);
    Mints(s, b, ApplyBlock(cfg, s, b).s.minted);
  }

  /** What the block's validator gets: with a coinbase what the coinbase pays. Without one it gets the fees, but
      nothing when the sum of subsidy and fees wraps to zero. */
  function Payout(b: Block, subsidy: u64, fees: u64): (n: u64)
  {
    if b.txs != [] && b.txs[0].from == [] then b.txs[0].amount
    else if (subsidy + fees) % WORD == 0 then 0
    else fees
  }

  /** `s'` is what the transactions have made, with the validator paid this much and nothing else changed. A block
      without a coinbase and without a validator pays nobody. */
  ghost predicate Left(k: Work, s': State, b: Block, amount: u64)
  {
    && s'.validators == k.validators && s'.claims == k.claims && s'.lastLogs == k.world.logs
    && forall a :: Get(s'.accounts, a) ==
                   if a == b.validator && (HasCoinbase(b) || a != []) then With(Get(k.world.accounts, a), amount)
                   else Get(k.world.accounts, a)
  }

  lemma CoinbasePaid(s: State, k: Work, b: Block, k': Work)
    requires HasCoinbase(b) && Settled(s, k, b) == Going(k')
    ensures k' == k.(world := k'.world) && Pays(k.world, k'.world, b.validator, b.txs[0].amount)
  {
    CreditIs(Touched(k.world, b.validator), b.validator, b.txs[0].amount);
  }

  lemma FeesPaid(s: State, k: Work, b: Block, k': Work, subsidy: u64)
    requires !HasCoinbase(b) && Settled(s, k, b) == Going(k') && subsidy == Economy.BlockReward(b.height, s.minted)
    ensures k' == k.(world := k'.world)
    ensures if (subsidy + k.fees) % WORD == 0 || b.validator == [] then k' == k
            else Pays(k.world, k'.world, b.validator, k.fees)
  {
    CreditIs(Touched(k.world, b.validator), b.validator, k.fees);
  }

  lemma PaidIsLeft(s: State, k: Work, b: Block, k': Work, amount: u64)
    requires k' == k.(world := k'.world) && (HasCoinbase(b) || b.validator != [])
    requires Pays(k.world, k'.world, b.validator, amount)
    ensures Left(k, Closed(s, k', b), b, amount)
  {
  }

  lemma NobodyIsLeft(s: State, k: Work, b: Block, amount: u64)
    requires amount == 0 || (!HasCoinbase(b) && b.validator == [])
    ensures Left(k, Closed(s, k, b), b, amount)
  {
    NothingMore(k.world);
  }

  lemma SettledLeaves(s: State, k: Work, b: Block, k': Work, subsidy: u64)
    requires Settled(s, k, b) == Going(k') && subsidy == Economy.BlockReward(b.height, s.minted)
    ensures Left(k, Closed(s, k', b), b, Payout(b, subsidy, k.fees))
  {
    if HasCoinbase(b) {
      CoinbasePaid(s, k, b, k');
      PaidIsLeft(s, k, b, k', b.txs[0].amount);
    } else {
      FeesPaid(s, k, b, k', subsidy);
      if (subsidy + k.fees) % WORD == 0 || b.validator == [] {
        NobodyIsLeft(s, k, b, Payout(b, subsidy, k.fees));
      } else {
        PaidIsLeft(s, k, b, k', k.fees);
      }
    }
  }

  lemma NothingMore(w: World)
    ensures forall a :: With(Get(w.accounts, a), 0) == Get(w.accounts, a)
  {
  }

  lemma AcceptedIsClosed(cfg: Config, s: State, b: Block, r: Applied)
    requires r == ApplyTxs(cfg, Opened(s), Rest(b), b.height, 0) && ApplyBlock(cfg, s, b).Accepted?
    ensures r.Going? && Settled(s, r.k, b).Going?
    ensures ApplyBlock(cfg, s, b).s == Closed(s, Settled(s, r.k, b).k, b)
  {
  }

  /** An accepted block leaves what its transactions have made, with its events, and its validator paid. */
  lemma {:induction false} BlockLeaves(cfg: Config, s: State, b: Block, r: Applied)
    requires r == ApplyTxs(cfg, Opened(s), Rest(b), b.height, 0) && ApplyBlock(cfg, s, b).Accepted?
    ensures r.Going?
    ensures Left(r.k, ApplyBlock(cfg, s, b).s, b, Payout(b, Economy.BlockReward(b.height, s.minted), r.k.fees))
  {
    AcceptedIsClosed(cfg, s, b, r);
    SettledLeaves(s, r.k, b, Settled(s, r.k, b).k, Economy.BlockReward(b.height, s.minted));
  }

  /* ----- Producing ----- */

  /** The block a producer makes of some transactions: before them a coinbase of all that is due, if anything is. */
  function Produced(height: u64, validator: Address, due: u64, txs: seq<Tx>): (b: Block)
  {
    var coinbase := Tx([], validator, due, 0, 0, 0, 0, 0, [], [], []);
    Block(height, validator, if due > 0 then [coinbase] + txs else txs)
  }

  lemma FirstIsNoCoinbase(cfg: Config, k: Work, txs: seq<Tx>, height: u64)
    requires ApplyTxs(cfg, k, txs, height, 0).Going?
    ensures txs != [] ==> txs[0].from != []
  {
    if txs != [] {
      OneFirst(cfg, k, txs, height, 0, ApplyTx(cfg, k, txs[0], height, 0));
    }
  }

  lemma ProducedParts(height: u64, validator: Address, due: u64, txs: seq<Tx>, b: Block, reward: int)
    requires b == Produced(height, validator, due, txs) && (txs != [] ==> txs[0].from != []) && due == reward % WORD
    ensures Rest(b) == txs && RightCoinbase(b, reward) && b.height == height
  {
  }

  lemma FeesGoModulo(subsidy: int, total: int, fees: int)
    requires fees == total % WORD
    ensures (subsidy + fees) % WORD == (subsidy + total) % WORD
  {
    InTwo(0, total, subsidy);
  }

  lemma {:induction false} AcceptedIfRight(cfg: Config, s: State, b: Block, r: Applied)
    requires r == ApplyTxs(cfg, Opened(s), Rest(b), b.height, 0) && r.Going?
    requires RightCoinbase(b, Economy.BlockReward(b.height, s.minted) + r.k.fees)
    ensures ApplyBlock(cfg, s, b).Accepted?
  {
    BlockIsAccepted(cfg, s, b, r);
  }

  lemma {:induction false} TxsCollect(cfg: Config, s: State, txs: seq<Tx>, height: u64, r: Applied)
    requires r == ApplyTxs(cfg, Opened(s), txs, height, 0) && r.Going?
    ensures r.k.fees == Fees(txs, |txs|) % WORD
  {
    var ks := GoneInTurn(cfg, Opened(s), txs, height, 0, r.k);
    InTurnCollects(cfg, ks, txs, height);
  }

  /** No coinbase is the first of these, and their fees have been collected. */
  ghost predicate Covers(txs: seq<Tx>, fees: int)
  {
    fees == Fees(txs, |txs|) % WORD && (txs != [] ==> txs[0].from != [])
  }

  lemma {:induction false} PayloadCollects(cfg: Config, s: State, txs: seq<Tx>, height: u64, r: Applied)
    requires r == ApplyTxs(cfg, Opened(s), txs, height, 0) && r.Going?
    ensures Covers(txs, r.k.fees) == true
  {
    FirstIsNoCoinbase(cfg, Opened(s), txs, height);
    TxsCollect(cfg, s, txs, height, r);
  }

  lemma CoinbaseIsRight(s: State, height: u64, validator: Address, due: u64, txs: seq<Tx>, fees: int, b: Block)
    requires Covers(txs, fees) && b == Produced(height, validator, due, txs)
    requires due == (Economy.BlockReward(height, s.minted) + Fees(txs, |txs|)) % WORD
    ensures Fits(s, b, txs, height, fees) == true
  {
    var subsidy := Economy.BlockReward(height, s.minted);
    FeesGoModulo(subsidy, Fees(txs, |txs|), fees);
    ProducedParts(height, validator, due, txs, b, subsidy + fees);
  }

  /** A block of these transactions at this height, whose coinbase is right for these fees. */
  ghost predicate Fits(s: State, b: Block, txs: seq<Tx>, height: u64, fees: int)
  {
    Rest(b) == txs && b.height == height && RightCoinbase(b, Economy.BlockReward(b.height, s.minted) + fees)
  }

  lemma {:induction false} FittingIsAccepted(cfg: Config, s: State, b: Block, txs: seq<Tx>, height: u64, r: Applied)
    requires r == ApplyTxs(cfg, Opened(s), txs, height, 0) && r.Going? && Fits(s, b, txs, height, r.k.fees)
    ensures ApplyBlock(cfg, s, b).Accepted?
  {
    AcceptedIfRight(cfg, s, b, r);
  }

  /** What a producer makes of transactions that apply in turn, with the subsidy and all their fees as what is due, is
      accepted, its coinbase included. */
  lemma {:induction false} ProducedIsAccepted(cfg: Config, s: State, height: u64, validator: Address, due: u64,
      txs: seq<Tx>, r: Applied, b: Block)
    requires r == ApplyTxs(cfg, Opened(s), txs, height, 0) && r.Going?
    requires due == (Economy.BlockReward(height, s.minted) + Fees(txs, |txs|)) % WORD
    requires b == Produced(height, validator, due, txs)
    ensures ApplyBlock(cfg, s, b).Accepted?
  {
    PayloadCollects(cfg, s, txs, height, r);
    CoinbaseIsRight(s, height, validator, due, txs, r.k.fees, b);
    FittingIsAccepted(cfg, s, b, txs, height, r);
  }
}
