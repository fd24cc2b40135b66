/** The ledger object: blocks applied in place, with snapshots to roll back to, proved against `Ledger`. */
module LedgerState {
  import opened Words
  import opened Txs
  import opened Economy
  import opened Contracts
  import opened Frames
  import L = Ledger
  import VM

  class LedgerObject {
    const cfg: L.Config
    var accounts: map<Address, Account>
    var validators: map<Address, L.Validator>
    var height: u64
    var minted: u64
    var faucetClaims: map<Address, u64>
    var lastLogs: seq<Log>

    /* The local variables of ApplyBlock that its closures share, and the instrument of `World`. */
    var saved: map<Address, Option<Account>>
    var blockLogs: seq<Log>
    var fees: u64
    var commits: seq<Written>

    ghost function Value(): (s: L.State)
      reads this
    {
      L.State(accounts, validators, height, minted, faucetClaims, lastLogs)
    }

    function World(): (w: Contracts.World)
      reads this
    {
      Contracts.World(accounts, saved, blockLogs, commits)
    }

    ghost function Work(): (k: L.Work)
      reads this
    {
      L.Work(World(), validators, faucetClaims, fees)
    }

    constructor (cfg: L.Config, s: L.State)
      ensures Value() == s && this.cfg == cfg
    {
      this.cfg := cfg;
      accounts, validators, height, minted := s.accounts, s.validators, s.height, s.minted;
      faucetClaims, lastLogs := s.claims, s.lastLogs;
      saved, blockLogs, fees, commits := map[], [], 0, [];
    }

    /** A copy under the same configuration; the logs of the last block are not copied. */
    method Clone() returns (copy: LedgerObject)
      ensures fresh(copy) && copy.cfg == cfg && copy.Value() == Value().(lastLogs := [])
    {
      copy := new LedgerObject(cfg, L.State(accounts, validators, height, minted, faucetClaims, []));
    }

    /** Takes over everything but the logs of the last block, which stay its own. */
    method ReplaceWith(other: LedgerObject)
      modifies this
      ensures Value() == old(other.Value()).(lastLogs := old(lastLogs))
    {
      accounts, validators, height, minted := other.accounts, other.validators, other.height, other.minted;
      faucetClaims := other.faucetClaims;
    }

    /* ----- Accounts ----- */

    method Lookup(a: Address) returns (c: Account)
      modifies this`accounts
      ensures accounts == Acct(old(accounts), a) && c == Get(old(accounts), a)
    {
      if a !in accounts { accounts := accounts[a := NO_ACCOUNT]; }
      c := accounts[a];
    }

    method Snapshot(a: Address)
      modifies this`saved
      ensures World() == Snap(old(World()), a)
    {
      if a in saved { return; }
      if a in accounts { saved := saved[a := Some(accounts[a])]; } else { saved := saved[a := None]; }
    }

    method Credit(a: Address, x: u64)
      modifies this`accounts
      ensures World() == L.Credited(old(World()), a, x)
    {
      var c := Lookup(a);
      accounts := accounts[a := c.(balance := Wrap(c.balance + x))];
    }

    method Debit(a: Address, x: u64)
      modifies this`accounts
      ensures World() == L.Debited(old(World()), a, x)
    {
      var c := Lookup(a);
      accounts := accounts[a := c.(balance := Wrap(c.balance - x))];
    }

    method Touch(a: Address) returns (c: Account)
      modifies this`accounts, this`saved
      ensures World() == L.Touched(old(World()), a) && c == Get(accounts, a)
    {
      Snapshot(a);
      c := Lookup(a);
    }

    /* ----- Contracts ----- */

    method Log(q: Request, events: seq<seq<u64>>)
      modifies this`blockLogs
      ensures blockLogs == old(blockLogs) + Events(q, events)
    {
      var i := 0;
      while i < |events|
        invariant 0 <= i <= |events| && old(blockLogs) + Events(q, events) == blockLogs + Events(q, events[i..])
      {
        assert events[i..][1..] == events[i + 1..];
        blockLogs := blockLogs + [Txs.Log(q.addr, events[i], q.txIndex)];
        i := i + 1;
      }
    }

    /** A successful frame's storage and events. */
    method CommitFrame(q: Request, m: VM.Machine)
      modifies this`accounts, this`blockLogs, this`commits
      ensures World() == Commit(old(World()), q, m)
    {
      var c := Lookup(q.addr);
      accounts := accounts[q.addr := c.(words := m.work, blobs := m.bwork)];
      Log(q, m.logs);
      commits := commits + [Written(q.addr, m.work, m.bwork)];
    }

    method Enter(a: Address) returns (c: Account)
      modifies this`accounts, this`saved
      ensures World() == Entered(old(World()), a) && c == Get(accounts, a)
    {
      c := Lookup(a);
      Snapshot(a);
    }

    /** Runs the contract on working copies of its storage, and writes them back if it succeeds. */
    method ExecContract(q: Request) returns (ret: u64, used: u64, ok: bool)
      requires q.depth <= VM.MAX_DEPTH
      modifies this`accounts, this`saved, this`blockLogs, this`commits
      ensures var r := Exec(cfg.oracle, old(World()), q);
              World() == r.world && ret == r.ret && used == r.used && ok == r.ok
    {
      var c := Enter(q.addr);
      var w := World();
      var store := new VM.Storage(c.words, c.blobs);
      var o := VM.ExecuteB(FrameOf(cfg.oracle, w, q), w, store);
      ExecAnswers(cfg.oracle, old(World()), q, w, c);
      ret, used, ok := LeaveFrame(q, o, store.words, store.blobs);
    }

    /** The world as the run left it, and on success what the frame wrote. */
    method LeaveFrame(q: Request, o: VM.Outcome<Contracts.World>, words: map<u64, u64>, blobs: map<u64, seq<byte>>)
      returns (ret: u64, used: u64, ok: bool)
      requires o.Success? ==> words == o.m.work && blobs == o.m.bwork
      modifies this`accounts, this`saved, this`blockLogs, this`commits
      ensures var r := AnswerTo(o, q); World() == r.world && ret == r.ret && used == r.used && ok == r.ok
    {
      accounts, saved, blockLogs, commits := o.world.accounts, o.world.saved, o.world.logs, o.world.commits;
      if o.Failure? { return 0, q.gas, false; }
      CommitFrame(q, o.m.(work := words, bwork := blobs));
      return o.ret, o.m.used, true;
    }

    /* ----- Transactions ----- */

    method DeployContract(t: Tx)
      modifies this`accounts, this`saved
      ensures World() == L.Deployed(cfg, old(World()), t)
    {
      var a := cfg.contractAddress(t.from, t.nonce);
      var c := Touch(a);
      accounts := accounts[a := c.(code := t.data, balance := Wrap(c.balance + t.amount))];
    }

    method CallContract(t: Tx, i: nat)
      modifies this`accounts, this`saved, this`blockLogs, this`commits
      ensures World() == L.Called(cfg, old(World()), t, i)
    {
      var _ := Touch(t.to);
      Credit(t.to, t.amount);
      var to := Lookup(t.to);
      if |to.code| == 0 { return; }
      var _, _, ok := ExecContract(L.CallOf(cfg, t, i));
      if !ok {
        Debit(t.to, t.amount);
        Credit(t.from, t.amount);
      }
    }

    method RegisterValidator(t: Tx, blockHeight: u64) returns (err: Option<L.LedgerError>)
      modifies this`validators
      ensures Result(err, Work()) == L.Register(cfg, old(Work()), t, blockHeight)
    {
      var nonce: u64 := 0;
      if |t.data| >= 8 { nonce := BytesU64(t.data[..8]); }
      if !cfg.regPow(t.from, nonce) { return Some(L.BadRegPow); }
      if t.amount < MIN_BOND { return Some(L.BondTooLow); }
      if t.from in validators && (validators[t.from].active || validators[t.from].slashed) {
        return Some(L.AlreadyValidator);
      }
      validators := validators[t.from := L.Validator(t.amount, true, blockHeight, false, 0, 0)];
      return None;
    }

    method ApplySlash(t: Tx) returns (err: Option<L.LedgerError>)
      modifies this`accounts, this`saved, this`validators
      ensures Result(err, Work()) == L.Slash(cfg, old(Work()), t)
    {
      var evidence := cfg.evidence(t.data);
      if evidence.None? { return Some(L.BadEvidence); }
      var a := evidence.value;
      if a !in validators || !validators[a].active { return Some(L.NotValidator); }
      var v := validators[a];
      var reward := v.bond / 10;
      var _ := Touch(t.from);
      Credit(t.from, reward);
      validators := validators[a := L.Validator(0, false, v.since, true, 0, 0)];
      return None;
    }

    method UnregisterValidator(t: Tx) returns (err: Option<L.LedgerError>)
      modifies this`accounts, this`validators
      ensures Result(err, Work()) == L.Unregister(old(Work()), t)
    {
      if t.from !in validators || !validators[t.from].active { return Some(L.NotValidator); }
      var _ := Lookup(t.from);
      Credit(t.from, Wrap(validators[t.from].bond + t.amount));
      validators := validators - {t.from};
      return None;
    }

    method ClaimFaucet(t: Tx, blockHeight: u64) returns (err: Option<L.LedgerError>)
      modifies this`accounts, this`saved, this`faucetClaims
      ensures Result(err, Work()) == L.Faucet(cfg, old(Work()), t, blockHeight)
    {
      if cfg.faucetAmount == 0 || cfg.anchor.None? { return Some(L.FaucetDisabled); }
      if |t.data| < 16 { return Some(L.BadFaucet); }
      var anchorHeight, nonce := BytesU64(t.data[..8]), BytesU64(t.data[8..16]);
      if Wrap(anchorHeight + cfg.faucetDepth) > blockHeight || Wrap(anchorHeight + 256) < blockHeight {
        return Some(L.BadFaucet);
      }
      var anchor := cfg.anchor.value(anchorHeight);
      if anchor.None? { return Some(L.BadFaucet); }
      if !cfg.faucetPow(t.from, anchor.value, nonce) { return Some(L.BadFaucetPow); }
      if t.from in faucetClaims && blockHeight < Wrap(faucetClaims[t.from] + cfg.faucetCooldown) {
        return Some(L.FaucetCooldown);
      }
      err := PayFaucet(t, blockHeight);
    }

    method PayFaucet(t: Tx, blockHeight: u64) returns (err: Option<L.LedgerError>)
      modifies this`accounts, this`saved, this`faucetClaims
      ensures Result(err, Work()) == L.FaucetPays(cfg, old(Work()), t, blockHeight)
    {
      var src := Lookup(cfg.faucetSource);
      if src.balance < cfg.faucetAmount { return Some(L.FaucetDry); }
      Snapshot(cfg.faucetSource);
      Debit(cfg.faucetSource, cfg.faucetAmount);
      Credit(t.from, cfg.faucetAmount);
      faucetClaims := faucetClaims[t.from := blockHeight];
      return None;
    }

    method AcceptStorageProof(t: Tx, blockHeight: u64) returns (err: Option<L.LedgerError>)
      modifies this`validators
      ensures Result(err, Work()) == L.ProveStorage(cfg, old(Work()), t, blockHeight)
    {
      if cfg.shardAt.None? { return Some(L.StorageDisabled); }
      if t.from !in validators || !validators[t.from].active { return Some(L.NotValidator); }
      if |t.data| < 8 { return Some(L.BadStorageProof); }
      var target, shard := BytesU64(t.data[..8]), t.data[8..];
      if target >= blockHeight || Wrap(target + cfg.storageWindow) < blockHeight
      || blockHeight - target < cfg.storageMinDepth {
        return Some(L.BadStorageProof);
      }
      var info := cfg.shardAt.value(target);
      if info.None? || info.value.total <= 0 { return Some(L.BadStorageProof); }
      var index := cfg.oracle.digest(t.from + info.value.blockId) % info.value.total;
      if !cfg.shardOk(target, index, shard) { return Some(L.BadStorageProof); }
      var v := validators[t.from];
      if v.score < cfg.storageCap { v := v.(score := v.score + 1); }
      validators := validators[t.from := v.(lastProof := blockHeight)];
      return None;
    }

    method ApplyKind(t: Tx, blockHeight: u64, i: nat) returns (err: Option<L.LedgerError>)
      modifies this`accounts, this`saved, this`validators, this`faucetClaims, this`blockLogs, this`commits
      ensures Result(err, Work()) == L.ApplyKind(cfg, old(Work()), t, blockHeight, i)
    {
      err := None;
      if t.kind == DEPLOY {
        DeployContract(t);
      } else if t.kind == CALL {
        CallContract(t, i);
      } else if t.kind == REGISTER {
        err := RegisterValidator(t, blockHeight);
      } else if t.kind == SLASH {
        err := ApplySlash(t);
      } else if t.kind == UNREGISTER {
        err := UnregisterValidator(t);
      } else if t.kind == FAUCET {
        err := ClaimFaucet(t, blockHeight);
      } else if t.kind == STORAGE_PROOF {
        err := AcceptStorageProof(t, blockHeight);
      } else {
        var _ := Touch(t.to);
        Credit(t.to, t.amount);
      }
    }

    method ApplyTx(t: Tx, blockHeight: u64, i: nat) returns (err: Option<L.LedgerError>)
      modifies this`accounts, this`saved, this`validators, this`faucetClaims, this`blockLogs, this`fees, this`commits
      ensures Result(err, Work()) == L.ApplyTx(cfg, old(Work()), t, blockHeight, i)
    {
      if t.IsCoinbase() { return Some(L.CoinbaseInBody); }
      if !cfg.verify(t) { return Some(L.BadSignature); }
      if t.chainId != cfg.chainId { return Some(L.BadChainId); }
      var from := Enter(t.from);
      if t.nonce != from.nonce { return Some(L.BadNonce); }
      var total := Wrap(t.amount + t.fee);
      if total < t.amount || from.balance < total { return Some(L.Insufficient); }
      Charge(t, from, total);
      err := ApplyKind(t, blockHeight, i);
    }

    method Charge(t: Tx, from: Account, total: u64)
      requires from == Get(accounts, t.from) && total == Wrap(t.amount + t.fee) <= from.balance
      modifies this`accounts, this`fees
      ensures Work() == L.Charged(old(Work()), t)
    {
      accounts := accounts[t.from := from.(balance := from.balance - total, nonce := Wrap(from.nonce + 1))];
      fees := Wrap(fees + t.fee);
    }

    /** Every snapshotted account goes back to its snapshot, and the registry to its backup. */
    method Rollback(valBackup: map<Address, L.Validator>)
      modifies this`accounts, this`validators
      ensures accounts == L.Restored(old(World())) && validators == valBackup
    {
      accounts := Restore(World());
      validators := valBackup;
    }

    method ApplyPayload(payload: seq<Tx>, blockHeight: u64) returns (err: Option<L.LedgerError>)
      modifies this`accounts, this`saved, this`validators, this`faucetClaims, this`blockLogs, this`fees, this`commits
      ensures Result(err, Work()) == L.ApplyTxs(cfg, old(Work()), payload, blockHeight, 0)
    {
      var i := 0;
      while i < |payload|
        invariant 0 <= i <= |payload|
        invariant L.ApplyTxs(cfg, Work(), payload[i..], blockHeight, i)
                  == L.ApplyTxs(cfg, old(Work()), payload, blockHeight, 0)
      {
        err := ApplyNext(payload, blockHeight, i);
        if err.Some? { return; }
        i := i + 1;
      }
      return None;
    }

    /** The next transaction of a payload, and what is left of it. */
    method ApplyNext(payload: seq<Tx>, blockHeight: u64, i: nat) returns (err: Option<L.LedgerError>)
      requires i < |payload|
      modifies this`accounts, this`saved, this`validators, this`faucetClaims, this`blockLogs, this`fees, this`commits
      ensures L.ApplyTxs(cfg, old(Work()), payload[i..], blockHeight, i)
              == if err.Some? then L.Broken(Work(), err.value)
                 else L.ApplyTxs(cfg, Work(), payload[i + 1..], blockHeight, i + 1)
    {
      OneMore(cfg, Work(), payload, blockHeight, i);
      err := ApplyTx(payload[i], blockHeight, i);
    }

    /** Pays the subsidy and the fees. */
    method Settle(b: L.Block, coinbase: Option<Tx>) returns (err: Option<L.LedgerError>)
      requires coinbase == L.CoinbaseOf(b)
      modifies this`accounts, this`saved, this`minted
      ensures Result(err, Work()) == L.Settled(old(Value()), old(Work()), b)
      ensures minted == if err.None? then L.MintedAfter(old(Value()), b) else old(minted)
    {
      var reward := BlockReward(b.height, minted);
      if coinbase.Some? {
        var c := coinbase.value;
        if c.to != b.validator || c.amount != Wrap(reward + fees) { return Some(L.BadCoinbase); }
        var _ := Touch(c.to);
        Credit(c.to, c.amount);
        minted := Wrap(minted + reward);
      } else if Wrap(reward + fees) > 0 && b.validator != [] {
        var _ := Touch(b.validator);
        Credit(b.validator, fees);
      }
      return None;
    }

    /** Applies all transactions in order and pays the validator, or rolls everything back. */
    method ApplyBlock(b: L.Block) returns (err: Option<L.LedgerError>)
      modifies this
      ensures Ended(err, Value()) == L.ApplyBlock(cfg, old(Value()), b)
    {
      saved, blockLogs, fees, commits := map[], [], 0, [];
      var valBackup := validators;
      ghost var s := Value();
      err := ApplyPayload(L.Payload(b), b.height);
      ghost var k := Work();
      if err.Some? {
        BlockBreaks(cfg, s, b, k, err.value);
        Rollback(valBackup);
        return;
      }
      err := Conclude(b, valBackup, s);
    }

    /** Settles a block whose transactions are applied; `s` is the ledger before them. */
    method Conclude(b: L.Block, valBackup: map<Address, L.Validator>, ghost s: L.State)
        returns (err: Option<L.LedgerError>)
      requires L.ApplyTxs(cfg, L.Opened(s), L.Payload(b), b.height, 0) == L.Going(Work())
      requires valBackup == s.validators && height == s.height && minted == s.minted && lastLogs == s.lastLogs
      modifies this
      ensures Ended(err, Value()) == L.ApplyBlock(cfg, s, b)
    {
      ghost var k := Work();
      SettledIgnoresAccounts(s, Value(), k, b);
      err := Settle(b, L.CoinbaseOf(b));
      BlockSettles(cfg, s, b, k, Result(err, Work()));
      if err.Some? {
        Rollback(valBackup);
        return;
      }
      height := b.height;
      lastLogs := blockLogs;
    }
  }

  ghost function Ended(err: Option<L.LedgerError>, s: L.State): (r: L.Outcome)
  {
    if err.Some? then L.Rejected(s, err.value) else L.Accepted(s)
  }

  /** Settling reads the supply of the state a block started from, and nothing else of it. */
  lemma SettledIgnoresAccounts(s: L.State, s': L.State, k: L.Work, b: L.Block)
    requires s'.minted == s.minted
    ensures L.Settled(s', k, b) == L.Settled(s, k, b) && L.MintedAfter(s', b) == L.MintedAfter(s, b)
  {
  }

  lemma BlockBreaks(cfg: L.Config, s: L.State, b: L.Block, k: L.Work, e: L.LedgerError)
    requires L.ApplyTxs(cfg, L.Opened(s), L.Payload(b), b.height, 0) == L.Broken(k, e)
    ensures L.ApplyBlock(cfg, s, b) == L.Rejected(L.RolledBack(s, k), e)
  {
  }

  lemma BlockSettles(cfg: L.Config, s: L.State, b: L.Block, k: L.Work, r: L.Applied)
    requires L.ApplyTxs(cfg, L.Opened(s), L.Payload(b), b.height, 0) == L.Going(k) && L.Settled(s, k, b) == r
    ensures L.ApplyBlock(cfg, s, b)
            == if r.Broken? then L.Rejected(L.RolledBack(s, r.k), r.err) else L.Accepted(L.Closed(s, r.k, b))
  {
  }

  lemma {:induction false} OneMore(cfg: L.Config, k: L.Work, payload: seq<Tx>, height: u64, i: nat)
    requires i < |payload|
    ensures var r := L.ApplyTx(cfg, k, payload[i], height, i);
            L.ApplyTxs(cfg, k, payload[i..], height, i)
            == if r.Broken? then r else L.ApplyTxs(cfg, r.k, payload[i + 1..], height, i + 1)
  {
    assert payload[i..][1..] == payload[i + 1..];
  }

  method Restore(w: World) returns (accounts: map<Address, Account>)
    ensures accounts == L.Restored(w)
  {
    accounts := w.accounts;
    var rest := w.saved.Keys;
    ghost var done: set<Address> := {};
    NoneRestored(w);
    while rest != {}
      invariant rest <= w.saved.Keys && done == w.saved.Keys - rest && accounts == Partly(w, done)
      decreases |rest|
    {
      var a :| a in rest;
      OneRestored(w, done, a);
      if w.saved[a].Some? { accounts := accounts[a := w.saved[a].value]; } else { accounts := accounts - {a}; }
      rest, done := rest - {a}, done + {a};
    }
    AllRestored(w);
    assert done == w.saved.Keys;
  }

  /** The accounts once those in `done` are restored. */
  ghost function Partly(w: World, done: set<Address>): (r: map<Address, Account>)
    requires done <= w.saved.Keys
  {
    map a | a in w.accounts.Keys + w.saved.Keys && (if a in done then w.saved[a].Some? else a in w.accounts)
      :: if a in done then w.saved[a].value else w.accounts[a]
  }

  lemma NoneRestored(w: World)
    ensures Partly(w, {}) == w.accounts
  {
  }

  lemma OneRestored(w: World, done: set<Address>, a: Address)
    requires done <= w.saved.Keys && a in w.saved
    ensures Partly(w, done + {a}) == if w.saved[a].Some? then Partly(w, done)[a := w.saved[a].value]
                                     else Partly(w, done) - {a}
  {
  }

  lemma AllRestored(w: World)
    ensures Partly(w, w.saved.Keys) == L.Restored(w)
  {
  }

  ghost function Result(err: Option<L.LedgerError>, k: L.Work): (r: L.Applied)
  {
    if err.Some? then L.Broken(k, err.value) else L.Going(k)
  }
}
