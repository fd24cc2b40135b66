/** The ledger transition: what a block makes of accounts, validators and supply, or why it is refused. */
module Ledger {
  import opened Words
  import opened Txs
  import opened Economy
  import opened Contracts
  import opened Frames
  import VM

  datatype Validator = Validator(bond: u64, active: bool, since: u64, slashed: bool, score: u64, lastProof: u64)

  datatype State = State(
    accounts: map<Address, Account>, validators: map<Address, Validator>, height: u64, minted: u64,
    claims: map<Address, u64>, lastLogs: seq<Log>)

  datatype Block = Block(height: u64, validator: Address, txs: seq<Tx>)

  datatype ShardInfo = ShardInfo(blockId: seq<byte>, total: int)

  /** Protocol parameters and foreign code: signatures, proofs of work, evidence, stored headers. */
  datatype Config = Config(
    chainId: u64, oracle: Oracle,
    verify: Tx -> bool,
    contractAddress: (Address, u64) -> Address,
    regPow: (Address, u64) -> bool,
    evidence: seq<byte> -> Option<Address>,
    faucetAmount: u64, faucetCooldown: u64, faucetDepth: u64, faucetSource: Address,
    anchor: Option<u64 -> Option<seq<byte>>>,
    faucetPow: (Address, seq<byte>, u64) -> bool,
    storageWindow: u64, storageMinDepth: u64, storageCap: u64,
    shardAt: Option<u64 -> Option<ShardInfo>>,
    shardOk: (u64, int, seq<byte>) -> bool)

  datatype LedgerError =
    | CoinbaseInBody | BadSignature | BadChainId | BadNonce | Insufficient | BadRegPow | BondTooLow | AlreadyValidator
    | NotValidator | BadEvidence | FaucetDisabled | BadFaucet | BadFaucetPow | FaucetCooldown | FaucetDry
    | StorageDisabled | BadStorageProof | BadCoinbase

  /** A block in progress. */
  datatype Work = Work(world: World, validators: map<Address, Validator>, claims: map<Address, u64>, fees: u64)

  datatype Applied = Going(k: Work) | Broken(k: Work, err: LedgerError)

  /* ----- Accounts ----- */

  function Touched(w: World, a: Address): (r: World)
  {
    var s := Snap(w, a);
    s.(accounts := Acct(s.accounts, a))
  }

  function Credited(w: World, a: Address, x: u64): (r: World)
  {
    var c := Get(w.accounts, a);
    w.(accounts := w.accounts[a := c.(balance := Wrap(c.balance + x))])
  }

  function Debited(w: World, a: Address, x: u64): (r: World)
  {
    var c := Get(w.accounts, a);
    w.(accounts := w.accounts[a := c.(balance := Wrap(c.balance - x))])
  }

  /* ----- Transactions ----- */

  function ApplyTx(cfg: Config, k: Work, t: Tx, height: u64, i: nat): (r: Applied)
  {
    if t.IsCoinbase() then Broken(k, CoinbaseInBody)
    else if !cfg.verify(t) then Broken(k, BadSignature)
    else if t.chainId != cfg.chainId then Broken(k, BadChainId)
    else
      var k1 := k.(world := Entered(k.world, t.from));
      var from, total := Get(k1.world.accounts, t.from), Wrap(t.amount + t.fee);
      if t.nonce != from.nonce then Broken(k1, BadNonce)
      else if total < t.amount || from.balance < total then Broken(k1, Insufficient)
      else ApplyKind(cfg, Charged(k1, t), t, height, i)
  }

  /** Value and fee debited, nonce bumped. */
  function Charged(k: Work, t: Tx): (r: Work)
  {
    var from := Get(k.world.accounts, t.from);
    var paid := from.(balance := Wrap(from.balance - Wrap(t.amount + t.fee)), nonce := Wrap(from.nonce + 1));
    k.(world := k.world.(accounts := k.world.accounts[t.from := paid]), fees := Wrap(k.fees + t.fee))
  }

  function ApplyKind(cfg: Config, k: Work, t: Tx, height: u64, i: nat): (r: Applied)
  {
    if t.kind == DEPLOY then Going(k.(world := Deployed(cfg, k.world, t)))
    else if t.kind == CALL then Going(k.(world := Called(cfg, k.world, t, i)))
    else if t.kind == REGISTER then Register(cfg, k, t, height)
    else if t.kind == SLASH then Slash(cfg, k, t)
    else if t.kind == UNREGISTER then Unregister(k, t)
    else if t.kind == FAUCET then Faucet(cfg, k, t, height)
    else if t.kind == STORAGE_PROOF then ProveStorage(cfg, k, t, height)
    else Going(k.(world := Credited(Touched(k.world, t.to), t.to, t.amount)))
  }

  function Deployed(cfg: Config, w: World, t: Tx): (r: World)
  {
    var a := cfg.contractAddress(t.from, t.nonce);
    var w1 := Touched(w, a);
    var c := Get(w1.accounts, a);
    w1.(accounts := w1.accounts[a := c.(code := t.data, balance := Wrap(c.balance + t.amount))])
  }

  function CallOf(cfg: Config, t: Tx, i: nat): (q: Request)
  {
    Request(t.to, cfg.oracle.digest(t.from), t.from, t.data, t.amount, t.gas, 0, i)
  }

  /** Calling a non-contract is a transfer; a failed call is refunded, the fee is not. */
  function Called(cfg: Config, w: World, t: Tx, i: nat): (r: World)
  {
    var w1 := Credited(Touched(w, t.to), t.to, t.amount);
    if Get(w1.accounts, t.to).code == [] then w1
    else
      var x := Exec(cfg.oracle, w1, CallOf(cfg, t, i));
      if x.ok then x.world else Credited(Debited(x.world, t.to, t.amount), t.from, t.amount)
  }

  function Register(cfg: Config, k: Work, t: Tx, height: u64): (r: Applied)
  {
    var nonce := if |t.data| >= 8 then BytesU64(t.data[..8]) else 0;
    if !cfg.regPow(t.from, nonce) then Broken(k, BadRegPow)
    else if t.amount < MIN_BOND then Broken(k, BondTooLow)
    else if t.from in k.validators
    && (k.validators[t.from].active || k.validators[t.from].slashed) then Broken(k, AlreadyValidator)
    else Going(k.(validators := k.validators[t.from := Validator(t.amount, true, height, false, 0, 0)]))
  }

  /** A tenth of the bond goes to the reporter; the rest is burned. */
  function Slash(cfg: Config, k: Work, t: Tx): (r: Applied)
  {
    match cfg.evidence(t.data)
    case None => Broken(k, BadEvidence)
    case Some(a) =>
      if a !in k.validators || !k.validators[a].active then Broken(k, NotValidator)
      else
        var v := k.validators[a];
        Going(k.(world := Credited(Touched(k.world, t.from), t.from, v.bond / 10),
                 validators := k.validators[a := Validator(0, false, v.since, true, 0, 0)]))
  }

  function Unregister(k: Work, t: Tx): (r: Applied)
  {
    if t.from !in k.validators || !k.validators[t.from].active then Broken(k, NotValidator)
    else
      var bond := k.validators[t.from].bond;
      Going(k.(world := Credited(k.world.(accounts := Acct(k.world.accounts, t.from)), t.from, Wrap(bond + t.amount)),
               validators := k.validators - {t.from}))
  }

  function Faucet(cfg: Config, k: Work, t: Tx, height: u64): (r: Applied)
  {
    if cfg.faucetAmount == 0 || cfg.anchor.None? then Broken(k, FaucetDisabled)
    else if |t.data| < 16 then Broken(k, BadFaucet)
    else
      var at, nonce := BytesU64(t.data[..8]), BytesU64(t.data[8..16]);
      if Wrap(at + cfg.faucetDepth) > height || Wrap(at + 256) < height then Broken(k, BadFaucet)
      else
        var anchor := cfg.anchor.value(at);
        if anchor.None? then Broken(k, BadFaucet)
        else if !cfg.faucetPow(t.from, anchor.value, nonce) then Broken(k, BadFaucetPow)
        else if t.from in k.claims
        && height < Wrap(k.claims[t.from] + cfg.faucetCooldown) then Broken(k, FaucetCooldown)
        else FaucetPays(cfg, k, t, height)
  }

  function FaucetPays(cfg: Config, k: Work, t: Tx, height: u64): (r: Applied)
  {
    var w := k.world.(accounts := Acct(k.world.accounts, cfg.faucetSource));
    if Get(w.accounts, cfg.faucetSource).balance < cfg.faucetAmount then Broken(k.(world := w), FaucetDry)
    else
      var w1 := Debited(Snap(w, cfg.faucetSource), cfg.faucetSource, cfg.faucetAmount);
      Going(k.(world := Credited(w1, t.from, cfg.faucetAmount), claims := k.claims[t.from := height]))
  }

  function ProveStorage(cfg: Config, k: Work, t: Tx, height: u64): (r: Applied)
  {
    if cfg.shardAt.None? then Broken(k, StorageDisabled)
    else if t.from !in k.validators || !k.validators[t.from].active then Broken(k, NotValidator)
    else if |t.data| < 8 then Broken(k, BadStorageProof)
    else
      var target := BytesU64(t.data[..8]);
      if target >= height || Wrap(target + cfg.storageWindow) < height
      || height - target < cfg.storageMinDepth then Broken(k, BadStorageProof)
      else
        var info := cfg.shardAt.value(target);
        if info.None? || info.value.total <= 0 then Broken(k, BadStorageProof)
        else
          var index := cfg.oracle.digest(t.from + info.value.blockId) % info.value.total;
          if !cfg.shardOk(target, index, t.data[8..]) then Broken(k, BadStorageProof)
          else
            var v := k.validators[t.from];
            var score := if v.score < cfg.storageCap then v.score + 1 else v.score;
            Going(k.(validators := k.validators[t.from := v.(score := score, lastProof := height)]))
  }

  function ApplyTxs(cfg: Config, k: Work, txs: seq<Tx>, height: u64, i: nat): (r: Applied)
    decreases txs
  {
    if txs == [] then Going(k)
    else
      match ApplyTx(cfg, k, txs[0], height, i)
      case Broken(k1, e) => Broken(k1, e)
      case Going(k1) => ApplyTxs(cfg, k1, txs[1..], height, i + 1)
  }

  /* ----- Blocks ----- */

  datatype Outcome = Accepted(s: State) | Rejected(s: State, err: LedgerError)

  function CoinbaseOf(b: Block): (c: Option<Tx>)
  {
    if b.txs != [] && b.txs[0].IsCoinbase() then Some(b.txs[0]) else None
  }

  function Payload(b: Block): (txs: seq<Tx>)
  {
    if CoinbaseOf(b).Some? then b.txs[1..] else b.txs
  }

  function Opened(s: State): (k: Work)
  {
    Work(World(s.accounts, map[], [], []), s.validators, s.claims, 0)
  }

  /** Every account that was snapshotted goes back to its snapshot. */
  function Restored(w: World): (r: map<Address, Account>)
    ensures forall a :: Get(r, a) == Undone(w, a)
  {
    map a | a in w.accounts.Keys + w.saved.Keys && (a in w.saved ==> w.saved[a].Some?)
      :: if a in w.saved then w.saved[a].value else w.accounts[a]
  }

  /** Accounts and validators are rolled back; faucet claims are not. */
  function RolledBack(s: State, k: Work): (r: State)
  {
    s.(accounts := Restored(k.world), claims := k.claims)
  }

  /** The subsidy and the fees go to the block's validator. */
  function Settled(s: State, k: Work, b: Block): (r: Applied)
  {
    var reward := BlockReward(b.height, s.minted);
    match CoinbaseOf(b)
    case Some(c) =>
      if c.to != b.validator || c.amount != Wrap(reward + k.fees) then Broken(k, BadCoinbase)
      else Going(k.(world := Credited(Touched(k.world, c.to), c.to, c.amount)))
    case None =>
      if Wrap(reward + k.fees) > 0 && b.validator != [] then
        Going(k.(world := Credited(Touched(k.world, b.validator), b.validator, k.fees)))
      else Going(k)
  }

  function MintedAfter(s: State, b: Block): (m: u64)
  {
    if CoinbaseOf(b).Some? then Wrap(s.minted + BlockReward(b.height, s.minted)) else s.minted
  }

  function Closed(s: State, k: Work, b: Block): (r: State)
  {
    State(k.world.accounts, k.validators, b.height, MintedAfter(s, b), k.claims, k.world.logs)
  }

  function ApplyBlock(cfg: Config, s: State, b: Block): (r: Outcome)
  {
    match ApplyTxs(cfg, Opened(s), Payload(b), b.height, 0)
    case Broken(k, e) => Rejected(RolledBack(s, k), e)
    case Going(k) =>
      match Settled(s, k, b)
      case Broken(k1, e) => Rejected(RolledBack(s, k1), e)
      case Going(k1) => Accepted(Closed(s, k1, b))
  }
}
