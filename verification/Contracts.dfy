/** Contract execution: frames of the VM over the accounts, calling each other through a host. */
module Contracts {
  import opened Words
  import opened Txs
  import VM

  datatype Account = Account(balance: u64, nonce: u64, code: seq<byte>, words: map<u64, u64>, blobs: map<u64,
                             seq<byte>>)

  const NO_ACCOUNT := Account(0, 0, [], map[], map[])

  /** The address that iteration over a map meets first, of those it looks for. */
  type Choice = f: set<Address> -> Address | forall s :: s != {} ==> f(s) in s
    ghost witness (s: set<Address>) => if s == {} then [] else var a :| a in s; a

  /** What foreign code supplies. `digest` is be8 of SHA-256; `choose` is the map iteration order that
      decides between contracts with the same digest. */
  datatype Oracle = Oracle(digest: seq<byte> -> u64, choose: Choice)

  /** The storage a successful frame wrote back. */
  datatype Written = Written(addr: Address, words: map<u64, u64>, blobs: map<u64, seq<byte>>)

  /** What a frame may change: the accounts, the block's snapshots and its logs. `commits` is an instrument
      the program does not have: what the frames that succeeded wrote back, in order. */
  datatype World = World(
    accounts: map<Address, Account>, saved: map<Address, Option<Account>>, logs: seq<Log>, commits: seq<Written>)

  function Get(accounts: map<Address, Account>, a: Address): (r: Account)
  {
    if a in accounts then accounts[a] else NO_ACCOUNT
  }

  /** Looking an account up creates it. */
  function Acct(accounts: map<Address, Account>, a: Address): (r: map<Address, Account>)
    ensures a in r && r[a] == Get(accounts, a) && forall x :: Get(r, x) == Get(accounts, x)
  {
    if a in accounts then accounts else accounts[a := NO_ACCOUNT]
  }

  /** The first snapshot of an account in a block is the one that is kept. */
  function Snap(w: World, a: Address): (r: World)
  {
    if a in w.saved then w
    else w.(saved := w.saved[a := if a in w.accounts then Some(w.accounts[a]) else None])
  }

  /**
   The contract with a given digest; none only if there is none. Nothing is used of `choose` but that it
   picks one of those found, and the same one from the same set: so every order of the map is covered,
   as long as it does not change from one execution to the next.
   */
  function Find(o: Oracle, accounts: map<Address, Account>, d: u64): (r: Option<Address>)
    ensures r.Some? ==> Answers(o, accounts, d, r.value)
    ensures r.None? ==> forall a :: !Answers(o, accounts, d, a)
  {
    var found := set a | a in accounts && Answers(o, accounts, d, a);
    assert forall a :: Answers(o, accounts, d, a) ==> a in found;
    if found != {} then Some(o.choose(found)) else None
  }

  predicate Answers(o: Oracle, accounts: map<Address, Account>, d: u64, a: Address)
  {
    a in accounts && accounts[a].code != [] && o.digest(a) == d
  }

  datatype Answer = Answer(world: World, ret: u64, used: u64, ok: bool, spent: nat)

  /** A call of contract `addr`. */
  datatype Request = Request(
    addr: Address, caller: u64, callerAddr: Address, input: seq<byte>, value: u64, gas: u64, depth: nat, txIndex: int)

  function ContextOf(o: Oracle, q: Request, c: Account): (r: VM.Context)
  {
    VM.Context(q.caller, o.digest(q.addr), q.callerAddr, q.addr, q.value, c.balance, q.depth)
  }

  /** A frame that succeeded writes its working copies back and adds its events to the block's. */
  function Commit(w: World, q: Request, m: VM.Machine): (r: World)
  {
    var c := Get(w.accounts, q.addr);
    w.(accounts := w.accounts[q.addr := c.(words := m.work, blobs := m.bwork)],
       logs := w.logs + Events(q, m.logs), commits := w.commits + [Written(q.addr, m.work, m.bwork)])
  }

  function Events(q: Request, logs: seq<seq<u64>>): (r: seq<Log>)
  {
    if logs == [] then [] else [Log(q.addr, logs[0], q.txIndex)] + Events(q, logs[1..])
  }

  function Entered(w: World, a: Address): (r: World)
  {
    Snap(w.(accounts := Acct(w.accounts, a)), a)
  }

  function FrameOf(o: Oracle, w: World, q: Request): (f: VM.Frame<World>)
    requires q.depth <= VM.MAX_DEPTH
    decreases VM.MAX_DEPTH - q.depth, 1
  {
    var c := Get(w.accounts, q.addr);
    VM.Frame(c.code, q.input, q.gas, ContextOf(o, q, c), o.digest,
             VM.Host((w': World, self: u64, target: u64, arg: u64, gas: u64, depth: nat) =>
                       if q.depth < depth <= VM.MAX_DEPTH then Call(o, w', self, target, arg, gas, depth, q.txIndex)
                       else VM.Reply(w', 0, 0, false, 0)))
  }

  /** Runs a contract. A failing frame charges all its gas and commits nothing of its own. */
  function Exec(o: Oracle, w: World, q: Request): (r: Answer)
    requires q.depth <= VM.MAX_DEPTH
    decreases VM.MAX_DEPTH - q.depth, 2
  {
    var w1 := Entered(w, q.addr);
    var c := Get(w1.accounts, q.addr);
    match VM.Run(FrameOf(o, w1, q), w1, VM.Start(c.words, c.blobs))
    case Failure(_, w2, spent) => Answer(w2, 0, q.gas, false, spent)
    case Success(m, ret, _, w2) => Answer(Commit(w2, q, m), ret, m.used, true, m.spent)
  }

  /** A nested call: no value, no caller address; an unknown contract costs nothing. */
  function Call(o: Oracle, w: World, self: u64, target: u64, arg: u64, gas: u64, depth: nat,
      txIndex: int): (r: VM.Reply<World>)
    requires depth <= VM.MAX_DEPTH
    decreases VM.MAX_DEPTH - depth, 3
  {
    match Find(o, w.accounts, target)
    case None => VM.Reply(w, 0, 0, false, 0)
    case Some(addr) =>
      var r := Exec(o, w, Request(addr, self, [], U64Bytes(arg), 0, gas, depth, txIndex));
      if r.ok then VM.Reply(r.world, r.ret, r.used, true, r.spent) else VM.Reply(r.world, 0, gas, false, r.spent)
  }
}
