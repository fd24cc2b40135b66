/**
 What a contract sees when a transaction or another contract calls it, and what of its run reaches the ledger;
 then the sample contracts, deployed and called by transactions.
 */
module CallTxs {
  import opened Words
  import opened Txs
  import opened Contracts
  import L = Ledger
  import Frames
  import Samples
  import Token
  import VM

  /* ----- What the callee sees ----- */

  /** The machine every contract starts on. */
  function Fresh(c: Account): (m: VM.Machine)
  {
    VM.Machine(0, [], c.words, c.blobs, 0, 0, [], 0)
  }

  /** The frame runs this contract's code, and the contract sees its own digest and address, its balance, the
      digest and the address of its caller, and the value it was sent. */
  ghost predicate Sees(f: VM.Frame<World>, o: Oracle, c: Account, self: Address, caller: u64, callerAddr: Address,
      value: u64)
  {
    && f.code == c.code && f.digest == o.digest && f.host.Host?
    && f.ctx.self == o.digest(self) && f.ctx.selfAddr == self && f.ctx.balance == c.balance
    && f.ctx.caller == caller && f.ctx.callerAddr == callerAddr && f.ctx.value == value
  }

  /** One event for each LOG of the frame, in order. */
  ghost predicate Logged(logs: seq<Log>, contract: Address, topics: seq<seq<u64>>, txIndex: int)
  {
    |logs| == |topics| && forall j :: 0 <= j < |logs| ==> logs[j] == Log(contract, topics[j], txIndex)
  }

  lemma {:induction false} EventsAreLogged(q: Request, topics: seq<seq<u64>>)
    ensures Logged(Events(q, topics), q.addr, topics, q.txIndex)
    decreases topics
  {
    if topics != [] {
      EventsAreLogged(q, topics[1..]);
      forall j | 0 <= j < |topics| ensures Events(q, topics)[j] == Log(q.addr, topics[j], q.txIndex) {
        if j > 0 {
          assert Events(q, topics)[j] == Events(q, topics[1..])[j - 1];
          assert topics[j] == topics[1..][j - 1];
        }
      }
    }
  }

  /** Account by account, `w` and `w'` read alike. */
  ghost predicate SameAccounts(w: World, w': World)
  {
    forall a :: Get(w'.accounts, a) == Get(w.accounts, a)
  }

  /** `w'` is what the run leaves, with the words and blobs it wrote in the account of the contract. */
  ghost predicate Writes(x: VM.Outcome<World>, addr: Address, txIndex: int, w': World)
    requires x.Success?
  {
    && (forall a :: Get(w'.accounts, a) == if a == addr
          then Get(x.world.accounts, addr).(words := x.m.work, blobs := x.m.bwork)
          else Get(x.world.accounts, a))
    && x.world.logs <= w'.logs && Logged(w'.logs[|x.world.logs|..], addr, x.m.logs, txIndex)
  }

  lemma {:induction false} CommitWrites(q: Request, x: VM.Outcome<World>)
    requires x.Success?
    ensures Writes(x, q.addr, q.txIndex, Commit(x.world, q, x.m)) == true
  {
    EventsAreLogged(q, x.m.logs);
    assert (x.world.logs + Events(q, x.m.logs))[|x.world.logs|..] == Events(q, x.m.logs);
  }

  lemma {:induction false} ExecIsRun(o: Oracle, w: World, q: Request) returns (f: VM.Frame<World>, w1: World)
    requires q.depth <= VM.MAX_DEPTH
    ensures SameAccounts(w, w1) && w1.logs == w.logs
    ensures Sees(f, o, Get(w.accounts, q.addr), q.addr, q.caller, q.callerAddr, q.value)
            && f.input == q.input && f.gas == q.gas && f.ctx.depth == q.depth
    ensures Exec(o, w, q) == Frames.AnswerTo(VM.Run(f, w1, Fresh(Get(w.accounts, q.addr))), q)
  {
    w1 := Entered(w, q.addr);
    f := FrameOf(o, w1, q);
    Frames.ExecAnswers(o, w, q, w1, Get(w1.accounts, q.addr));
  }

  /** `w'` is `w` with this much more, or less, in two accounts, modulo 2^64. */
  ghost predicate Moves(w: World, w': World, from: Address, to: Address, amount: u64)
  {
    forall a :: Get(w'.accounts, a) == Shifted(Get(w.accounts, a), (if a == to then amount else 0)
                                               - (if a == from then amount else 0))
  }

  function Shifted(c: Account, more: int): (r: Account)
  {
    c.(balance := (c.balance + more) % 0x1_0000_0000_0000_0000)
  }

  lemma PaidMoves(w: World, to: Address, amount: u64)
    ensures var w' := L.Credited(L.Touched(w, to), to, amount);
            (forall a :: Get(w'.accounts, a) == Shifted(Get(w.accounts, a), if a == to then amount else 0))
            && w'.logs == w.logs
  {
  }

  lemma RefundMoves(w: World, from: Address, to: Address, amount: u64)
    ensures Moves(w, L.Credited(L.Debited(w, from, amount), to, amount), from, to, amount)
  {
    var w1 := L.Debited(w, from, amount);
    var w2 := L.Credited(w1, to, amount);
    forall a ensures Get(w2.accounts, a) ==
                     Shifted(Get(w.accounts, a), (if a == to then amount else 0) - (if a == from then amount else 0))
    {
      var less: int, more: int := if a == from then 0 - amount else 0, if a == to then amount else 0;
      assert Get(w1.accounts, a) == Shifted(Get(w.accounts, a), less);
      ShiftedTwice(Get(w.accounts, a), less, more);
    }
  }

  lemma ShiftedTwice(c: Account, x: int, y: int)
    ensures Shifted(Shifted(c, x), y) == Shifted(c, x + y)
  {
  }

  /** What a transaction's call leaves, once its run is known. */
  lemma {:induction false} CalledEnds(cfg: L.Config, w: World, t: Tx, i: nat, w0: World, x: VM.Outcome<World>)
    requires w0 == L.Credited(L.Touched(w, t.to), t.to, t.amount) && Get(w0.accounts, t.to).code != []
    requires Exec(cfg.oracle, w0, L.CallOf(cfg, t, i)) == Frames.AnswerTo(x, L.CallOf(cfg, t, i))
    ensures if x.Success? then Writes(x, t.to, i, L.Called(cfg, w, t, i))
            else Moves(x.world, L.Called(cfg, w, t, i), t.to, t.from, t.amount)
                 && L.Called(cfg, w, t, i).logs == x.world.logs
  {
    if x.Success? {
      CommitWrites(L.CallOf(cfg, t, i), x);
    } else {
      RefundMoves(x.world, t.to, t.from, t.amount);
    }
  }

  /**
   A call transaction runs the contract's code with the sender as caller, the transaction's data, value and gas.
   If the run succeeds, what it wrote is in the contract's account; if it fails, the value is back.
   */
  lemma {:induction false} CallTransaction(cfg: L.Config, w: World, t: Tx, i: nat)
      returns (f: VM.Frame<World>, w1: World)
    requires Get(w.accounts, t.to).code != []
    ensures (forall a :: Get(w1.accounts, a) == Shifted(Get(w.accounts, a), if a == t.to then t.amount else 0))
            && w1.logs == w.logs
    ensures Sees(f, cfg.oracle, Get(w1.accounts, t.to), t.to, cfg.oracle.digest(t.from), t.from, t.amount)
            && f.input == t.data && f.gas == t.gas && f.ctx.depth == 0
    ensures var x := VM.Run(f, w1, Fresh(Get(w1.accounts, t.to)));
            if x.Success? then Writes(x, t.to, i, L.Called(cfg, w, t, i))
            else Moves(x.world, L.Called(cfg, w, t, i), t.to, t.from, t.amount)
                 && L.Called(cfg, w, t, i).logs == x.world.logs
  {
    var w0 := L.Credited(L.Touched(w, t.to), t.to, t.amount);
    var q := L.CallOf(cfg, t, i);
    PaidMoves(w, t.to, t.amount);
    f, w1 := ExecIsRun(cfg.oracle, w0, q);
    var x := VM.Run(f, w1, Fresh(Get(w1.accounts, t.to)));
    CalledEnds(cfg, w, t, i, w0, x);
  }

  /**
   A call from contract to contract runs the code of a contract with the target's digest, with the argument as
   its calldata, no value, and the calling contract's digest as caller. If nobody has that digest nothing runs
   and nothing is charged; a run that fails is charged all the gas it was given.
   */
  lemma {:induction false} NestedCall(
      o: Oracle, w: World, self: u64, target: u64, arg: u64, gas: u64, depth: nat, txIndex: int)
      returns (a: Address, f: VM.Frame<World>, w1: World)
    requires depth <= 8
    ensures (forall b :: !Answers(o, w.accounts, target, b)) ==>
              Call(o, w, self, target, arg, gas, depth, txIndex) == VM.Reply(w, 0, 0, false, 0)
    ensures (exists b :: Answers(o, w.accounts, target, b)) ==>
              && Answers(o, w.accounts, target, a) && SameAccounts(w, w1) && w1.logs == w.logs
              && Sees(f, o, Get(w.accounts, a), a, self, [], 0)
              && f.input == U64Bytes(arg) && f.gas == gas && f.ctx.depth == depth
              && var x := VM.Run(f, w1, Fresh(Get(w.accounts, a)));
                 var r := Call(o, w, self, target, arg, gas, depth, txIndex);
                 if x.Success?
                 then r.ok && r.ret == x.ret && r.gasUsed == x.m.used && Writes(x, a, txIndex, r.world)
                 else r == VM.Reply(x.world, 0, gas, false, x.spent)
  {
    var found := Find(o, w.accounts, target);
    a := if found.Some? then found.value else [];
    var q := Request(a, self, [], U64Bytes(arg), 0, gas, depth, txIndex);
    f, w1 := ExecIsRun(o, w, q);
    var x := VM.Run(f, w1, Fresh(Get(w.accounts, a)));
    if x.Success? { CommitWrites(q, x); }
  }

  /** A contract's host makes exactly these calls, and no deeper ones than eight. */
  lemma {:induction false} HostCalls(o: Oracle, w: World, q: Request, w': World, self: u64, target: u64, arg: u64,
      gas: u64)
    requires q.depth < 8
    ensures FrameOf(o, w, q).host.call(w', self, target, arg, gas, q.depth + 1) ==
            Call(o, w', self, target, arg, gas, q.depth + 1, q.txIndex)
  {
  }

  /* ----- The sample contracts on the ledger ----- */

  /** The code and the storage of every account are as they were. */
  ghost predicate SameStores(w: World, w': World)
  {
    forall a :: var c, c' := Get(w.accounts, a), Get(w'.accounts, a);
                c'.code == c.code && c'.words == c.words && c'.blobs == c.blobs
  }

  /** The code and the storage of every account are as they were, but for the storage of this one. */
  ghost predicate StoresBecome(w: World, w': World, to: Address, words: map<u64, u64>, blobs: map<u64, seq<byte>>)
  {
    forall a :: var c, c' := Get(w.accounts, a), Get(w'.accounts, a);
                && c'.code == c.code && c'.words == (if a == to then words else c.words)
                && c'.blobs == (if a == to then blobs else c.blobs)
  }

  /** The ledger an applied call finds: its sender has paid. */
  function Paid(k: L.Work, t: Tx): (w: World)
    ensures SameStores(k.world, w)
  {
    L.Charged(k.(world := Entered(k.world, t.from)), t).world
  }

  lemma {:induction false} CallGoes(cfg: L.Config, k: L.Work, t: Tx, height: u64, i: nat)
    requires t.kind == 2
    ensures var r := L.ApplyTx(cfg, k, t, height, i); r.Going? ==> r.k.world == L.Called(cfg, Paid(k, t), t, i)
  {
  }

  /** How a call of a contract runs, and what of it is in the storage of the accounts. */
  lemma {:induction false} CallRuns(cfg: L.Config, w0: World, t: Tx, i: nat, w': World)
      returns (f: VM.Frame<World>, w: World, x: VM.Outcome<World>, m: VM.Machine)
    requires w' == L.Called(cfg, w0, t, i) && Get(w0.accounts, t.to).code != []
    ensures x == VM.Run(f, w, m) && m == Fresh(Get(w.accounts, t.to)) && SameStores(w0, w)
    ensures Sees(f, cfg.oracle, Get(w.accounts, t.to), t.to, cfg.oracle.digest(t.from), t.from, t.amount)
            && f.input == t.data && f.gas == t.gas
    ensures if x.Success? then StoresBecome(x.world, w', t.to, x.m.work, x.m.bwork) else SameStores(x.world, w')
  {
    f, w := CallTransaction(cfg, w0, t, i);
    m := Fresh(Get(w.accounts, t.to));
    x := VM.Run(f, w, m);
  }

  lemma SameStoresInTurn(w: World, w1: World, w2: World, to: Address, words: map<u64, u64>, blobs: map<u64, seq<byte>>)
    requires SameStores(w, w1)
    ensures StoresBecome(w1, w2, to, words, blobs) ==> StoresBecome(w, w2, to, words, blobs)
    ensures SameStores(w1, w2) ==> SameStores(w, w2)
  {
  }

  /** What a call of the counter makes of the storage of the accounts. */
  ghost predicate Counted(w: World, w': World, t: Tx)
  {
    var c := Get(w.accounts, t.to);
    if t.gas < 131 then SameStores(w, w')
    else StoresBecome(w, w', t.to, c.words[0 := (Samples.Cell(c.words, 0) + 1) % 0x1_0000_0000_0000_0000], c.blobs)
  }

  lemma CounterEnds(w0: World, w: World, w': World, t: Tx, x: VM.Outcome<World>)
    requires SameStores(w0, w) && Samples.Counts(t.gas, w, Fresh(Get(w.accounts, t.to)), x)
    requires if x.Success? then StoresBecome(x.world, w', t.to, x.m.work, x.m.bwork) else SameStores(x.world, w')
    ensures Counted(w0, w', t) == true
  {
  }

  lemma {:induction false} CounterRuns(cfg: L.Config, w0: World, t: Tx, i: nat, w': World)
    requires w' == L.Called(cfg, w0, t, i) && Samples.IsCounter(Get(w0.accounts, t.to).code)
    ensures Counted(w0, w', t) == true
  {
    var f, w, x, m := CallRuns(cfg, w0, t, i, w');
    Samples.CounterCounts(f, w, m);
    CounterEnds(w0, w, w', t, x);
  }

  /**
   A transaction that calls the counter adds one, modulo 2^64, to the word under key 0 if it carries 131 gas, and
   changes no other storage; with less gas it changes none.
   */
  lemma {:induction false} CounterTx(cfg: L.Config, k: L.Work, t: Tx, height: u64, i: nat)
    requires t.kind == 2 && Samples.IsCounter(Get(k.world.accounts, t.to).code)
    ensures var r := L.ApplyTx(cfg, k, t, height, i); r.Going? ==> Counted(k.world, r.k.world, t)
  {
    CallGoes(cfg, k, t, height, i);
    CounterPaid(cfg, k, t, i, L.Called(cfg, Paid(k, t), t, i));
  }

  lemma {:induction false} CounterPaid(cfg: L.Config, k: L.Work, t: Tx, i: nat, w': World)
    requires w' == L.Called(cfg, Paid(k, t), t, i) && Samples.IsCounter(Get(k.world.accounts, t.to).code)
    ensures Counted(k.world, w', t) == true
  {
    CounterRuns(cfg, Paid(k, t), t, i, w');
    CountedFrom(k.world, Paid(k, t), w', t);
  }

  lemma CountedFrom(w: World, w0: World, w': World, t: Tx)
    requires SameStores(w, w0) && Counted(w0, w', t)
    ensures Counted(w, w', t)
  {
  }

  /** The transfer's check lets the sender pass: he owns the token, or the id is that of the scratch key. */
  ghost predicate MayTransfer(c: Account, t: Tx)
  {
    var id := Token.Id(t.data);
    id == Token.SCRATCH || (if id in c.blobs then c.blobs[id] else []) == t.from
  }

  /** What a transfer makes of the storage of the accounts. */
  ghost predicate Transferred(w: World, w': World, t: Tx)
  {
    var c := Get(w.accounts, t.to);
    if MayTransfer(c, t) && t.gas >= 267 && |t.data| >= 58
    then StoresBecome(w, w', t.to, c.words, c.blobs[Token.SCRATCH := t.from][Token.Id(t.data) := t.data[16..58]])
    else SameStores(w, w')
  }

  lemma TransferEnds(w0: World, w: World, w': World, t: Tx, f: VM.Frame<World>, x: VM.Outcome<World>)
    requires SameStores(w0, w) && Token.HandsOn(f, w, Fresh(Get(w.accounts, t.to)), x)
    requires f.input == t.data && f.gas == t.gas && f.ctx.callerAddr == t.from
    requires if x.Success? then StoresBecome(x.world, w', t.to, x.m.work, x.m.bwork) else SameStores(x.world, w')
    ensures Transferred(w0, w', t) == true
  {
  }

  lemma {:induction false} TransferRuns(cfg: L.Config, w0: World, t: Tx, i: nat, w': World)
    requires w' == L.Called(cfg, w0, t, i) && Token.IsToken(Get(w0.accounts, t.to).code)
    requires VM.SliceSized(t.data) && Token.Arg(t.data, 0) == 1
    ensures Transferred(w0, w', t) == true
  {
    var f, w, x, m := CallRuns(cfg, w0, t, i, w');
    Token.TransferEnds(f, w, m);
    TransferEnds(w0, w, w', t, f, x);
  }

  /**
   A transaction that asks the token for a transfer leaves every owner, and all other storage, as it was, unless
   its sender owns the token, it carries 267 gas and its data hold a whole address; then that address owns it.
   */
  lemma {:induction false} TransferTx(cfg: L.Config, k: L.Work, t: Tx, height: u64, i: nat)
    requires t.kind == 2 && Token.IsToken(Get(k.world.accounts, t.to).code)
    requires VM.SliceSized(t.data) && Token.Arg(t.data, 0) == 1
    ensures var r := L.ApplyTx(cfg, k, t, height, i); r.Going? ==> Transferred(k.world, r.k.world, t)
  {
    CallGoes(cfg, k, t, height, i);
    TransferPaid(cfg, k, t, i, L.Called(cfg, Paid(k, t), t, i));
  }

  lemma {:induction false} TransferPaid(cfg: L.Config, k: L.Work, t: Tx, i: nat, w': World)
    requires w' == L.Called(cfg, Paid(k, t), t, i) && Token.IsToken(Get(k.world.accounts, t.to).code)
    requires VM.SliceSized(t.data) && Token.Arg(t.data, 0) == 1
    ensures Transferred(k.world, w', t) == true
  {
    TransferRuns(cfg, Paid(k, t), t, i, w');
    TransferredFrom(k.world, Paid(k, t), w', t);
  }

  lemma TransferredFrom(w: World, w0: World, w': World, t: Tx)
    requires SameStores(w, w0) && Transferred(w0, w', t)
    ensures Transferred(w, w', t)
  {
  }
}
