/**
 Ledgers that read alike run alike: accounts matter only as `Get` sees them, so entries a rollback
 leaves empty change nothing of what later blocks do.
 */
module Alike {
  import opened Words
  import opened Txs
  import opened Economy
  import opened Contracts
  import opened Frames
  import opened VmRuns
  import opened Ledger
  import Atomic
  import VM

  /* ----- Worlds ----- */

  function Before(saved: Option<Account>): (c: Account)
  {
    if saved.Some? then saved.value else NO_ACCOUNT
  }

  ghost predicate SameAccounts(m: map<Address, Account>, m': map<Address, Account>)
  {
    forall a {:trigger Get(m', a)} :: Get(m', a) == Get(m, a)
  }

  ghost predicate SameSaved(m: map<Address, Option<Account>>, m': map<Address, Option<Account>>)
  {
    m.Keys == m'.Keys && forall a {:trigger m'[a]} :: a in m ==> Before(m'[a]) == Before(m[a])
  }

  ghost predicate SameWorld(w: World, w': World)
  {
    SameAccounts(w.accounts, w'.accounts) && SameSaved(w.saved, w'.saved) && w'.logs == w.logs
    && w'.commits == w.commits
  }

  lemma SameWrite(w: World, w': World, a: Address, c: Account)
    requires SameWorld(w, w')
    ensures SameWorld(w.(accounts := w.accounts[a := c]), w'.(accounts := w'.accounts[a := c]))
  {
    var m, m' := w.accounts[a := c], w'.accounts[a := c];
    forall x ensures Get(m', x) == Get(m, x) {
      if x != a { assert Get(m', x) == Get(w'.accounts, x) && Get(m, x) == Get(w.accounts, x); }
    }
  }

  lemma SameAcct(w: World, w': World, a: Address)
    requires SameWorld(w, w')
    ensures SameWorld(w.(accounts := Acct(w.accounts, a)), w'.(accounts := Acct(w'.accounts, a)))
  {
    var m, m' := Acct(w.accounts, a), Acct(w'.accounts, a);
    forall x ensures Get(m', x) == Get(m, x) { assert Get(w'.accounts, x) == Get(w.accounts, x); }
  }

  lemma SameSnap(w: World, w': World, a: Address)
    requires SameWorld(w, w')
    ensures SameWorld(Snap(w, a), Snap(w', a))
  {
    assert Get(w'.accounts, a) == Get(w.accounts, a);
    var s, s' := Snap(w, a).saved, Snap(w', a).saved;
    forall x | x in s ensures Before(s'[x]) == Before(s[x]) {
      if x in w.saved { assert Before(w'.saved[x]) == Before(w.saved[x]); }
    }
  }

  lemma SameEntered(w: World, w': World, a: Address)
    requires SameWorld(w, w')
    ensures SameWorld(Entered(w, a), Entered(w', a)) == true
  {
    SameAcct(w, w', a);
    SameSnap(w.(accounts := Acct(w.accounts, a)), w'.(accounts := Acct(w'.accounts, a)), a);
  }

  lemma SameTouched(w: World, w': World, a: Address)
    requires SameWorld(w, w')
    ensures SameWorld(Touched(w, a), Touched(w', a)) == true
  {
    SameSnap(w, w', a);
    SameAcct(Snap(w, a), Snap(w', a), a);
  }

  lemma SameCredit(w: World, w': World, a: Address, x: u64)
    requires SameWorld(w, w')
    ensures SameWorld(Credited(w, a, x), Credited(w', a, x)) && SameWorld(Debited(w, a, x), Debited(w', a, x))
  {
    assert Get(w'.accounts, a) == Get(w.accounts, a);
    var c := Get(w.accounts, a);
    SameWrite(w, w', a, c.(balance := Wrap(c.balance + x)));
    SameWrite(w, w', a, c.(balance := Wrap(c.balance - x)));
  }

  lemma SamePaid(w: World, w': World, a: Address, x: u64)
    requires SameWorld(w, w')
    ensures SameWorld(Credited(Touched(w, a), a, x), Credited(Touched(w', a), a, x)) == true
  {
    SameTouched(w, w', a);
    SameCredit(Touched(w, a), Touched(w', a), a, x);
  }

  /* ----- Contracts ----- */

  lemma SameFind(o: Oracle, w: World, w': World, d: u64)
    requires SameWorld(w, w')
    ensures Find(o, w'.accounts, d) == Find(o, w.accounts, d)
  {
    forall a ensures Answers(o, w'.accounts, d, a) == Answers(o, w.accounts, d, a) {
      assert Get(w'.accounts, a) == Get(w.accounts, a);
    }
    assert (set a | a in w'.accounts && Answers(o, w'.accounts, d, a))
           == set a | a in w.accounts && Answers(o, w.accounts, d, a);
  }

  lemma SameCommit(w: World, w': World, q: Request, m: VM.Machine)
    requires SameWorld(w, w')
    ensures SameWorld(Commit(w, q, m), Commit(w', q, m)) == true
  {
    assert Get(w'.accounts, q.addr) == Get(w.accounts, q.addr);
    SameWrite(w, w', q.addr, Get(w.accounts, q.addr).(words := m.work, blobs := m.bwork));
  }

  ghost predicate SameReply(r: VM.Reply<World>, r': VM.Reply<World>)
  {
    SameWorld(r.world, r'.world) && r'.ret == r.ret && r'.gasUsed == r.gasUsed && r'.ok == r.ok && r'.spent == r.spent
  }

  ghost predicate HostRespects(h: VM.Host<World>)
  {
    h.Host? ==> forall w: World, w': World, self: u64, target: u64, arg: u64, gas: u64, depth: nat ::
      SameWorld(w, w') ==>
          SameReply(h.call(w, self, target, arg, gas, depth), h.call(w', self, target, arg, gas, depth))
  }

  ghost predicate SameOutcome(a: VM.Outcome<World>, b: VM.Outcome<World>)
  {
    match a
    case Success(m, ret, rb, w) => b.Success? && b.m == m && b.ret == ret && b.retBytes == rb && SameWorld(w, b.world)
    case Failure(e, w, spent) => b.Failure? && b.err == e && b.spent == spent && SameWorld(w, b.world)
  }

  lemma SameResume(f: VM.Frame<World>, m: VM.Machine, r: VM.Reply<World>, r': VM.Reply<World>)
    requires SameReply(r, r')
    ensures VM.Resume(f, m, r') == VM.Resume(f, m, r)
  {
  }

  /** A run sees of the world what its calls answer, and nothing else. */
  lemma {:induction false} RunRespects(f: VM.Frame<World>, w: World, w': World, m: VM.Machine)
    requires HostRespects(f.host) && SameWorld(w, w') == true
    ensures SameOutcome(VM.Run(f, w, m), VM.Run(f, w', m)) == true
    decreases VM.MAX_STEPS - m.steps
  {
    if m.pc < |f.code| {
      VM.StepCounts(f, m);
      var s := VM.Step(f, m);
      if s.Invoke? {
        var r := f.host.call(w, f.ctx.self, s.target, s.arg, s.forward, f.ctx.depth + 1);
        var r' := f.host.call(w', f.ctx.self, s.target, s.arg, s.forward, f.ctx.depth + 1);
        var t := VM.Resume(f, s.m, r);
        assert SameReply(r, r');
        SameResume(f, s.m, r, r');
        ResumeGoesOn(f, s.m, r);
        RunInvokes(f, w, m, s, r, t);
        RunInvokes(f, w', m, s, r', t);
        if t.Next? { RunRespects(f, r.world, r'.world, t.m); }
      } else {
        RunSteps(f, w, m, s);
        RunSteps(f, w', m, s);
        if s.Next? { RunRespects(f, w, w', s.m); }
      }
    }
  }

  ghost predicate SameAnswer(r: Answer, r': Answer)
  {
    SameWorld(r.world, r'.world) && r' == r.(world := r'.world)
  }

  lemma {:induction false} ExecRespects(o: Oracle, w: World, w': World, q: Request)
    requires q.depth <= VM.MAX_DEPTH && SameWorld(w, w') == true
    ensures SameAnswer(Exec(o, w, q), Exec(o, w', q)) == true
    decreases VM.MAX_DEPTH - q.depth, 0
  {
    SameEntered(w, w', q.addr);
    var w1, w2 := Entered(w, q.addr), Entered(w', q.addr);
    assert Get(w2.accounts, q.addr) == Get(w1.accounts, q.addr);
    var c, f := Get(w1.accounts, q.addr), FrameOf(o, w1, q);
    assert FrameOf(o, w2, q) == f;
    forall x: World, x': World, self: u64, target: u64, arg: u64, gas: u64, depth: nat | SameWorld(x, x')
      ensures SameReply(f.host.call(x, self, target, arg, gas, depth), f.host.call(x', self, target, arg, gas, depth))
    {
      if q.depth < depth <= VM.MAX_DEPTH { CallRespects(o, x, x', self, target, arg, gas, depth, q.txIndex); }
    }
    RunRespects(f, w1, w2, VM.Start(c.words, c.blobs));
    AnswersAlike(VM.Run(f, w1, VM.Start(c.words, c.blobs)), VM.Run(f, w2, VM.Start(c.words, c.blobs)), q);
  }

  lemma AnswersAlike(r: VM.Outcome<World>, r': VM.Outcome<World>, q: Request)
    requires SameOutcome(r, r')
    ensures SameAnswer(AnswerTo(r, q), AnswerTo(r', q)) == true
  {
    if r.Success? { SameCommit(r.world, r'.world, q, r.m); }
  }

  lemma {:induction false} CallRespects(o: Oracle, w: World, w': World, self: u64, target: u64, arg: u64, gas: u64,
      depth: nat, txIndex: int)
    requires depth <= VM.MAX_DEPTH && SameWorld(w, w') == true
    ensures SameReply(Call(o, w, self, target, arg, gas, depth, txIndex),
                      Call(o, w', self, target, arg, gas, depth, txIndex))
            == true
    decreases VM.MAX_DEPTH - depth, 1
  {
    SameFind(o, w, w', target);
    var found := Find(o, w.accounts, target);
    if found.Some? { ExecRespects(o, w, w', Request(found.value, self, [], U64Bytes(arg), 0, gas, depth, txIndex)); }
  }

  /* ----- Transactions ----- */

  ghost predicate SameWork(k: Work, k': Work)
  {
    SameWorld(k.world, k'.world) && k'.validators == k.validators && k'.claims == k.claims && k'.fees == k.fees
  }

  ghost predicate SameApplied(r: Applied, r': Applied)
  {
    SameWork(r.k, r'.k) && r'.Going? == r.Going? && (r.Broken? ==> r'.err == r.err)
  }

  lemma DeployRespects(cfg: Config, w: World, w': World, t: Tx)
    requires SameWorld(w, w')
    ensures SameWorld(Deployed(cfg, w, t), Deployed(cfg, w', t)) == true
  {
    var a := cfg.contractAddress(t.from, t.nonce);
    SameTouched(w, w', a);
    var w1, w2 := Touched(w, a), Touched(w', a);
    assert Get(w2.accounts, a) == Get(w1.accounts, a);
    var c := Get(w1.accounts, a);
    SameWrite(w1, w2, a, c.(code := t.data, balance := Wrap(c.balance + t.amount)));
  }

  lemma CalledRespects(cfg: Config, w: World, w': World, t: Tx, i: nat)
    requires SameWorld(w, w')
    ensures SameWorld(Called(cfg, w, t, i), Called(cfg, w', t, i)) == true
  {
    SamePaid(w, w', t.to, t.amount);
    var w1, w2 := Credited(Touched(w, t.to), t.to, t.amount), Credited(Touched(w', t.to), t.to, t.amount);
    assert Get(w2.accounts, t.to) == Get(w1.accounts, t.to);
    if Get(w1.accounts, t.to).code != [] {
      ExecRespects(cfg.oracle, w1, w2, CallOf(cfg, t, i));
      var x, y := Exec(cfg.oracle, w1, CallOf(cfg, t, i)).world, Exec(cfg.oracle, w2, CallOf(cfg, t, i)).world;
      SameCredit(x, y, t.to, t.amount);
      SameCredit(Debited(x, t.to, t.amount), Debited(y, t.to, t.amount), t.from, t.amount);
    }
  }

  lemma SlashRespects(cfg: Config, k: Work, k': Work, t: Tx)
    requires SameWork(k, k')
    ensures SameApplied(Slash(cfg, k, t), Slash(cfg, k', t)) == true
  {
    var a := cfg.evidence(t.data);
    if a.Some? && a.value in k.validators { SamePaid(k.world, k'.world, t.from, k.validators[a.value].bond / 10); }
  }

  lemma UnregisterRespects(k: Work, k': Work, t: Tx)
    requires SameWork(k, k')
    ensures SameApplied(Unregister(k, t), Unregister(k', t)) == true
  {
    SameAcct(k.world, k'.world, t.from);
    if t.from in k.validators {
      SameCredit(k.world.(accounts := Acct(k.world.accounts, t.from)),
                 k'.world.(accounts := Acct(k'.world.accounts, t.from)),
                 t.from, Wrap(k.validators[t.from].bond + t.amount));
    }
  }

  lemma FaucetPaysRespects(cfg: Config, k: Work, k': Work, t: Tx, height: u64)
    requires SameWork(k, k')
    ensures SameApplied(FaucetPays(cfg, k, t, height), FaucetPays(cfg, k', t, height)) == true
  {
    var a := cfg.faucetSource;
    SameAcct(k.world, k'.world, a);
    var w, w' := k.world.(accounts := Acct(k.world.accounts, a)), k'.world.(accounts := Acct(k'.world.accounts, a));
    assert Get(w'.accounts, a) == Get(w.accounts, a);
    SameSnap(w, w', a);
    SameCredit(Snap(w, a), Snap(w', a), a, cfg.faucetAmount);
    SameCredit(Debited(Snap(w, a), a, cfg.faucetAmount), Debited(Snap(w', a), a, cfg.faucetAmount), t.from,
               cfg.faucetAmount);
  }

  lemma FaucetRespects(cfg: Config, k: Work, k': Work, t: Tx, height: u64)
    requires SameWork(k, k')
    ensures SameApplied(Faucet(cfg, k, t, height), Faucet(cfg, k', t, height)) == true
  {
    FaucetPaysRespects(cfg, k, k', t, height);
    FaucetDecides(cfg, k, k', t, height);
  }

  /** The checks before a payout read the claims, and nothing else of the work. */
  lemma FaucetDecides(cfg: Config, k: Work, k': Work, t: Tx, height: u64)
    requires k'.claims == k.claims
    ensures var r, r' := Faucet(cfg, k, t, height), Faucet(cfg, k', t, height);
            (r == FaucetPays(cfg, k, t, height) && r' == FaucetPays(cfg, k', t, height))
            || (r.Broken? && r.k == k && r' == Broken(k', r.err))
  {
  }

  lemma KindRespects(cfg: Config, k: Work, k': Work, t: Tx, height: u64, i: nat)
    requires SameWork(k, k')
    ensures SameApplied(ApplyKind(cfg, k, t, height, i), ApplyKind(cfg, k', t, height, i)) == true
  {
    if t.kind == DEPLOY {
      DeployRespects(cfg, k.world, k'.world, t);
    } else if t.kind == CALL {
      CalledRespects(cfg, k.world, k'.world, t, i);
    } else if t.kind == SLASH {
      SlashRespects(cfg, k, k', t);
    } else if t.kind == UNREGISTER {
      UnregisterRespects(k, k', t);
    } else if t.kind == FAUCET {
      FaucetRespects(cfg, k, k', t, height);
    } else if t.kind != REGISTER && t.kind != STORAGE_PROOF {
      SamePaid(k.world, k'.world, t.to, t.amount);
    }
  }

  lemma ChargedRespects(k: Work, k': Work, t: Tx)
    requires SameWork(k, k')
    ensures SameWork(Charged(k, t), Charged(k', t)) == true
  {
    assert Get(k'.world.accounts, t.from) == Get(k.world.accounts, t.from);
    var from := Get(k.world.accounts, t.from);
    var paid := from.(balance := Wrap(from.balance - Wrap(t.amount + t.fee)), nonce := Wrap(from.nonce + 1));
    SameWrite(k.world, k'.world, t.from, paid);
  }

  /** The sender's account decides whether it is charged. */
  lemma TxDecides(cfg: Config, k: Work, t: Tx, height: u64, i: nat, k1: Work, from: Account)
    requires k1 == k.(world := Entered(k.world, t.from)) && from == Get(k1.world.accounts, t.from)
    ensures var r, total := ApplyTx(cfg, k, t, height, i), Wrap(t.amount + t.fee);
            r == if t.IsCoinbase() then Broken(k, CoinbaseInBody)
                 else if !cfg.verify(t) then Broken(k, BadSignature)
                 else if t.chainId != cfg.chainId then Broken(k, BadChainId)
                 else if t.nonce != from.nonce then Broken(k1, BadNonce)
                 else if total < t.amount || from.balance < total then Broken(k1, Insufficient)
                 else ApplyKind(cfg, Charged(k1, t), t, height, i)
  {
  }

  lemma TxRespects(cfg: Config, k: Work, k': Work, t: Tx, height: u64, i: nat)
    requires SameWork(k, k')
    ensures SameApplied(ApplyTx(cfg, k, t, height, i), ApplyTx(cfg, k', t, height, i)) == true
  {
    SameEntered(k.world, k'.world, t.from);
    var k1, k2 := k.(world := Entered(k.world, t.from)), k'.(world := Entered(k'.world, t.from));
    assert Get(k2.world.accounts, t.from) == Get(k1.world.accounts, t.from);
    ChargedRespects(k1, k2, t);
    KindRespects(cfg, Charged(k1, t), Charged(k2, t), t, height, i);
    TxDecides(cfg, k, t, height, i, k1, Get(k1.world.accounts, t.from));
    TxDecides(cfg, k', t, height, i, k2, Get(k1.world.accounts, t.from));
  }

  lemma {:induction false} TxsRespect(cfg: Config, k: Work, k': Work, txs: seq<Tx>, height: u64, i: nat)
    requires SameWork(k, k') == true
    ensures SameApplied(ApplyTxs(cfg, k, txs, height, i), ApplyTxs(cfg, k', txs, height, i)) == true
    decreases txs
  {
    if txs != [] {
      TxRespects(cfg, k, k', txs[0], height, i);
      var r, r' := ApplyTx(cfg, k, txs[0], height, i), ApplyTx(cfg, k', txs[0], height, i);
      if r.Going? { TxsRespect(cfg, r.k, r'.k, txs[1..], height, i + 1); }
    }
  }

  /* ----- Blocks ----- */

  /** The same to a reader: accounts, registry, height, supply, logs and claims. */
  ghost predicate ReadsAlike(s: State, s': State)
  {
    Atomic.SameLedger(s, s') && s'.claims == s.claims
  }

  lemma SettledRespects(s: State, s': State, k: Work, k': Work, b: Block)
    requires s'.minted == s.minted && SameWork(k, k')
    ensures SameApplied(Settled(s, k, b), Settled(s', k', b)) == true
  {
    match CoinbaseOf(b)
    case Some(c) => SamePaid(k.world, k'.world, c.to, c.amount);
    case None => SamePaid(k.world, k'.world, b.validator, k.fees);
  }

  lemma RestoredAlike(w: World, w': World)
    requires SameWorld(w, w')
    ensures SameAccounts(Restored(w), Restored(w'))
  {
    forall a ensures Get(Restored(w'), a) == Get(Restored(w), a) {
      assert Undone(w', a) == Undone(w, a) by { assert Get(w'.accounts, a) == Get(w.accounts, a); }
    }
  }

  ghost predicate SameEnd(o: Outcome, o': Outcome)
  {
    o'.Accepted? == o.Accepted? && ReadsAlike(o.s, o'.s) && (o.Rejected? ==> o'.err == o.err)
  }

  lemma OpenedAlike(s: State, s': State)
    requires ReadsAlike(s, s')
    ensures SameWork(Opened(s), Opened(s')) == true
  {
  }

  /** Blocks have the same outcome on ledgers that read alike, and leave ledgers that do. */
  lemma {:induction false} BlockRespects(cfg: Config, s: State, s': State, b: Block)
    requires ReadsAlike(s, s')
    ensures SameEnd(ApplyBlock(cfg, s, b), ApplyBlock(cfg, s', b))
  {
    OpenedAlike(s, s');
    TxsRespect(cfg, Opened(s), Opened(s'), Payload(b), b.height, 0);
    var r, r' := ApplyTxs(cfg, Opened(s), Payload(b), b.height, 0), ApplyTxs(cfg, Opened(s'), Payload(b), b.height, 0);
    if r.Broken? {
      RestoredAlike(r.k.world, r'.k.world);
    } else {
      SettledRespects(s, s', r.k, r'.k, b);
      RestoredAlike(Settled(s, r.k, b).k.world, Settled(s', r'.k, b).k.world);
    }
  }
}
