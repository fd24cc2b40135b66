/** What contract execution can and cannot do, at any nesting: the frame rule and the gas bound. */
module Frames {
  import opened Words
  import opened Txs
  import opened Contracts
  import opened VmRuns
  import VM

  /* ----- A frame's answer ----- */

  /** What a call answers when its run ends. */
  function AnswerTo(r: VM.Outcome<World>, q: Request): (a: Answer)
  {
    match r
    case Failure(_, w, spent) => Answer(w, 0, q.gas, false, spent)
    case Success(m, ret, _, w) => Answer(Commit(w, q, m), ret, m.used, true, m.spent)
  }

  lemma ExecAnswers(o: Oracle, w: World, q: Request, w1: World, c: Account)
    requires q.depth <= VM.MAX_DEPTH && w1 == Entered(w, q.addr) && c == Get(w1.accounts, q.addr)
    ensures Exec(o, w, q) == AnswerTo(VM.Run(FrameOf(o, w1, q), w1, VM.Start(c.words, c.blobs)), q)
  {
  }

  /* ----- Gas ----- */

  /** Limits for which the gas counter does not wrap. */
  const MAX_GAS: int := TWO64 - 101

  ghost predicate HostIsBounded(h: VM.Host<World>)
  {
    h.Host? ==> forall w: World, self: u64, target: u64, arg: u64, gas: u64, depth: nat :: gas <= MAX_GAS ==>
      ReplyIsBounded(h.call(w, self, target, arg, gas, depth), gas)
  }

  /** A call is charged at least what its opcodes cost, and at most what it was given. */
  ghost predicate ReplyIsBounded(r: VM.Reply<World>, gas: u64)
  {
    r.spent <= r.gasUsed <= gas
  }

  ghost predicate Metered(m: VM.Machine, gas: u64)
  {
    m.spent <= m.used <= gas
  }

  ghost predicate StepMetered(r: VM.StepResult, gas: u64)
  {
    match r
    case Next(m) => Metered(m, gas)
    case Halt(m, _, _) => Metered(m, gas)
    case Abort(_, spent) => spent <= gas
    case Invoke(m, _, _, forward) => Metered(m, gas) && forward <= gas - m.used
  }

  lemma Exec0IsMetered(f: VM.Frame<World>, op: byte, m: VM.Machine)
    requires Metered(m, f.gas)
    ensures StepMetered(VM.Exec0(f, op, m), f.gas)
  {
  }

  lemma Exec1IsMetered(f: VM.Frame<World>, op: byte, m: VM.Machine, a: u64)
    requires Metered(m, f.gas) && f.gas <= MAX_GAS
    ensures StepMetered(VM.Exec1(f, op, m, a), f.gas)
  {
  }

  lemma Exec2IsMetered(f: VM.Frame<World>, op: byte, m: VM.Machine, a: u64, b: u64)
    requires Metered(m, f.gas)
    ensures StepMetered(VM.Exec2(f, op, m, a, b), f.gas)
  {
  }

  lemma Exec3IsMetered(f: VM.Frame<World>, op: byte, m: VM.Machine, a: u64, b: u64, c: u64)
    requires Metered(m, f.gas)
    ensures StepMetered(VM.Exec3(f, op, m, a, b, c), f.gas)
  {
  }

  lemma DispatchIsMetered(f: VM.Frame<World>, op: byte, m: VM.Machine)
    requires Metered(m, f.gas) && f.gas <= MAX_GAS
    ensures StepMetered(VM.Dispatch(f, op, m), f.gas) == true
  {
    Exec0IsMetered(f, op, m);
    if |m.st| >= 1 { Exec1IsMetered(f, op, VM.Drop(m, 1), VM.Peek(m, 0)); }
    if |m.st| >= 2 { Exec2IsMetered(f, op, VM.Drop(m, 2), VM.Peek(m, 1), VM.Peek(m, 0)); }
    if |m.st| >= 3 { Exec3IsMetered(f, op, VM.Drop(m, 3), VM.Peek(m, 2), VM.Peek(m, 1), VM.Peek(m, 0)); }
  }

  lemma StepIsMetered(f: VM.Frame<World>, m: VM.Machine)
    requires m.pc < |f.code| && Metered(m, f.gas) && f.gas <= MAX_GAS
    ensures StepMetered(VM.Step(f, m), f.gas) == true
  {
    if 0 <= m.pc && m.used + VM.GasCost(f.code[m.pc]) <= f.gas {
      DispatchIsMetered(f, f.code[m.pc], VM.Charge(m, f.code[m.pc]));
    }
  }

  lemma ResumeIsMetered(f: VM.Frame<World>, m: VM.Machine, r: VM.Reply<World>, forward: u64)
    requires Metered(m, f.gas) && f.gas <= MAX_GAS && forward <= f.gas - m.used && ReplyIsBounded(r, forward)
    ensures StepMetered(VM.Resume(f, m, r), f.gas) == true
  {
  }

  ghost predicate RunMetered(o: VM.Outcome<World>, gas: u64)
  {
    match o
    case Success(m, _, _, _) => Metered(m, gas)
    case Failure(_, _, spent) => spent <= gas
  }

  lemma {:induction false} RunIsMetered(f: VM.Frame<World>, w: World, m: VM.Machine)
    requires HostIsBounded(f.host) && Metered(m, f.gas) && f.gas <= MAX_GAS
    ensures RunMetered(VM.Run(f, w, m), f.gas)
    decreases VM.MAX_STEPS - m.steps
  {
    if m.pc < |f.code| {
      VM.StepCounts(f, m);
      StepIsMetered(f, m);
      var s := VM.Step(f, m);
      if s.Invoke? {
        var r := f.host.call(w, f.ctx.self, s.target, s.arg, s.forward, f.ctx.depth + 1);
        var t := VM.Resume(f, s.m, r);
        assert ReplyIsBounded(r, s.forward);
        ResumeIsMetered(f, s.m, r, s.forward);
        ResumeGoesOn(f, s.m, r);
        RunInvokes(f, w, m, s, r, t);
        if t.Next? { RunIsMetered(f, r.world, t.m); }
      } else {
        RunSteps(f, w, m, s);
        if s.Next? { RunIsMetered(f, w, s.m); }
      }
    }
  }

  /**
   The gas of all opcodes of a call, in this frame and in every frame below it, reverted or not, is
   at most the limit given to the call.
   */
  lemma {:induction false} NestedGasIsBounded(o: Oracle, w: World, q: Request)
    requires q.depth <= VM.MAX_DEPTH && q.gas <= MAX_GAS
    ensures var r := Exec(o, w, q); r.spent <= r.used <= q.gas
    decreases VM.MAX_DEPTH - q.depth, 0
  {
    var w1 := Entered(w, q.addr);
    var f := FrameOf(o, w1, q);
    forall w': World, self: u64, target: u64, arg: u64, gas: u64, depth: nat | gas <= MAX_GAS
      ensures ReplyIsBounded(f.host.call(w', self, target, arg, gas, depth), gas)
    {
      if q.depth < depth <= VM.MAX_DEPTH { CallIsBounded(o, w', self, target, arg, gas, depth, q.txIndex); }
    }
    var c := Get(w1.accounts, q.addr);
    RunIsMetered(f, w1, VM.Start(c.words, c.blobs));
  }

  lemma {:induction false} CallIsBounded(o: Oracle, w: World, self: u64, target: u64, arg: u64, gas: u64, depth: nat,
      txIndex: int)
    requires depth <= VM.MAX_DEPTH && gas <= MAX_GAS
    ensures ReplyIsBounded(Call(o, w, self, target, arg, gas, depth, txIndex), gas)
    decreases VM.MAX_DEPTH - depth, 1
  {
    var found := Find(o, w.accounts, target);
    if found.Some? { NestedGasIsBounded(o, w, Request(found.value, self, [], U64Bytes(arg), 0, gas, depth, txIndex)); }
  }

  /* ----- What a frame leaves alone ----- */

  /** What rolling back would make of an account. */
  function Undone(w: World, a: Address): (r: Account)
  {
    if a in w.saved then (if w.saved[a].Some? then w.saved[a].value else NO_ACCOUNT) else Get(w.accounts, a)
  }

  /** An account with what committed frames wrote to it, the latest last. */
  function Rewritten(c: Account, a: Address, commits: seq<Written>): (r: Account)
    ensures r.balance == c.balance && r.nonce == c.nonce && r.code == c.code
  {
    if commits == [] then c
    else
      var last := commits[|commits| - 1];
      if last.addr == a then c.(words := last.words, blobs := last.blobs)
      else Rewritten(c, a, commits[..|commits| - 1])
  }

  lemma {:induction false} RewrittenInTurn(c: Account, a: Address, xs: seq<Written>, ys: seq<Written>)
    ensures Rewritten(c, a, xs + ys) == Rewritten(Rewritten(c, a, xs), a, ys)
    decreases ys
  {
    if ys == [] {
      assert xs + ys == xs;
    } else {
      assert (xs + ys)[..|xs + ys| - 1] == xs + ys[..|ys| - 1];
      RewrittenInTurn(c, a, xs, ys[..|ys| - 1]);
    }
  }

  ghost predicate Keeps(w: World, w': World, a: Address)
    requires w.commits <= w'.commits
  {
    Get(w'.accounts, a) == Rewritten(Get(w.accounts, a), a, w'.commits[|w.commits|..])
    && Undone(w', a) == Undone(w, a) && (a in w.accounts ==> a in w'.accounts) && (a in w.saved ==> a in w'.saved)
  }

  /** From `w` to `w'` accounts have changed by what committed frames wrote to their storage, and by nothing else. */
  ghost predicate Within(w: World, w': World)
  {
    w.commits <= w'.commits && w.logs <= w'.logs && (forall a {:trigger Keeps(w, w', a)} :: Keeps(w, w', a))
  }

  lemma WithinReflexive(w: World)
    ensures Within(w, w)
  {
    assert w.commits[|w.commits|..] == [];
    forall a ensures Keeps(w, w, a) { }
  }

  lemma WithinTransitive(w: World, w': World, w'': World)
    requires Within(w, w') && Within(w', w'')
    ensures Within(w, w'')
  {
    var c, d := w'.commits[|w.commits|..], w''.commits[|w'.commits|..];
    assert w''.commits[|w.commits|..] == c + d;
    forall a ensures Keeps(w, w'', a) {
      assert Keeps(w, w', a) && Keeps(w', w'', a);
      RewrittenInTurn(Get(w.accounts, a), a, c, d);
    }
  }

  lemma EnteredWithin(w: World, a: Address)
    ensures Within(w, Entered(w, a)) && a in Entered(w, a).saved && a in Entered(w, a).accounts
  {
    var w' := Entered(w, a);
    assert w.commits[|w.commits|..] == [];
    forall x ensures Keeps(w, w', x) { }
  }

  lemma CommitWithin(w: World, q: Request, m: VM.Machine)
    requires q.addr in w.saved
    ensures Within(w, Commit(w, q, m))
  {
    var w' := Commit(w, q, m);
    assert w'.commits[|w.commits|..] == [Written(q.addr, m.work, m.bwork)];
    forall x ensures Keeps(w, w', x) { }
  }

  ghost predicate HostWithin(h: VM.Host<World>)
  {
    h.Host? ==> forall w: World, self: u64, target: u64, arg: u64, gas: u64, depth: nat ::
      Within(w, h.call(w, self, target, arg, gas, depth).world)
  }

  lemma {:induction false} RunWithin(f: VM.Frame<World>, w: World, m: VM.Machine)
    requires HostWithin(f.host)
    ensures Within(w, VM.Run(f, w, m).world) == true
    decreases VM.MAX_STEPS - m.steps
  {
    WithinReflexive(w);
    if m.pc < |f.code| {
      VM.StepCounts(f, m);
      var s := VM.Step(f, m);
      if s.Invoke? {
        var r := f.host.call(w, f.ctx.self, s.target, s.arg, s.forward, f.ctx.depth + 1);
        var t := VM.Resume(f, s.m, r);
        ResumeGoesOn(f, s.m, r);
        RunInvokes(f, w, m, s, r, t);
        if t.Next? {
          RunWithin(f, r.world, t.m);
          WithinTransitive(w, r.world, VM.Run(f, r.world, t.m).world);
        }
      } else {
        RunSteps(f, w, m, s);
        if s.Next? { RunWithin(f, w, s.m); }
      }
    }
  }

  /**
   The frame rule: a call, with everything it calls, changes no balance, nonce or code; each account's
   storage is what the last successful frame of that contract wrote back, or what it was; and what a
   rollback would restore stays the same.
   */
  lemma {:induction false} ContractFrameRule(o: Oracle, w: World, q: Request)
    requires q.depth <= VM.MAX_DEPTH
    ensures Within(w, Exec(o, w, q).world)
    decreases VM.MAX_DEPTH - q.depth, 1
  {
    var w1 := Entered(w, q.addr);
    EnteredWithin(w, q.addr);
    var w2 := FrameWorld(o, w1, q);
    assert Keeps(w1, w2, q.addr);
    WithinTransitive(w, w1, w2);
    var c := Get(w1.accounts, q.addr);
    match VM.Run(FrameOf(o, w1, q), w1, VM.Start(c.words, c.blobs))
    case Failure(_, _, _) =>
    case Success(m, _, _, _) =>
      CommitWithin(w2, q, m);
      WithinTransitive(w, w2, Commit(w2, q, m));
  }

  /** The world the frame's own code ends in, before it commits. */
  lemma {:induction false} FrameWorld(o: Oracle, w: World, q: Request) returns (w': World)
    requires q.depth <= VM.MAX_DEPTH
    ensures var c := Get(w.accounts, q.addr); w' == VM.Run(FrameOf(o, w, q), w, VM.Start(c.words, c.blobs)).world
    ensures Within(w, w')
    decreases VM.MAX_DEPTH - q.depth, 0
  {
    var c, f := Get(w.accounts, q.addr), FrameOf(o, w, q);
    forall x: World, self: u64, target: u64, arg: u64, gas: u64, depth: nat
      ensures Within(x, f.host.call(x, self, target, arg, gas, depth).world)
    {
      if q.depth < depth <= VM.MAX_DEPTH {
        CallWithin(o, x, self, target, arg, gas, depth, q.txIndex);
      } else {
        WithinReflexive(x);
      }
    }
    RunWithin(f, w, VM.Start(c.words, c.blobs));
    w' := VM.Run(f, w, VM.Start(c.words, c.blobs)).world;
  }

  lemma {:induction false} CallWithin(o: Oracle, w: World, self: u64, target: u64, arg: u64, gas: u64, depth: nat,
      txIndex: int)
    requires depth <= VM.MAX_DEPTH
    ensures Within(w, Call(o, w, self, target, arg, gas, depth, txIndex).world)
    decreases VM.MAX_DEPTH - depth, 2
  {
    WithinReflexive(w);
    var found := Find(o, w.accounts, target);
    if found.Some? { ContractFrameRule(o, w, Request(found.value, self, [], U64Bytes(arg), 0, gas, depth, txIndex)); }
  }

  /** A failing frame charges its whole limit, and adds no commit to those of the frames below it. */
  lemma {:induction false} FailedFrame(o: Oracle, w: World, q: Request)
    requires q.depth <= VM.MAX_DEPTH && !Exec(o, w, q).ok
    ensures var r, w1 := Exec(o, w, q), Entered(w, q.addr); var c := Get(w1.accounts, q.addr);
            && r.world == VM.Run(FrameOf(o, w1, q), w1, VM.Start(c.words, c.blobs)).world
            && Within(w1, r.world) && r.used == q.gas && r.ret == 0
            && Get(r.world.accounts, q.addr) == Rewritten(c, q.addr, r.world.commits[|w1.commits|..])
  {
    var w1 := Entered(w, q.addr);
    var w2 := FrameWorld(o, w1, q);
    assert Keeps(w1, w2, q.addr);
  }
}
