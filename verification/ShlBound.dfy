/** What the gas estimate says about runs that succeed. */
module ShlBound {
  import opened Words
  import opened Shl
  import opened ShlLayout
  import opened ShlView
  import opened ShlCorrect
  import opened ShlProgram
  import opened ShlGas
  import opened VmRuns
  import VM

  /* ----- Charged gas and counted gas ----- */

  /** The same host, with each call counted at what it is charged. */
  function Metered<W>(h: VM.Host<W>): (r: VM.Host<W>)
  {
    match h
    case NoHost => VM.NoHost
    case Host(call) =>
      VM.Host((w: W, self: u64, target: u64, arg: u64, gas: u64, depth: nat) =>
                var r := call(w, self, target, arg, gas, depth); r.(spent := r.gasUsed))
  }

  function Recounted<W>(f: VM.Frame<W>): (r: VM.Frame<W>)
  {
    f.(host := Metered(f.host))
  }

  /** Equal but for the count of gas spent. */
  ghost predicate SameMachine(a: VM.Machine, b: VM.Machine)
  {
    b == a.(spent := b.spent)
  }

  ghost predicate SameStep(a: VM.StepResult, b: VM.StepResult)
  {
    match a
    case Next(m) => b.Next? && SameMachine(m, b.m)
    case Halt(m, ret, rb) => b.Halt? && SameMachine(m, b.m) && b.ret == ret && b.retBytes == rb
    case Abort(e, _) => b.Abort? && b.err == e
    case Invoke(m, target, arg, forward) =>
      b.Invoke? && SameMachine(m, b.m) && b.target == target && b.arg == arg && b.forward == forward
  }

  ghost predicate SameOutcome<W>(a: VM.Outcome<W>, b: VM.Outcome<W>)
  {
    match a
    case Success(m, ret, rb, w) => b.Success? && SameMachine(m, b.m) && b.ret == ret && b.retBytes == rb && b.world == w
    case Failure(e, w, _) => b.Failure? && b.err == e && b.world == w
  }

  /** The two frames differ in the count a call reports, and in nothing else. */
  ghost predicate SameFrame<W>(f: VM.Frame<W>, g: VM.Frame<W>)
  {
    f == g.(host := f.host) && f.host.NoHost? == g.host.NoHost?
  }

  lemma Exec0IgnoresCount<W>(f: VM.Frame<W>, g: VM.Frame<W>, op: byte, m: VM.Machine, n: VM.Machine)
    requires SameFrame(f, g) && SameMachine(m, n)
    ensures SameStep(VM.Exec0(f, op, m), VM.Exec0(g, op, n)) == true
  {
  }

  lemma Exec1IgnoresCount<W>(f: VM.Frame<W>, g: VM.Frame<W>, op: byte, m: VM.Machine, n: VM.Machine, a: u64)
    requires SameFrame(f, g) && SameMachine(m, n)
    ensures SameStep(VM.Exec1(f, op, m, a), VM.Exec1(g, op, n, a)) == true
  {
  }

  lemma Exec2IgnoresCount<W>(f: VM.Frame<W>, g: VM.Frame<W>, op: byte, m: VM.Machine, n: VM.Machine, a: u64, b: u64)
    requires SameFrame(f, g) && SameMachine(m, n)
    ensures SameStep(VM.Exec2(f, op, m, a, b), VM.Exec2(g, op, n, a, b)) == true
  {
  }

  lemma Exec3IgnoresCount<W>(f: VM.Frame<W>, g: VM.Frame<W>, op: byte, m: VM.Machine, n: VM.Machine, a: u64, b: u64,
      c: u64)
    requires SameFrame(f, g) && SameMachine(m, n)
    ensures SameStep(VM.Exec3(f, op, m, a, b, c), VM.Exec3(g, op, n, a, b, c)) == true
  {
  }

  lemma DispatchIgnoresCount<W>(f: VM.Frame<W>, g: VM.Frame<W>, op: byte, m: VM.Machine, n: VM.Machine)
    requires SameFrame(f, g) && SameMachine(m, n)
    ensures SameStep(VM.Dispatch(f, op, m), VM.Dispatch(g, op, n)) == true
  {
    if VM.IsExec2(op) {
      if |m.st| >= 2 { Exec2IgnoresCount(f, g, op, VM.Drop(m, 2), VM.Drop(n, 2), VM.Peek(m, 1), VM.Peek(m, 0)); }
    } else if VM.IsExec1(op) {
      if |m.st| >= 1 { Exec1IgnoresCount(f, g, op, VM.Drop(m, 1), VM.Drop(n, 1), VM.Peek(m, 0)); }
    } else if op == VM.CALL || op == VM.BSTORE {
      if |m.st| >= 3 {
        Exec3IgnoresCount(f, g, op, VM.Drop(m, 3), VM.Drop(n, 3), VM.Peek(m, 2), VM.Peek(m, 1), VM.Peek(m, 0));
      }
    } else {
      Exec0IgnoresCount(f, g, op, m, n);
    }
  }

  lemma StepIgnoresCount<W>(f: VM.Frame<W>, g: VM.Frame<W>, m: VM.Machine, n: VM.Machine)
    requires SameFrame(f, g) && SameMachine(m, n) && m.pc < |f.code|
    ensures SameStep(VM.Step(f, m), VM.Step(g, n)) == true
  {
    if 0 <= m.pc { DispatchIgnoresCount(f, g, f.code[m.pc], VM.Charge(m, f.code[m.pc]), VM.Charge(n, f.code[m.pc])); }
  }

  lemma ResumeIgnoresCount<W>(f: VM.Frame<W>, g: VM.Frame<W>, m: VM.Machine, n: VM.Machine, r: VM.Reply<W>,
      q: VM.Reply<W>)
    requires SameFrame(f, g) && SameMachine(m, n) && q == r.(spent := q.spent)
    ensures SameStep(VM.Resume(f, m, r), VM.Resume(g, n, q)) == true
  {
  }

  lemma {:induction false} RunIgnoresCount<W>(f: VM.Frame<W>, g: VM.Frame<W>, w: W, m: VM.Machine, n: VM.Machine)
    requires g == Recounted(f) && SameMachine(m, n)
    ensures SameOutcome(VM.Run(f, w, m), VM.Run(g, w, n))
    decreases VM.MAX_STEPS - m.steps
  {
    if m.pc < |f.code| {
      VM.StepCounts(f, m);
      StepIgnoresCount(f, g, m, n);
      match VM.Step(f, m)
      case Next(m1) => RunIgnoresCount(f, g, w, m1, VM.Step(g, n).m);
      case Invoke(m1, target, arg, forward) =>
        var r := f.host.call(w, f.ctx.self, target, arg, forward, f.ctx.depth + 1);
        var n1 := VM.Step(g, n).m;
        var s := VM.Resume(f, m1, r);
        ResumeIgnoresCount(f, g, m1, n1, r, r.(spent := r.gasUsed));
        if s.Next? { RunIgnoresCount(f, g, r.world, s.m, VM.Resume(g, n1, r.(spent := r.gasUsed)).m); }
      case _ =>
    }
  }

  /** What is charged is what is counted, modulo 2^64. */
  ghost predicate InStep(m: VM.Machine)
  {
    m.used == Wrap(m.spent)
  }

  ghost predicate StepInStep(r: VM.StepResult)
  {
    r.Abort? || InStep(r.m)
  }

  lemma WrapTwice(a: int, b: int)
    ensures Wrap(Wrap(a) + b) == Wrap(a + b)
  {
  }

  /** Both counts are as they were. */
  ghost predicate Uncounted(m: VM.Machine, r: VM.StepResult)
  {
    r.Abort? || (r.m.used == m.used && r.m.spent == m.spent)
  }

  lemma OthersCountNothing<W>(f: VM.Frame<W>, op: byte, m: VM.Machine)
    requires op != VM.LOG
    ensures Uncounted(m, VM.Dispatch(f, op, m)) == true
  {
  }

  lemma UncountedInStep(m: VM.Machine, r: VM.StepResult)
    requires InStep(m) && Uncounted(m, r)
    ensures StepInStep(r) == true
  {
  }

  /** Both counts have grown by this much, one of them modulo 2^64. */
  ghost predicate Counted(m: VM.Machine, r: VM.StepResult, gas: nat)
  {
    r.Abort? || (r.m.used == Wrap(m.used + gas) && r.m.spent == m.spent + gas)
  }

  lemma LogCounts<W>(f: VM.Frame<W>, m: VM.Machine, n: u64)
    ensures Counted(m, VM.EmitLog(f, m, n), 8 * n) == true
  {
  }

  lemma CountedInStep(m: VM.Machine, r: VM.StepResult, gas: nat)
    requires InStep(m) && Counted(m, r, gas)
    ensures StepInStep(r) == true
  {
    WrapTwice(m.spent, gas);
  }

  lemma LogInStep<W>(f: VM.Frame<W>, m: VM.Machine, n: u64)
    requires InStep(m)
    ensures StepInStep(VM.EmitLog(f, m, n)) == true
  {
    LogCounts(f, m, n);
    CountedInStep(m, VM.EmitLog(f, m, n), 8 * n);
  }

  lemma DispatchInStep<W>(f: VM.Frame<W>, op: byte, m: VM.Machine)
    requires InStep(m)
    ensures StepInStep(VM.Dispatch(f, op, m)) == true
  {
    if op == VM.LOG {
      if |m.st| >= 1 { LogInStep(f, VM.Drop(m, 1), VM.Peek(m, 0)); }
    } else {
      OthersCountNothing(f, op, m);
      UncountedInStep(m, VM.Dispatch(f, op, m));
    }
  }

  lemma TurnInStep<W>(f: VM.Frame<W>, m: VM.Machine)
    requires m.pc < |f.code| && InStep(m)
    ensures StepInStep(VM.Step(f, m)) == true
  {
    if 0 <= m.pc {
      WrapTwice(m.spent, VM.GasCost(f.code[m.pc]));
      DispatchInStep(f, f.code[m.pc], VM.Charge(m, f.code[m.pc]));
    }
  }

  lemma ResumeInStep<W>(f: VM.Frame<W>, m: VM.Machine, r: VM.Reply<W>)
    requires InStep(m) && r.gasUsed == r.spent
    ensures StepInStep(VM.Resume(f, m, r)) == true
  {
    WrapTwice(m.spent, r.spent);
  }

  lemma {:induction false} RunInStep<W>(f: VM.Frame<W>, h: VM.Host<W>, w: W, m: VM.Machine)
    requires f.host == Metered(h) && InStep(m)
    ensures VM.Run(f, w, m).Success? ==> InStep(VM.Run(f, w, m).m)
    decreases VM.MAX_STEPS - m.steps
  {
    if m.pc < |f.code| {
      VM.StepCounts(f, m);
      TurnInStep(f, m);
      var s := VM.Step(f, m);
      if s.Invoke? {
        var r := f.host.call(w, f.ctx.self, s.target, s.arg, s.forward, f.ctx.depth + 1);
        var t := VM.Resume(f, s.m, r);
        ResumeInStep(f, s.m, r);
        ResumeGoesOn(f, s.m, r);
        RunInvokes(f, w, m, s, r, t);
        if t.Next? { RunInStep(f, h, r.world, t.m); }
      } else {
        RunSteps(f, w, m, s);
        if s.Next? { RunInStep(f, h, w, s.m); }
      }
    }
  }

  /** A successful run has been charged the gas it used, and charges are never more than the count. */
  lemma {:induction false} ChargedIsCounted<W>(f: VM.Frame<W>, w: W, store: map<u64, u64>, blobs: map<u64, seq<byte>>)
    ensures var o, o' := VM.Run(f, w, VM.Start(store, blobs)), VM.Run(Recounted(f), w, VM.Start(store, blobs));
            SameOutcome(o, o') && (o.Success? ==> o.m.used == Wrap(o'.m.spent))
  {
    RunIgnoresCount(f, Recounted(f), w, VM.Start(store, blobs), VM.Start(store, blobs));
    RunInStep(Recounted(f), f.host, w, VM.Start(store, blobs));
  }

  /* ----- The static gas bound ----- */

  /** No instruction costs more than 100 gas per byte of code. */
  lemma {:induction false} ExprGasPerByte(e: Expr)
    ensures ExprGas(e) <= 100 * ExprSize(e)
  {
    match e
    case Index(_, key) => ExprGasPerByte(key);
    case Load(key) => ExprGasPerByte(key);
    case Arg(i) => ExprGasPerByte(i);
    case Not(y) => ExprGasPerByte(y);
    case Binary(_, l, r) => ExprGasPerByte(l); ExprGasPerByte(r);
    case _ =>
  }

  lemma {:induction false} ExprsGasPerByte(es: seq<Expr>)
    ensures ExprsGas(es) <= 100 * ExprsSize(es) && |es| <= ExprsSize(es)
  {
    if es != [] {
      ExprGasPerByte(es[0]);
      ExprsGasPerByte(es[1..]);
    }
  }

  lemma {:induction false} StmtGasPerByte(s: Stmt)
    ensures StmtGas(s) <= 108 * StmtSize(s)
    decreases s, 1
  {
    match s
    case Let(_, val) => ExprGasPerByte(val);
    case IndexStore(_, key, val) => ExprGasPerByte(key); ExprGasPerByte(val);
    case Store(key, val) => ExprGasPerByte(key); ExprGasPerByte(val);
    case Require(cond) => ExprGasPerByte(cond);
    case If(cond, thn, els) => ExprGasPerByte(cond); StmtsGasPerByte(thn); StmtsGasPerByte(els);
    case While(cond, body) => ExprGasPerByte(cond); StmtsGasPerByte(body);
    case Emit(args) => ExprsGasPerByte(args);
    case Return(val) => ExprGasPerByte(val);
    case _ =>
  }

  lemma {:induction false} StmtsGasPerByte(ss: seq<Stmt>)
    ensures StmtsGas(ss) <= 108 * StmtsSize(ss)
    decreases ss, 0
  {
    if ss != [] {
      StmtGasPerByte(ss[0]);
      StmtsGasPerByte(ss[1..]);
    }
  }

  lemma {:induction false} FnsGasPerByte(fns: seq<FnDecl>)
    ensures FnsGas(fns) <= 108 * FnsSize(fns)
  {
    if fns != [] {
      StmtsGasPerByte(fns[0].body);
      FnsGasPerByte(fns[1..]);
    }
  }

  lemma {:induction false} ProgramGasPerByte(items: seq<Item>)
    ensures ProgramGas(items) <= 108 * ProgramSize(items)
  {
    StmtsGasPerByte(Statements(items));
    FnsGasPerByte(Functions(items));
  }

  /** Code whose estimate cannot wrap. */
  const MAX_CODE: int := 0x100_0000_0000_0000

  /**
   The estimate bounds the gas of every successful run of a program without loops, on any storage,
   calldata and gas limit; a program of writes and events that runs to its end uses exactly that.
   */
  lemma {:induction false} EstimateBoundsRuns<W>(f: VM.Frame<W>, w: W, items: seq<Item>, store: map<u64, u64>,
      blobs: map<u64, seq<byte>>)
    requires ProgramAt(f.code, f.digest, items) && |f.code| < MAX_CODE
    ensures Scan(f.code, 0, 0, None) < TWO64
    ensures var o := VM.Run(f, w, VM.Start(store, blobs));
            && (o.Success? && ProgramLoopFree(items) ==> o.m.used <= Scan(f.code, 0, 0, None))
            && (o.Success? && ProgramStraight(items) ==> o.m.used == Scan(f.code, 0, 0, None))
  {
    EstimateOfProgram(f.code, f.digest, items);
    ProgramGasPerByte(items);
    ChargedIsCounted(f, w, store, blobs);
    CompiledCodeIsCorrect(Recounted(f), w, items, store, blobs, VM.MAX_STEPS);
    if ProgramStraight(items) { StraightIsLoopFree(Statements(items)); }
  }
}
