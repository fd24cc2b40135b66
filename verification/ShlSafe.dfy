/** The faults compiled code can never have, and compiling and running in one. */
module ShlSafe {
  import opened Words
  import opened Shl
  import opened ShlLayout
  import opened ShlView
  import opened ShlCorrect
  import opened ShlProgram
  import ShlCompile
  import ShlFuel
  import opened ShlGas
  import opened ShlBound
  import VM

  /* ----- Which errors a program can end in ----- */

  /** Errors of evaluation. `Panic` is calldata word 2^61-1, where the VM's offset wraps. */
  ghost predicate EvalFault(e: VM.Error)
  {
    e == VM.Overflow || e == VM.DivZero || e == VM.Panic
  }

  ghost predicate Allowed(e: VM.Error, short: bool)
  {
    EvalFault(e) || e == VM.Reverted || (e == VM.BadCode && !short)
  }

  /** No `emit` with more than eight arguments. */
  ghost predicate ShortEmits(s: Stmt)
    decreases s, 1
  {
    match s
    case If(_, thn, els) => AllShort(thn) && AllShort(els)
    case While(_, body) => AllShort(body)
    case Emit(args) => |args| <= VM.MAX_LOG_TOPICS
    case _ => true
  }

  ghost predicate AllShort(ss: seq<Stmt>)
    decreases ss, 0
  {
    ss == [] || (ShortEmits(ss[0]) && AllShort(ss[1..]))
  }

  ghost predicate FnsShort(fns: seq<FnDecl>)
  {
    fns == [] || (AllShort(fns[0].body) && FnsShort(fns[1..]))
  }

  ghost predicate ProgramShort(items: seq<Item>)
  {
    AllShort(Statements(items)) && FnsShort(Functions(items))
  }

  lemma {:induction false} ExprFaults(env: Env, sc: Scope, e: Expr, store: map<u64, u64>)
    ensures var r := EvalExpr(env, sc, e, store); r.Error? ==> EvalFault(r.err)
  {
    match e
    case Index(_, key) => ExprFaults(env, sc, key, store);
    case Load(key) => ExprFaults(env, sc, key, store);
    case Arg(i) => ExprFaults(env, sc, i, store);
    case Not(x) => ExprFaults(env, sc, x, store);
    case Binary(op, l, r) =>
      ExprFaults(env, sc, l, store);
      ExprFaults(env, sc, r, store);
    case _ =>
  }

  lemma {:induction false} ExprsFaults(env: Env, sc: Scope, es: seq<Expr>, store: map<u64, u64>)
    ensures var r := EvalExprs(env, sc, es, store); r.ErrorIn? ==> EvalFault(r.err)
  {
    if es != [] {
      ExprFaults(env, sc, es[0], store);
      ExprsFaults(env, sc, es[1..], store);
    }
  }

  ghost predicate Fair(r: Result, short: bool)
  {
    r.Failed? ==> Allowed(r.err, short)
  }

  lemma {:induction false} SimpleFaults(env: Env, sc: Scope, s: Stmt, mem: Memory, fuel: nat)
    requires !s.If? && !s.While?
    ensures Fair(ExecStmt(env, sc, s, mem, fuel), ShortEmits(s)) == true
  {
    match s
    case Let(name, val) => ExprFaults(env, TargetScope(sc, name), val, mem.store);
    case IndexStore(_, key, val) => ExprFaults(env, sc, key, mem.store); ExprFaults(env, sc, val, mem.store);
    case Store(key, val) => ExprFaults(env, sc, key, mem.store); ExprFaults(env, sc, val, mem.store);
    case Require(cond) => ExprFaults(env, sc, cond, mem.store);
    case Emit(args) => ExprsFaults(env, sc, args, mem.store);
    case Return(val) => ExprFaults(env, sc, val, mem.store);
    case _ =>
  }

  lemma {:induction false} StmtFaults(env: Env, sc: Scope, s: Stmt, mem: Memory, fuel: nat)
    ensures Fair(ExecStmt(env, sc, s, mem, fuel), ShortEmits(s)) == true
    decreases fuel, s, 1
  {
    match s
    case If(cond, thn, els) =>
      ExprFaults(env, sc, cond, mem.store);
      BlockFaults(env, sc, thn, mem, fuel);
      BlockFaults(env, ScopeAfterAll(thn, sc), els, mem, fuel);
    case While(cond, body) =>
      ExprFaults(env, sc, cond, mem.store);
      if fuel > 0 {
        BlockFaults(env, sc, body, mem, fuel);
        var r := ExecStmts(env, sc, body, mem, fuel);
        if r.Normal? { StmtFaults(env, sc, s, r.mem, fuel - 1); }
      }
    case _ => SimpleFaults(env, sc, s, mem, fuel);
  }

  lemma {:induction false} BlockFaults(env: Env, sc: Scope, ss: seq<Stmt>, mem: Memory, fuel: nat)
    ensures Fair(ExecStmts(env, sc, ss, mem, fuel), AllShort(ss)) == true
    decreases fuel, ss, 0
  {
    if ss != [] {
      StmtFaults(env, sc, ss[0], mem, fuel);
      var r := ExecStmt(env, sc, ss[0], mem, fuel);
      if r.Normal? { BlockFaults(env, ScopeAfter(ss[0], sc), ss[1..], r.mem, fuel); }
    }
  }

  lemma {:induction false} ParamFaults(env: Env, sc: Scope, params: seq<Name>, i: nat, mem: Memory)
    ensures Fair(BindParams(env, sc, params, i, mem), true)
    decreases params
  {
    if params != [] {
      var sc1 := Bind(sc, params[0]);
      var r := WriteTo(mem, Value(sc1.vars[params[0]]), ArgValue(env, Wrap(i + 1)));
      if r.Normal? { ParamFaults(env, sc1, params[1..], i + 1, r.mem); }
    }
  }

  lemma {:induction false} RouteFaults(env: Env, sc: Scope, fns: seq<FnDecl>, sel: u64, mem: Memory, fuel: nat)
    ensures Fair(Route(env, sc, fns, sel, mem, fuel), FnsShort(fns))
  {
    if fns != [] {
      RouteFaults(env, sc, fns[1..], sel, mem, fuel);
      var p := BindParams(env, FreshLocals(sc), fns[0].params, 0, mem);
      ParamFaults(env, FreshLocals(sc), fns[0].params, 0, mem);
      if p.Normal? { BlockFaults(env, BindAll(FreshLocals(sc), fns[0].params), fns[0].body, p.mem, fuel); }
    }
  }

  lemma {:induction false} ProgramFaults(env: Env, items: seq<Item>, store: map<u64, u64>, fuel: nat)
    ensures Fair(ExecProgram(env, items, store, fuel), ProgramShort(items))
  {
    var sc := DeclareAll(EMPTY_SCOPE, items);
    BlockFaults(env, sc, Statements(items), Memory(store, []), fuel);
    var r := ExecStmts(env, sc, Statements(items), Memory(store, []), fuel);
    var sel := ArgValue(env, 0);
    if r.Normal? && sel.Value? { RouteFaults(env, sc, Functions(items), sel.v, r.mem, fuel); }
  }

  /**
   No run of compiled code ever underflows the stack or jumps outside the code, and it meets a bad
   instruction only through an `emit` of more than eight arguments. A run that stops for another
   reason than a limit stops as the program says.
   */
  lemma {:induction false} CompiledCodeIsSafe<W>(f: VM.Frame<W>, w: W, items: seq<Item>, store: map<u64, u64>,
      blobs: map<u64, seq<byte>>)
    requires ProgramAt(f.code, f.digest, items) && |f.code| < TWO63
    ensures var o := VM.Run(f, w, VM.Start(store, blobs));
            o.Failure? ==> Limited(o) || Allowed(o.err, ProgramShort(items))
    ensures var o := VM.Run(f, w, VM.Start(store, blobs));
            o.Failure? ==>
                o.err != VM.StackUnder && o.err != VM.BadJump && (ProgramShort(items) ==> o.err != VM.BadCode)
  {
    CompiledCodeIsCorrect(f, w, items, store, blobs, VM.MAX_STEPS);
    ProgramFaults(EnvOf(f), items, store, VM.MAX_STEPS);
  }

  /* ----- The logical operators ----- */

  /** A binary digit that both numbers have. */
  ghost predicate ShareADigit(a: nat, b: nat)
  {
    a != 0 && b != 0 && ((a % 2 == 1 && b % 2 == 1) || ShareADigit(a / 2, b / 2))
  }

  lemma {:induction false} BitAndIsTrue(a: nat, b: nat)
    ensures BitAnd(a, b) != 0 <==> ShareADigit(a, b)
  {
    if a != 0 && b != 0 { BitAndIsTrue(a / 2, b / 2); }
  }

  /**
   `||` is true just when one side is. `&&` is true when both sides are only if they share a binary
   digit, as the truth values 0 and 1 do: `2 && 1` is false.
   */
  lemma {:induction false} LogicalOperators(a: u64, b: u64)
    ensures Apply(Disj, a, b).Value? && (Apply(Disj, a, b).v != 0 <==> a != 0 || b != 0)
    ensures Apply(Conj, a, b).Value? && (Apply(Conj, a, b).v != 0 <==> ShareADigit(a, b))
    ensures a <= 1 && b <= 1 ==> (Apply(Conj, a, b).v != 0 <==> a != 0 && b != 0)
    ensures Apply(Conj, 2, 1) == Value(0)
  {
    BitAndIsTrue(a, b);
    assert BitAnd(1, 0) == 0;
    assert BitAnd(2, 1) == 0;
  }

  /** Compiles a program and runs it in a frame: what the program means is what happens to the storage. */
  method CompileAndRun<W>(items: seq<Item>, frame: VM.Frame<W>, w: W, store: VM.Storage)
      returns (r: ShlCompile.Compiled, o: VM.Outcome<W>, estimate: u64)
    modifies store
    ensures CheckProgram(items).Some? ==>
              r == ShlCompile.Refused(CheckProgram(items).value) && store.words == old(store.words)
    ensures CheckProgram(items).None? ==> r.Code? && |r.code| == ProgramSize(items)
    ensures CheckProgram(items).None? && |r.code| < TWO63 ==>
              var x := ExecProgram(EnvOf(frame), items, old(store.words), VM.MAX_STEPS);
              Limited(o) || SameResult(o, x, old(store.blobs), w)
    ensures o.Success? ==> store.words == o.m.work && store.blobs == o.m.bwork
    ensures o.Failure? ==> store.words == old(store.words) && store.blobs == old(store.blobs)
    ensures CheckProgram(items).None? && |r.code| < MAX_CODE && ProgramLoopFree(items) && o.Success? ==>
              o.m.used <= estimate
    ensures CheckProgram(items).None? && |r.code| < MAX_CODE && ProgramLoopFree(items) && estimate <= frame.gas ==>
              o.Success? || o.err != VM.OutOfGas
  {
    r := ShlCompile.Compile(items, frame.digest);
    estimate := 0;
    if r.Refused? { return r, VM.Failure(VM.BadCode, w, 0), 0; }
    estimate := Estimate(r.code);
    var f := frame.(code := r.code);
    ghost var words, blobs := store.words, store.blobs;
    o := VM.ExecuteB(f, w, store);
    if |r.code| < TWO63 { CompiledCodeIsCorrect(f, w, items, words, blobs, VM.MAX_STEPS); }
    if |r.code| < MAX_CODE {
      EstimateBoundsRuns(f, w, items, words, blobs);
      if ProgramLoopFree(items) && estimate <= f.gas { ShlFuel.EstimateSuffices(f, w, items, words, blobs); }
    }
  }
}
