/** When a run uses the whole estimate, and that runs with loops can use more. */
module ShlWhole {
  import opened Words
  import opened Shl
  import opened ShlLayout
  import opened ShlView
  import opened ShlProgram
  import opened ShlGas
  import opened ShlBound
  import opened ShlCost
  import VM

  /* ----- Statements all of whose instructions are executed ----- */

  /** Writes, events, and branches without an else whose condition holds. */
  predicate Whole(env: Env, sc: Scope, s: Stmt, mem: Memory, fuel: nat)
    decreases fuel, s, 1
  {
    match s
    case If(cond, thn, els) =>
      var c := EvalExpr(env, sc, cond, mem.store);
      els == [] && c.Value? && c.v != 0 && AllWhole(env, sc, thn, mem, fuel)
    case Let(_, _) => true
    case Store(_, _) => true
    case IndexStore(_, _, _) => true
    case Emit(_) => true
    case _ => false
  }

  predicate AllWhole(env: Env, sc: Scope, ss: seq<Stmt>, mem: Memory, fuel: nat)
    decreases fuel, ss, 0
  {
    ss == []
    || (Whole(env, sc, ss[0], mem, fuel)
        && var r := ExecStmt(env, sc, ss[0], mem, fuel);
           r.Normal? ==> AllWhole(env, ScopeAfter(ss[0], sc), ss[1..], r.mem, fuel))
  }

  lemma {:induction false} StmtsCostGas(ss: seq<Stmt>)
    ensures StmtsGas(ss) == 0 <==> ss == []
  {
  }

  ghost predicate EndsWell(r: Result)
  {
    r.Normal? || r.Returned? || r.Stopped?
  }

  lemma {:induction false} CostOfStmt(env: Env, sc: Scope, s: Stmt, mem: Memory, fuel: nat)
    requires LoopFree(s) && EndsWell(ExecStmt(env, sc, s, mem, fuel))
    ensures StmtCost(env, sc, s, mem, fuel) <= StmtGas(s)
    ensures ExecStmt(env, sc, s, mem, fuel).Normal? ==>
              (StmtCost(env, sc, s, mem, fuel) == StmtGas(s) <==> Whole(env, sc, s, mem, fuel))
    decreases s, 1
  {
    match s
    case If(cond, thn, els) =>
      StmtsCostGas(els);
      var c := EvalExpr(env, sc, cond, mem.store);
      if c.Value? && c.v != 0 {
        CostOfStmts(env, sc, thn, mem, fuel);
      } else if c.Value? {
        CostOfStmts(env, ScopeAfterAll(thn, sc), els, mem, fuel);
      }
    case _ =>
  }

  lemma {:induction false} CostOfStmts(env: Env, sc: Scope, ss: seq<Stmt>, mem: Memory, fuel: nat)
    requires AllLoopFree(ss) && EndsWell(ExecStmts(env, sc, ss, mem, fuel))
    ensures StmtsCost(env, sc, ss, mem, fuel) <= StmtsGas(ss)
    ensures ExecStmts(env, sc, ss, mem, fuel).Normal? ==>
              (StmtsCost(env, sc, ss, mem, fuel) == StmtsGas(ss) <==> AllWhole(env, sc, ss, mem, fuel))
    decreases ss, 0
  {
    if ss != [] {
      var r := ExecStmt(env, sc, ss[0], mem, fuel);
      CostOfStmt(env, sc, ss[0], mem, fuel);
      if r.Normal? { CostOfStmts(env, ScopeAfter(ss[0], sc), ss[1..], r.mem, fuel); }
    }
  }

  /* ----- Programs ----- */

  lemma {:induction false} CostOfFn(env: Env, sc: Scope, fn: FnDecl, mem: Memory, fuel: nat)
    requires AllLoopFree(fn.body) && EndsWell(CallFn(env, sc, fn, mem, fuel))
    ensures FnCost(env, sc, fn, mem, fuel) <= FnGas(fn)
  {
    var inner := BindAll(FreshLocals(sc), fn.params);
    var p := BindParams(env, FreshLocals(sc), fn.params, 0, mem);
    ParamsNeverHalt(env, FreshLocals(sc), fn.params, 0, mem);
    if p.Normal? { CostOfStmts(env, inner, fn.body, p.mem, fuel); }
  }

  lemma {:induction false} CostOfRoutes(env: Env, sc: Scope, fns: seq<FnDecl>, sel: u64, mem: Memory, fuel: nat)
    requires FnsLoopFree(fns) && EndsWell(Route(env, sc, fns, sel, mem, fuel))
    ensures RouteCost(env, sc, fns, sel, mem, fuel) <= 9 * |fns| + FnsGas(fns)
  {
    if fns != [] {
      if Selector(env, fns[0].name) == sel {
        CostOfFn(env, sc, fns[0], mem, fuel);
      } else {
        CostOfRoutes(env, sc, fns[1..], sel, mem, fuel);
      }
    }
  }

  /** The program's top level runs whole, and there are no functions. */
  predicate ProgramWhole(env: Env, items: seq<Item>, store: map<u64, u64>, fuel: nat)
  {
    Functions(items) == []
    && ExecStmts(env, DeclareAll(EMPTY_SCOPE, items), Statements(items), Memory(store, []), fuel).Normal?
    && AllWhole(env, DeclareAll(EMPTY_SCOPE, items), Statements(items), Memory(store, []), fuel)
  }

  lemma {:induction false} CostOfProgram(env: Env, items: seq<Item>, store: map<u64, u64>, fuel: nat)
    requires ProgramLoopFree(items) && EndsWell(ExecProgram(env, items, store, fuel))
    ensures ProgramCost(env, items, store, fuel) <= ProgramGas(items)
    ensures ProgramCost(env, items, store, fuel) == ProgramGas(items) <==> ProgramWhole(env, items, store, fuel)
  {
    var sc, flat, fns := DeclareAll(EMPTY_SCOPE, items), Statements(items), Functions(items);
    var r := ExecStmts(env, sc, flat, Memory(store, []), fuel);
    CostOfStmts(env, sc, flat, Memory(store, []), fuel);
    if r.Normal? && fns != [] {
      CostOfRoutes(env, sc, fns, ArgValue(env, 0).v, r.mem, fuel);
    }
  }

  /** What a successful run is charged is the cost of interpreting the program, modulo 2^64. */
  lemma {:induction false} ChargedIsCost<W>(f: VM.Frame<W>, w: W, items: seq<Item>, store: map<u64, u64>,
      blobs: map<u64, seq<byte>>)
    requires ProgramAt(f.code, f.digest, items) == true && |f.code| < TWO63
    ensures var o := VM.Run(f, w, VM.Start(store, blobs));
            o.Success? ==> o.m.used == Wrap(ProgramCost(EnvOf(f), items, store, VM.MAX_STEPS))
                           && EndsWell(ExecProgram(EnvOf(f), items, store, VM.MAX_STEPS))
  {
    ChargedIsCounted(f, w, store, blobs);
    CompiledCodeIsCorrect(f, w, items, store, blobs, VM.MAX_STEPS);
    CompiledCodeIsCorrect(Recounted(f), w, items, store, blobs, VM.MAX_STEPS);
    CostIsExact(Recounted(f), w, items, store, blobs, VM.MAX_STEPS);
  }

  /**
   A successful run of a program without loops uses the whole estimate just when the program has no
   functions and runs whole: writes, events, and branches without an else whose condition holds.
   */
  lemma {:induction false} WholeEstimate<W>(f: VM.Frame<W>, w: W, items: seq<Item>, store: map<u64, u64>,
      blobs: map<u64, seq<byte>>)
    requires ProgramAt(f.code, f.digest, items) == true && |f.code| < MAX_CODE && ProgramLoopFree(items) == true
    ensures var o := VM.Run(f, w, VM.Start(store, blobs));
            o.Success? ==>
              (o.m.used == Scan(f.code, 0, 0, None) <==> ProgramWhole(EnvOf(f), items, store, VM.MAX_STEPS))
  {
    EstimateOfProgram(f.code, f.digest, items);
    EstimateBoundsRuns(f, w, items, store, blobs);
    ChargedIsCost(f, w, items, store, blobs);
    if VM.Run(f, w, VM.Start(store, blobs)).Success? { CostOfProgram(EnvOf(f), items, store, VM.MAX_STEPS); }
  }

  /* ----- Loops ----- */

  /** `while !load(0) { store(0, 1) }` */
  function OnceMore(): (s: Stmt)
  {
    While(Not(Load(Num(0))), [Store(Num(0), Num(1))])
  }

  lemma {:induction false} TestIs(env: Env, sc: Scope, store: map<u64, u64>)
    ensures EvalExpr(env, sc, Not(Load(Num(0))), store) == Value(B2U(VM.Get(store, 0) == 0))
    ensures ExprGas(Not(Load(Num(0)))) == 24
  {
    assert EvalExpr(env, sc, Num(0), store) == Value(0);
    assert EvalExpr(env, sc, Load(Num(0)), store) == Value(VM.Get(store, 0));
  }

  lemma {:induction false} BodyIs(env: Env, sc: Scope, body: seq<Stmt>, fuel: nat)
    requires body == [Store(Num(0), Num(1))]
    ensures ExecStmts(env, sc, body, Memory(map[], []), fuel) == Normal(Memory(map[0 := 1], []))
    ensures StmtsCost(env, sc, body, Memory(map[], []), fuel) == 106 && StmtsGas(body) == 106
  {
    assert body[1..] == [];
  }

  lemma {:induction false} LoopCosts(env: Env, sc: Scope, fuel: nat)
    requires fuel >= 2
    ensures StmtCost(env, sc, OnceMore(), Memory(map[], []), fuel) == 168 && StmtGas(OnceMore()) == 139
    ensures ExecStmt(env, sc, OnceMore(), Memory(map[], []), fuel).Normal?
  {
    var body, m1 := [Store(Num(0), Num(1))], Memory(map[0 := 1], []);
    BodyIs(env, sc, body, fuel);
    TestIs(env, sc, map[]);
    TestIs(env, sc, m1.store);
    assert StmtCost(env, sc, OnceMore(), m1, fuel - 1) == 29;
    assert ExecStmt(env, sc, OnceMore(), m1, fuel - 1) == Normal(m1);
  }

  lemma {:induction false} LoopProgramCosts(env: Env, items: seq<Item>, fuel: nat)
    requires items == [StmtItem(OnceMore())] && fuel >= 2
    ensures ProgramCost(env, items, map[], fuel) == 169 && ProgramGas(items) == 140
  {
    assert items[1..] == [] && Functions(items[1..]) == [] && Statements(items[1..]) == [];
    assert Statements(items) == [OnceMore()] && Functions(items) == [];
    var sc, flat := DeclareAll(EMPTY_SCOPE, items), Statements(items);
    LoopCosts(env, sc, fuel);
    assert flat[0] == OnceMore() && flat[1..] == [];
    OneStmt(env, sc, flat, Memory(map[], []), fuel);
  }

  lemma {:induction false} OneStmt(env: Env, sc: Scope, ss: seq<Stmt>, mem: Memory, fuel: nat)
    requires |ss| == 1 && ExecStmt(env, sc, ss[0], mem, fuel).Normal?
    ensures StmtsCost(env, sc, ss, mem, fuel) == StmtCost(env, sc, ss[0], mem, fuel) && StmtsGas(ss) == StmtGas(ss[0])
    ensures ExecStmts(env, sc, ss, mem, fuel).Normal?
  {
    var r := ExecStmt(env, sc, ss[0], mem, fuel);
    assert ss[1..] == [];
    assert StmtsCost(env, ScopeAfter(ss[0], sc), ss[1..], r.mem, fuel) == 0;
  }

  /** A loop that goes round once: on empty storage every successful run uses 169, and the estimate is 140. */
  lemma {:induction false} LoopTakesMore<W>(f: VM.Frame<W>, w: W, blobs: map<u64, seq<byte>>)
    requires ProgramAt(f.code, f.digest, [StmtItem(OnceMore())]) == true && |f.code| < TWO63
    ensures Scan(f.code, 0, 0, None) == 140
    ensures var o := VM.Run(f, w, VM.Start(map[], blobs)); o.Success? ==> o.m.used == 169
  {
    var items := [StmtItem(OnceMore())];
    EstimateOfProgram(f.code, f.digest, items);
    ChargedIsCost(f, w, items, map[], blobs);
    LoopProgramCosts(EnvOf(f), items, VM.MAX_STEPS);
  }
}
