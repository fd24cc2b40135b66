/**
 What a run costs: the gas the VM charges a compiled program is exactly what the interpreter's own
 steps cost, in loops as well; and when that is the whole static estimate.
 */
module ShlCost {
  import opened Words
  import opened Shl
  import opened ShlLayout
  import opened ShlView
  import opened ShlCorrect
  import opened ShlStmts
  import opened ShlProgram
  import VM

  /* ----- The cost of interpreting ----- */

  /** The gas of a statement that does not fail: what its instructions cost as often as they are executed. */
  function StmtCost(env: Env, sc: Scope, s: Stmt, mem: Memory, fuel: nat): (g: nat)
    decreases fuel, s, 1
  {
    match s
    case Require(cond) => ExprGas(cond) + 4
    case If(cond, thn, els) =>
      var c := EvalExpr(env, sc, cond, mem.store);
      if c.Error? then 0
      else if c.v != 0 then
        ExprGas(cond) + 5 + StmtsCost(env, sc, thn, mem, fuel)
        + (if ExecStmts(env, sc, thn, mem, fuel).Normal? then 4 else 0)
      else ExprGas(cond) + 5 + StmtsCost(env, ScopeAfterAll(thn, sc), els, mem, fuel)
    case While(cond, body) =>
      var c := EvalExpr(env, sc, cond, mem.store);
      if fuel == 0 || c.Error? then 0
      else if c.v == 0 then ExprGas(cond) + 5
      else
        var r := ExecStmts(env, sc, body, mem, fuel);
        ExprGas(cond) + 5 + StmtsCost(env, sc, body, mem, fuel)
        + (if r.Normal? then 4 + StmtCost(env, sc, s, r.mem, fuel - 1) else 0)
    case _ => StmtGas(s)
  }

  function StmtsCost(env: Env, sc: Scope, ss: seq<Stmt>, mem: Memory, fuel: nat): (g: nat)
    decreases fuel, ss, 0
  {
    if ss == [] then 0
    else
      var r := ExecStmt(env, sc, ss[0], mem, fuel);
      StmtCost(env, sc, ss[0], mem, fuel)
      + (if r.Normal? then StmtsCost(env, ScopeAfter(ss[0], sc), ss[1..], r.mem, fuel) else 0)
  }

  /** POP, the parameters, the body, and STOP if it is reached. */
  function FnCost(env: Env, sc: Scope, fn: FnDecl, mem: Memory, fuel: nat): (g: nat)
  {
    var inner := BindAll(FreshLocals(sc), fn.params);
    var p := BindParams(env, FreshLocals(sc), fn.params, 0, mem);
    1 + 107 * |fn.params| + if p.Normal? then BodyCost(env, inner, fn.body, p.mem, fuel) else 0
  }

  /** Statements, and the STOP after them if it is reached. */
  function BodyCost(env: Env, sc: Scope, ss: seq<Stmt>, mem: Memory, fuel: nat): (g: nat)
  {
    StmtsCost(env, sc, ss, mem, fuel) + if ExecStmts(env, sc, ss, mem, fuel).Normal? then 1 else 0
  }

  function RouteCost(env: Env, sc: Scope, fns: seq<FnDecl>, sel: u64, mem: Memory, fuel: nat): (g: nat)
  {
    if fns == [] then 0
    else 9 + if Selector(env, fns[0].name) == sel then FnCost(env, sc, fns[0], mem, fuel)
             else RouteCost(env, sc, fns[1..], sel, mem, fuel)
  }

  function CallCost(env: Env, sc: Scope, fns: seq<FnDecl>, mem: Memory, fuel: nat): (g: nat)
  {
    var sel := ArgValue(env, 0);
    if sel.Error? then 0 else 4 + RouteCost(env, sc, fns, sel.v, mem, fuel)
  }

  function ProgramCost(env: Env, items: seq<Item>, store: map<u64, u64>, fuel: nat): (g: nat)
  {
    var sc, flat := DeclareAll(EMPTY_SCOPE, items), Statements(items);
    var r := ExecStmts(env, sc, flat, Memory(store, []), fuel);
    StmtsCost(env, sc, flat, Memory(store, []), fuel)
    + (if !r.Normal? then 0 else if Functions(items) == [] then 1 else CallCost(env, sc, Functions(items), r.mem, fuel))
  }

  /* ----- The same, kept closed as in `Exec` ----- */

  datatype CostView = CostView(
    stmt: (Scope, Stmt, Memory, nat) -> nat, block: (Scope, seq<Stmt>, Memory, nat) -> nat,
    route: (seq<FnDecl>, u64, Memory, nat) -> nat)

  ghost predicate CostsStmt(env: Env, v: CostView, s: Stmt)
  {
    forall sc: Scope, mem: Memory, fuel: nat :: v.stmt(sc, s, mem, fuel) == StmtCost(env, sc, s, mem, fuel)
  }

  ghost predicate CostsBlock(env: Env, v: CostView, ss: seq<Stmt>)
  {
    forall sc: Scope, mem: Memory, fuel: nat :: v.block(sc, ss, mem, fuel) == StmtsCost(env, sc, ss, mem, fuel)
  }

  ghost predicate CostsRoute(env: Env, top: Scope, v: CostView, fns: seq<FnDecl>)
  {
    forall sel: u64, mem: Memory, fuel: nat :: v.route(fns, sel, mem, fuel) == RouteCost(env, top, fns, sel, mem, fuel)
  }

  ghost predicate CostFaithful(env: Env, top: Scope, v: CostView)
  {
    && (forall s: Stmt {:trigger OpenS(s)} :: OpenS(s) ==> CostsStmt(env, v, s))
    && (forall ss: seq<Stmt> {:trigger OpenB(ss)} :: OpenB(ss) ==> CostsBlock(env, v, ss))
    && (forall fns: seq<FnDecl> {:trigger OpenF(fns)} :: OpenF(fns) ==> CostsRoute(env, top, v, fns))
  }

  ghost function CostViewOf(env: Env, top: Scope): (v: CostView)
    ensures CostFaithful(env, top, v)
  {
    CostView((sc: Scope, s: Stmt, mem: Memory, fuel: nat) => StmtCost(env, sc, s, mem, fuel),
             (sc: Scope, ss: seq<Stmt>, mem: Memory, fuel: nat) => StmtsCost(env, sc, ss, mem, fuel),
             (fns: seq<FnDecl>, sel: u64, mem: Memory, fuel: nat) => RouteCost(env, top, fns, sel, mem, fuel))
  }

  lemma CostSimple<W>(x: Exec<W>, top: Scope, v: CostView, s: Stmt, sc: Scope, mem: Memory, fuel: nat)
    requires ExprLayoutFaithful(x) == true && CostFaithful(EnvOf(x.f), top, v) == true && !s.If? && !s.While?
    ensures s.Require? ==> v.stmt(sc, s, mem, fuel) == x.ev.gas(s.cond) + 4
    ensures s.Return? ==> v.stmt(sc, s, mem, fuel) == x.ev.gas(s.val) + 1
    ensures s.Stop? || s.Revert? ==> v.stmt(sc, s, mem, fuel) == 1
    ensures Straight(s) ==> Exactly(v.stmt(sc, s, mem, fuel)) == StmtMeter(s)
  {
    assert OpenS(s);
    match s
    case Require(cond) => assert OpenE(cond);
    case Return(val) => assert OpenE(val);
    case _ =>
  }

  lemma CostIf<W>(x: Exec<W>, top: Scope, v: CostView, cond: Expr, thn: seq<Stmt>, els: seq<Stmt>, sc: Scope,
      mem: Memory, fuel: nat)
    requires ExprLayoutFaithful(x) == true && EvalFaithful(x) == true && ExecFaithful(x) == true
    requires CostFaithful(EnvOf(x.f), top, v) == true
    ensures var c, g := x.ev.eval(sc, cond, mem.store), x.ev.gas(cond);
            c.Value? ==> v.stmt(sc, If(cond, thn, els), mem, fuel)
                         == g + 5 + (if c.v != 0 then v.block(sc, thn, mem, fuel)
                                                      + (if x.bv.exec(sc, thn, mem, fuel).Normal? then 4 else 0)
                                     else v.block(ScopeAfterAll(thn, sc), els, mem, fuel))
  {
    assert OpenS(If(cond, thn, els)) && OpenE(cond) && OpenB(thn) && OpenB(els);
  }

  lemma CostWhile<W>(x: Exec<W>, top: Scope, v: CostView, cond: Expr, body: seq<Stmt>, sc: Scope, mem: Memory,
      fuel: nat)
    requires ExprLayoutFaithful(x) == true && EvalFaithful(x) == true && ExecFaithful(x) == true
    requires CostFaithful(EnvOf(x.f), top, v) == true && fuel > 0
    ensures var c, g, r := x.ev.eval(sc, cond, mem.store), x.ev.gas(cond), x.bv.exec(sc, body, mem, fuel);
            c.Value? ==> v.stmt(sc, While(cond, body), mem, fuel)
                         == g + 5 + (if c.v == 0 then 0
                                     else v.block(sc, body, mem, fuel)
                                          + (if r.Normal? then 4 + v.stmt(sc, While(cond, body), r.mem, fuel - 1)
                                             else 0))
  {
    assert OpenS(While(cond, body)) && OpenE(cond) && OpenB(body);
  }

  lemma CostBlock<W>(x: Exec<W>, top: Scope, v: CostView, ss: seq<Stmt>, sc: Scope, mem: Memory, fuel: nat)
    requires ExecFaithful(x) == true && CostFaithful(EnvOf(x.f), top, v) == true && ss != []
    ensures var r := x.sv.exec(sc, ss[0], mem, fuel);
            v.block(sc, ss, mem, fuel)
            == v.stmt(sc, ss[0], mem, fuel)
               + (if r.Normal? then v.block(ScopeAfter(ss[0], sc), ss[1..], r.mem, fuel) else 0)
  {
    assert OpenS(ss[0]) && OpenB(ss) && OpenB(ss[1..]);
  }

  lemma CostEmpty(env: Env, top: Scope, v: CostView, sc: Scope, mem: Memory, fuel: nat)
    requires CostFaithful(env, top, v) == true
    ensures v.block(sc, [], mem, fuel) == 0
  {
    ghost var none: seq<Stmt> := [];
    assert OpenB(none);
  }

  /* ----- Exact steps ----- */

  lemma ExactGuard<W>(x: Exec<W>, m: VM.Machine, m2: VM.Machine, c: Eval, n: nat, g: nat, target: nat, fuel: nat)
    returns (m1: VM.Machine)
    requires RunFaithful(x) == true && Evaluates(x, m, m2, c, n, g) == true && Inside(x, target)
             && target == m.pc + n + 11
    requires JumpAt(x.img, m.pc + n, target, VM.JUMPI) && OpAt(x.img, m.pc + n + 10, VM.REVERT)
    ensures Agrees(x, m, m1, Guard(MemOf(m), c), n + 11, Exactly(g + 4), fuel) == true
  {
    m1 := m;
    if c.Value? {
      m1 := StepJumpIf(x, m2, m.st, c.v, target);
      if c.v == 0 { StepRevert(x, m1); }
    }
  }

  lemma ExactReturn<W>(x: Exec<W>, m: VM.Machine, m2: VM.Machine, v: Eval, n: nat, g: nat, fuel: nat)
    requires RunFaithful(x) == true && Evaluates(x, m, m2, v, n, g) == true && OpAt(x.img, m.pc + n, VM.RETURN)
    ensures Agrees(x, m, m, Answer(MemOf(m), v), n + 1, Exactly(g + 1), fuel) == true
  {
    if v.Value? { StepReturn(x, m2, m.st, v.v); }
  }

  lemma ExactTrue<W>(x: Exec<W>, m: VM.Machine, m2: VM.Machine, m3: VM.Machine, r: Result, n: nat, g: nat, tn: nat,
      t: nat, en: nat, fuel: nat) returns (m1: VM.Machine)
    requires RunFaithful(x) == true && Lands(x, m, m2, m.pc + n + 11, g + 5) == true && m.pc >= 0
    requires Agrees(x, m2, m3, r, tn, Exactly(t), fuel) == true
    requires JumpAt(x.img, m.pc + n + 11 + tn, m.pc + n + 21 + tn + en, VM.JUMP) && Inside(x, m.pc + n + 21 + tn + en)
    ensures Agrees(x, m, m1, r, n + 21 + tn + en, Exactly(g + 5 + t + (if r.Normal? then 4 else 0)), fuel) == true
  {
    m1 := m3;
    if r.Normal? { m1 := StepJump(x, m3, m.pc + n + 21 + tn + en); }
  }

  lemma ExactFalse<W>(x: Exec<W>, m: VM.Machine, m2: VM.Machine, m1: VM.Machine, r: Result, n: nat, g: nat, tn: nat,
      en: nat, t: nat, fuel: nat)
    requires Lands(x, m, m2, m.pc + n + 21 + tn, g + 5) == true && Agrees(x, m2, m1, r, en, Exactly(t), fuel) == true
    ensures Agrees(x, m, m1, r, n + 21 + tn + en, Exactly(g + 5 + t), fuel) == true
  {
  }

  lemma ExactBack<W>(x: Exec<W>, m: VM.Machine, m2: VM.Machine, m3: VM.Machine, r: Result, n: nat, g: nat, bn: nat,
      t: nat, fuel: nat) returns (m1: VM.Machine)
    requires RunFaithful(x) == true && Lands(x, m, m2, m.pc + n + 11, g + 5) == true && Inside(x, m.pc)
    requires Agrees(x, m2, m3, r, bn, Exactly(t), fuel) == true && JumpAt(x.img, m.pc + n + 11 + bn, m.pc, VM.JUMP)
    ensures r.Normal? ==> Goes(x, m, m1) && m1.steps > m.steps && Passed(m, m1, 0, r.mem, Exactly(g + 9 + t))
    ensures !r.Normal? ==> Agrees(x, m, m1, r, n + 21 + bn, Exactly(g + 5 + t), fuel) == true
  {
    m1 := m3;
    if r.Normal? { m1 := StepJump(x, m3, m.pc); }
  }

  lemma ExactRound<W>(x: Exec<W>, m: VM.Machine, m2: VM.Machine, m1: VM.Machine, mem: Memory, r: Result, size: nat,
      a: nat, b: nat, fuel: nat)
    requires Goes(x, m, m2) && m2.steps > m.steps && Passed(m, m2, 0, mem, Exactly(a))
    requires fuel > 0 && Agrees(x, m2, m1, r, size, Exactly(b), fuel - 1) == true
    ensures Agrees(x, m, m1, r, size, Exactly(a + b), fuel) == true
  {
  }

  lemma ExactExit<W>(x: Exec<W>, m: VM.Machine, m1: VM.Machine, n: nat, g: nat, bn: nat, fuel: nat)
    requires Lands(x, m, m1, m.pc + n + 21 + bn, g + 5) == true
    ensures Agrees(x, m, m1, Normal(MemOf(m)), n + 21 + bn, Exactly(g + 5), fuel) == true
  {
  }

  lemma ExactInTurn<W>(x: Exec<W>, m: VM.Machine, m2: VM.Machine, m1: VM.Machine, r: Result, r': Result, n: nat,
      n': nat, a: nat, b: nat, fuel: nat)
    requires Agrees(x, m, m2, r, n, Exactly(a), fuel) == true
    requires r.Normal? ==> Agrees(x, m2, m1, r', n', Exactly(b), fuel) == true
    ensures Agrees(x, m, m1, if r.Normal? then r' else r, n + n', Exactly(a + (if r.Normal? then b else 0)),
                   fuel) == true
  {
  }

  /** A result that is no end has no cost to speak of. */
  lemma AnyCost<W>(x: Exec<W>, m: VM.Machine, m1: VM.Machine, r: Result, size: nat, a: Meter, b: Meter, fuel: nat)
    requires Agrees(x, m, m1, r, size, a, fuel) == true && (r.Failed? || r.OutOfFuel?)
    ensures Agrees(x, m, m1, r, size, b, fuel) == true
  {
  }

  /* ----- Statements ----- */

  ghost predicate Costed<W>(x: Exec<W>, top: Scope, v: CostView)
  {
    Ready(x) && LayoutFaithful(x) && MeterFaithful(x) && ExecFaithful(x) && CostFaithful(EnvOf(x.f), top, v)
  }

  lemma ExactSimple<W>(x: Exec<W>, top: Scope, v: CostView, m: VM.Machine, s: Stmt, sc: Scope, fuel: nat)
      returns (m1: VM.Machine)
    requires s.Require? || s.Revert? || s.Stop? || s.Return?
    requires Costed(x, top, v) == true && m.pc >= 0 && x.sv.at(m.pc, s, sc) && Inside(x, m.pc + x.sv.size(s))
    ensures Agrees(x, m, m1, x.sv.exec(sc, s, MemOf(m), fuel), x.sv.size(s), Exactly(v.stmt(sc, s, MemOf(m), fuel)),
                   fuel) == true
  {
    CostSimple(x, top, v, s, sc, MemOf(m), fuel);
    DoSimple(x, sc, s, MemOf(m), fuel);
    m1 := m;
    match s
    case Require(cond) =>
      PlaceRequire(x, m.pc, cond, sc);
      var m2 := SimExpr(x, m, cond, sc);
      m1 := ExactGuard(x, m, m2, x.ev.eval(sc, cond, m.work), x.ev.size(cond), x.ev.gas(cond),
                       m.pc + x.ev.size(cond) + 11, fuel);
    case Return(val) =>
      PlaceReturn(x, m.pc, val, sc);
      var m2 := SimExpr(x, m, val, sc);
      ExactReturn(x, m, m2, x.ev.eval(sc, val, m.work), x.ev.size(val), x.ev.gas(val), fuel);
    case Revert => PlaceOther(x, m.pc, s, sc); StepRevert(x, m);
    case Stop => PlaceOther(x, m.pc, s, sc); StepStop(x, m);
  }

  lemma ExactStraight<W>(x: Exec<W>, top: Scope, v: CostView, m: VM.Machine, s: Stmt, sc: Scope, fuel: nat)
      returns (m1: VM.Machine)
    requires Straight(s) && Costed(x, top, v) == true && m.pc >= 0 && x.sv.at(m.pc, s, sc)
             && Inside(x, m.pc + x.sv.size(s))
    ensures Agrees(x, m, m1, x.sv.exec(sc, s, MemOf(m), fuel), x.sv.size(s), Exactly(v.stmt(sc, s, MemOf(m), fuel)),
                   fuel) == true
  {
    CostSimple(x, top, v, s, sc, MemOf(m), fuel);
    assert OpenS(s);
    m1 := SimStmt(x, m, s, sc, fuel);
  }

  lemma {:induction false} ExactIf<W>(x: Exec<W>, top: Scope, v: CostView, m: VM.Machine, cond: Expr, thn: seq<Stmt>,
      els: seq<Stmt>, sc: Scope, fuel: nat) returns (m1: VM.Machine)
    requires Costed(x, top, v) == true && m.pc >= 0 && x.sv.at(m.pc, If(cond, thn, els), sc)
             && Inside(x, m.pc + x.sv.size(If(cond, thn, els)))
    ensures Agrees(x, m, m1, x.sv.exec(sc, If(cond, thn, els), MemOf(m), fuel), x.sv.size(If(cond, thn, els)),
                   Exactly(v.stmt(sc, If(cond, thn, els), MemOf(m), fuel)), fuel) == true
    decreases fuel, If(cond, thn, els), 0
  {
    var n, g, tn, en := x.ev.size(cond), x.ev.gas(cond), x.bv.size(thn), x.bv.size(els);
    PlaceIf(x, m.pc, cond, thn, els, sc);
    DoIf(x, cond, thn, els, sc, MemOf(m), fuel);
    CostIf(x, top, v, cond, thn, els, sc, MemOf(m), fuel);
    var c := x.ev.eval(sc, cond, m.work);
    m1 := SimTest(x, m, cond, sc, m.pc + n + 21 + tn);
    if c.Value? && c.v != 0 {
      var m3 := ExactStmts(x, top, v, m1, thn, sc, fuel);
      m1 := ExactTrue(x, m, m1, m3, x.bv.exec(sc, thn, MemOf(m), fuel), n, g, tn, v.block(sc, thn, MemOf(m), fuel), en,
                      fuel);
    } else if c.Value? {
      var m2, sc1 := m1, ScopeAfterAll(thn, sc);
      m1 := ExactStmts(x, top, v, m2, els, sc1, fuel);
      ExactFalse(x, m, m2, m1, x.bv.exec(sc1, els, MemOf(m), fuel), n, g, tn, en, v.block(sc1, els, MemOf(m), fuel),
                 fuel);
    }
  }

  lemma {:induction false} ExactWhile<W>(x: Exec<W>, top: Scope, v: CostView, m: VM.Machine, cond: Expr,
      body: seq<Stmt>, sc: Scope, fuel: nat) returns (m1: VM.Machine)
    requires Costed(x, top, v) == true && m.pc >= 0 && x.sv.at(m.pc, While(cond, body), sc)
             && Inside(x, m.pc + x.sv.size(While(cond, body)))
    ensures Agrees(x, m, m1, x.sv.exec(sc, While(cond, body), MemOf(m), fuel), x.sv.size(While(cond, body)),
                   Exactly(v.stmt(sc, While(cond, body), MemOf(m), fuel)), fuel) == true
    decreases fuel, While(cond, body), 0
  {
    var n, g, bn := x.ev.size(cond), x.ev.gas(cond), x.bv.size(body);
    PlaceWhile(x, m.pc, cond, body, sc);
    DoWhile(x, cond, body, sc, MemOf(m), fuel);
    m1 := m;
    if fuel == 0 {
      if m.steps >= VM.MAX_STEPS { NoStepsLeft(x, m); }
    } else {
      CostWhile(x, top, v, cond, body, sc, MemOf(m), fuel);
      var c := x.ev.eval(sc, cond, m.work);
      m1 := SimTest(x, m, cond, sc, m.pc + n + 21 + bn);
      if c.Value? && c.v == 0 {
        ExactExit(x, m, m1, n, g, bn, fuel);
      } else if c.Value? {
        m1 := ExactLoop(x, top, v, m, m1, cond, body, sc, fuel);
      }
    }
  }

  /** The body and what follows it, the test having passed. */
  lemma {:induction false} ExactLoop<W>(x: Exec<W>, top: Scope, v: CostView, m: VM.Machine, m2: VM.Machine, cond: Expr,
      body: seq<Stmt>, sc: Scope, fuel: nat) returns (m1: VM.Machine)
    requires Costed(x, top, v) == true && m.pc >= 0 && x.sv.at(m.pc, While(cond, body), sc) && fuel > 0
             && Inside(x, m.pc + x.sv.size(While(cond, body)))
    requires Lands(x, m, m2, m.pc + x.ev.size(cond) + 11, x.ev.gas(cond) + 5) == true
    ensures var r := x.bv.exec(sc, body, MemOf(m), fuel);
            var t := x.ev.gas(cond) + 5 + v.block(sc, body, MemOf(m), fuel)
                     + (if r.Normal? then 4 + v.stmt(sc, While(cond, body), r.mem, fuel - 1) else 0);
            Agrees(x, m, m1, if r.Normal? then x.sv.exec(sc, While(cond, body), r.mem, fuel - 1) else r,
                   x.sv.size(While(cond, body)), Exactly(t), fuel) == true
    decreases fuel, body, 1
  {
    var n, g, bn := x.ev.size(cond), x.ev.gas(cond), x.bv.size(body);
    PlaceWhile(x, m.pc, cond, body, sc);
    var r, b := x.bv.exec(sc, body, MemOf(m), fuel), v.block(sc, body, MemOf(m), fuel);
    var m3 := ExactStmts(x, top, v, m2, body, sc, fuel);
    m1 := ExactBack(x, m, m2, m3, r, n, g, bn, b, fuel);
    if r.Normal? {
      var m4 := m1;
      m1 := ExactWhile(x, top, v, m4, cond, body, sc, fuel - 1);
      ExactRound(x, m, m4, m1, r.mem, x.sv.exec(sc, While(cond, body), r.mem, fuel - 1), n + 21 + bn, g + 9 + b,
                 v.stmt(sc, While(cond, body), r.mem, fuel - 1), fuel);
    }
  }

  lemma {:induction false} ExactStmt<W>(x: Exec<W>, top: Scope, v: CostView, m: VM.Machine, s: Stmt, sc: Scope,
      fuel: nat) returns (m1: VM.Machine)
    requires Costed(x, top, v) == true && m.pc >= 0 && x.sv.at(m.pc, s, sc) && Inside(x, m.pc + x.sv.size(s))
    ensures Agrees(x, m, m1, x.sv.exec(sc, s, MemOf(m), fuel), x.sv.size(s), Exactly(v.stmt(sc, s, MemOf(m), fuel)),
                   fuel) == true
    decreases fuel, s, 1
  {
    match s
    case If(cond, thn, els) => m1 := ExactIf(x, top, v, m, cond, thn, els, sc, fuel);
    case While(cond, body) => m1 := ExactWhile(x, top, v, m, cond, body, sc, fuel);
    case Let(_, _) => m1 := ExactStraight(x, top, v, m, s, sc, fuel);
    case Store(_, _) => m1 := ExactStraight(x, top, v, m, s, sc, fuel);
    case IndexStore(_, _, _) => m1 := ExactStraight(x, top, v, m, s, sc, fuel);
    case Emit(_) => m1 := ExactStraight(x, top, v, m, s, sc, fuel);
    case _ => m1 := ExactSimple(x, top, v, m, s, sc, fuel);
  }

  /** The gas of compiled statements is what interpreting them costs. */
  lemma {:induction false} ExactStmts<W>(x: Exec<W>, top: Scope, v: CostView, m: VM.Machine, ss: seq<Stmt>, sc: Scope,
      fuel: nat) returns (m1: VM.Machine)
    requires Costed(x, top, v) == true && m.pc >= 0 && x.bv.at(m.pc, ss, sc) && Inside(x, m.pc + x.bv.size(ss))
    ensures Agrees(x, m, m1, x.bv.exec(sc, ss, MemOf(m), fuel), x.bv.size(ss), Exactly(v.block(sc, ss, MemOf(m), fuel)),
                   fuel) == true
    decreases fuel, ss, 0
  {
    m1 := m;
    if ss == [] {
      EmptyBlock(x, sc, MemOf(m), fuel);
      CostEmpty(EnvOf(x.f), top, v, sc, MemOf(m), fuel);
    } else {
      PlaceBlock(x, m.pc, ss, sc);
      DoBlock(x, ss, sc, MemOf(m), fuel);
      CostBlock(x, top, v, ss, sc, MemOf(m), fuel);
      var r, sc1 := x.sv.exec(sc, ss[0], MemOf(m), fuel), ScopeAfter(ss[0], sc);
      var m2 := ExactStmt(x, top, v, m, ss[0], sc, fuel);
      m1 := m2;
      if r.Normal? { m1 := ExactStmts(x, top, v, m2, ss[1..], sc1, fuel); }
      ExactInTurn(x, m, m2, m1, r, if r.Normal? then x.bv.exec(sc1, ss[1..], r.mem, fuel) else r,
                  x.sv.size(ss[0]), x.bv.size(ss[1..]), v.stmt(sc, ss[0], MemOf(m), fuel),
                  if r.Normal? then v.block(sc1, ss[1..], r.mem, fuel) else 0, fuel);
    }
  }

  /* ----- Functions and programs ----- */

  lemma ExactStop<W>(x: Exec<W>, m: VM.Machine, m1: VM.Machine, r: Result, n: nat, g: nat, fuel: nat)
    requires RunFaithful(x) == true && Agrees(x, m, m1, r, n, Exactly(g), fuel) == true
             && OpAt(x.img, m.pc + n, VM.STOP)
    ensures Ends(x, m, Ended(r), m.st, Exactly(g + (if r.Normal? then 1 else 0)), fuel) == true
  {
    if r.Normal? { StepStop(x, m1); }
  }

  lemma ExactEnds<W>(x: Exec<W>, m: VM.Machine, m1: VM.Machine, r: Result, r': Result, n: nat, a: nat, b: nat,
      fuel: nat)
    requires Agrees(x, m, m1, r, n, Exactly(a), fuel) == true
    requires r.Normal? ==> Ends(x, m1, r', m1.st, Exactly(b), fuel) == true
    ensures Ends(x, m, if r.Normal? then r' else r, m.st, Exactly(a + (if r.Normal? then b else 0)), fuel) == true
  {
  }

  lemma ExactMove<W>(x: Exec<W>, m: VM.Machine, m1: VM.Machine, pc: int, st1: seq<u64>, r: Result, st: seq<u64>, g: nat,
      a: nat, fuel: nat)
    requires Goes(x, m, m1) && Moved(m, m1, pc, st1, g) && Ends(x, m1, r, st, Exactly(a), fuel) == true
    ensures Ends(x, m, r, st, Exactly(g + a), fuel) == true
  {
  }

  /** A block, in the terms of the layout and the interpreter. */
  lemma ExactBlock<W>(x: Exec<W>, top: Scope, v: CostView, m: VM.Machine, ss: seq<Stmt>, sc: Scope, fuel: nat)
      returns (m1: VM.Machine)
    requires Costed(x, top, v) == true && m.pc >= 0 && StmtsAt(x.img, m.pc, ss, sc) == true
             && Inside(x, m.pc + StmtsSize(ss))
    ensures Agrees(x, m, m1, ExecStmts(EnvOf(x.f), sc, ss, MemOf(m), fuel), StmtsSize(ss),
                   Exactly(StmtsCost(EnvOf(x.f), sc, ss, MemOf(m), fuel)), fuel) == true
  {
    OpenBlock(x, m.pc, ss, sc, MemOf(m), fuel);
    assert OpenB(ss);
    m1 := ExactStmts(x, top, v, m, ss, sc, fuel);
  }

  lemma ExactBody<W>(x: Exec<W>, top: Scope, v: CostView, m: VM.Machine, ss: seq<Stmt>, sc: Scope, fuel: nat)
    requires Costed(x, top, v) == true && m.pc >= 0 && StmtsAt(x.img, m.pc, ss, sc) == true
    requires OpAt(x.img, m.pc + StmtsSize(ss), VM.STOP) && Inside(x, m.pc + StmtsSize(ss))
    ensures Ends(x, m, Ended(ExecStmts(EnvOf(x.f), sc, ss, MemOf(m), fuel)), m.st,
                 Exactly(BodyCost(EnvOf(x.f), sc, ss, MemOf(m), fuel)), fuel) == true
  {
    var m1 := ExactBlock(x, top, v, m, ss, sc, fuel);
    ExactStop(x, m, m1, ExecStmts(EnvOf(x.f), sc, ss, MemOf(m), fuel), StmtsSize(ss),
              StmtsCost(EnvOf(x.f), sc, ss, MemOf(m), fuel), fuel);
  }

  /** A call, the selector already dropped. */
  lemma ExactCall<W>(x: Exec<W>, top: Scope, v: CostView, m: VM.Machine, fn: FnDecl, sc: Scope, fuel: nat)
    requires Costed(x, top, v) == true && m.pc >= 0 && ParamsAt(x.img, m.pc, fn.params, 0, FreshLocals(sc)) == true
    requires StmtsAt(x.img, m.pc + 20 * |fn.params|, fn.body, BindAll(FreshLocals(sc), fn.params)) == true
    requires OpAt(x.img, m.pc + 20 * |fn.params| + StmtsSize(fn.body), VM.STOP)
    requires Inside(x, m.pc + 20 * |fn.params| + StmtsSize(fn.body))
    ensures Ends(x, m, CallFn(EnvOf(x.f), sc, fn, MemOf(m), fuel), m.st,
                 Exactly(FnCost(EnvOf(x.f), sc, fn, MemOf(m), fuel) - 1), fuel) == true
  {
    var env, inner := EnvOf(x.f), FreshLocals(sc);
    var p := BindParams(env, inner, fn.params, 0, MemOf(m));
    var m1 := SimParams(x, m, fn.params, 0, inner, fuel);
    ParamsNeverHalt(env, inner, fn.params, 0, MemOf(m));
    if p.Normal? {
      WherePassed(x, m, m1, p, 20 * |fn.params|, 107 * |fn.params|, fuel);
      ExactBody(x, top, v, m1, fn.body, BindAll(inner, fn.params), fuel);
    }
    PartsOfCall(env, sc, fn, MemOf(m), fuel, p);
    ExactEnds(x, m, m1, p, CallFn(env, sc, fn, MemOf(m), fuel), 20 * |fn.params|, 107 * |fn.params|,
              FnCost(env, sc, fn, MemOf(m), fuel) - 1 - 107 * |fn.params|, fuel);
  }

  lemma PartsOfCall(env: Env, sc: Scope, fn: FnDecl, mem: Memory, fuel: nat, p: Result)
    requires p == BindParams(env, FreshLocals(sc), fn.params, 0, mem)
    ensures var inner := BindAll(FreshLocals(sc), fn.params);
            && CallFn(env, sc, fn, mem, fuel)
               == (if p.Normal? then Ended(ExecStmts(env, inner, fn.body, p.mem, fuel)) else p)
            && FnCost(env, sc, fn, mem, fuel)
               == 1 + 107 * |fn.params| + (if p.Normal? then BodyCost(env, inner, fn.body, p.mem, fuel) else 0)
  {
  }

  lemma ExactFn<W>(x: Exec<W>, top: Scope, v: CostView, m: VM.Machine, base: seq<u64>, sel: u64, fn: FnDecl, sc: Scope,
      fuel: nat)
    requires Costed(x, top, v) == true && m.pc >= 0 && m.st == base + [sel]
    requires FnAt(x.img, m.pc, fn, sc) == true && Inside(x, m.pc + FnSize(fn))
    ensures Ends(x, m, CallFn(EnvOf(x.f), sc, fn, MemOf(m), fuel), base,
                 Exactly(FnCost(EnvOf(x.f), sc, fn, MemOf(m), fuel)), fuel) == true
  {
    var m1 := StepPop(x, m, base, sel);
    ExactCall(x, top, v, m1, fn, sc, fuel);
    ExactMove(x, m, m1, m.pc + 1, base, CallFn(EnvOf(x.f), sc, fn, MemOf(m), fuel), base, 1,
              FnCost(EnvOf(x.f), sc, fn, MemOf(m), fuel) - 1, fuel);
  }

  lemma CostOfRoute(env: Env, top: Scope, v: CostView, fns: seq<FnDecl>, sel: u64, mem: Memory, fuel: nat)
    requires CostFaithful(env, top, v) == true && fns != []
    ensures v.route(fns, sel, mem, fuel)
            == 9 + (if env.digest(fns[0].name) == sel then FnCost(env, top, fns[0], mem, fuel)
                    else v.route(fns[1..], sel, mem, fuel))
  {
    assert OpenF(fns) && OpenF(fns[1..]);
  }

  lemma {:induction false} ExactRoutes<W>(x: Exec<W>, v: CostView, m: VM.Machine, base: seq<u64>, sel: u64,
      fns: seq<FnDecl>, sc: Scope, fv: FnView, target: nat, fuel: nat)
    requires Costed(x, sc, v) == true && FnFaithful(x, sc, fv) == true && m.pc >= 0 && m.st == base + [sel]
    requires fv.routes(m.pc, fns, target) && fv.at(target, fns)
    requires OpAt(x.img, m.pc + 21 * |fns|, VM.POP) && OpAt(x.img, m.pc + 21 * |fns| + 1, VM.REVERT)
    requires Inside(x, target + fv.size(fns))
    ensures Ends(x, m, fv.route(fns, sel, MemOf(m), fuel), base, Exactly(v.route(fns, sel, MemOf(m), fuel)),
                 fuel) == true
    decreases fns, 1
  {
    OpenRoute(x, sc, fv, fns, sel, MemOf(m), fuel);
    if fns == [] {
      NoMatch(x, m, base, sel);
    } else {
      OpenRoutes(x, sc, fv, fns, m.pc, target);
      CostOfRoute(EnvOf(x.f), sc, v, fns, sel, MemOf(m), fuel);
      var s := x.f.digest(fns[0].name);
      if s == sel {
        ExactHit(x, v, m, base, sel, fns[0], sc, target, fuel);
      } else {
        ExactMiss(x, v, m, base, sel, s, fns, fns[1..], sc, fv, target, target + FnSize(fns[0]), fuel);
      }
    }
  }

  /** The comparison matches: the function is called. */
  lemma ExactHit<W>(x: Exec<W>, v: CostView, m: VM.Machine, base: seq<u64>, sel: u64, fn: FnDecl, sc: Scope,
      target: nat,
      fuel: nat)
    requires Costed(x, sc, v) == true && m.pc >= 0 && m.st == base + [sel]
    requires OpAt(x.img, m.pc, VM.DUP) && PushAt(x.img, m.pc + 1, sel) && OpAt(x.img, m.pc + 10, VM.EQ)
    requires JumpAt(x.img, m.pc + 11, target, VM.JUMPI)
    requires FnAt(x.img, target, fn, sc) == true && Inside(x, target + FnSize(fn))
    ensures Ends(x, m, CallFn(EnvOf(x.f), sc, fn, MemOf(m), fuel), base,
                 Exactly(9 + FnCost(EnvOf(x.f), sc, fn, MemOf(m), fuel)), fuel) == true
  {
    var m1 := SimRoute(x, m, base, sel, sel, target);
    ExactFn(x, sc, v, m1, base, sel, fn, sc, fuel);
    ExactMove(x, m, m1, target, m.st, CallFn(EnvOf(x.f), sc, fn, MemOf(m), fuel), base, 9,
              FnCost(EnvOf(x.f), sc, fn, MemOf(m), fuel), fuel);
  }

  /** It does not match: the routes after it decide. */
  lemma {:induction false} ExactMiss<W>(x: Exec<W>, v: CostView, m: VM.Machine, base: seq<u64>, sel: u64, s: u64,
      fns: seq<FnDecl>, rest: seq<FnDecl>, sc: Scope, fv: FnView, target: nat, next: nat, fuel: nat)
    requires Costed(x, sc, v) == true && FnFaithful(x, sc, fv) == true && m.pc >= 0 && m.st == base + [sel]
    requires fns != [] && rest == fns[1..] && s != sel && Inside(x, target)
    requires OpAt(x.img, m.pc, VM.DUP) && PushAt(x.img, m.pc + 1, s) && OpAt(x.img, m.pc + 10, VM.EQ)
    requires JumpAt(x.img, m.pc + 11, target, VM.JUMPI) && fv.routes(m.pc + 21, rest, next) && fv.at(next, rest)
    requires OpAt(x.img, m.pc + 21 * |fns|, VM.POP) && OpAt(x.img, m.pc + 21 * |fns| + 1, VM.REVERT)
             && Inside(x, next + fv.size(rest))
    ensures Ends(x, m, fv.route(rest, sel, MemOf(m), fuel), base, Exactly(9 + v.route(rest, sel, MemOf(m), fuel)),
                 fuel) == true
    decreases fns, 0
  {
    var m1 := SimRoute(x, m, base, sel, s, target);
    assert m1.pc + 21 * |rest| == m.pc + 21 * |fns|;
    ExactRoutes(x, v, m1, base, sel, rest, sc, fv, next, fuel);
    ExactMove(x, m, m1, m.pc + 21, m.st, fv.route(rest, sel, MemOf(m), fuel), base, 9,
              v.route(rest, sel, MemOf(m), fuel),
              fuel);
  }

  lemma ExactSelected<W>(x: Exec<W>, m: VM.Machine, m1: VM.Machine, sel: u64, r: Result, a: nat, fuel: nat)
    requires Evaluates(x, m, m1, Value(sel), 10, 4) == true && Ends(x, m1, r, m.st, Exactly(a), fuel) == true
    ensures Ends(x, m, r, m.st, Exactly(4 + a), fuel) == true
  {
  }

  lemma ExactRouter<W>(x: Exec<W>, v: CostView, m: VM.Machine, fns: seq<FnDecl>, sc: Scope, fv: FnView, r: Result,
      g: nat,
      fuel: nat)
    requires Costed(x, sc, v) == true && FnFaithful(x, sc, fv) == true && m.pc >= 0
    requires Dispatches(x, m.pc, fns, fv) == true && Inside(x, m.pc + 12 + 21 * |fns| + fv.size(fns))
    requires var sel := ArgValue(EnvOf(x.f), 0);
             if sel.Error? then r == Failed(sel.err)
             else r == fv.route(fns, sel.v, MemOf(m), fuel) && g == 4 + v.route(fns, sel.v, MemOf(m), fuel)
    ensures Ends(x, m, r, m.st, Exactly(g), fuel) == true
  {
    var m1 := SimSelector(x, m);
    var sel := ArgValue(EnvOf(x.f), 0);
    if sel.Value? {
      ExactRoutes(x, v, m1, m.st, sel.v, fns, sc, fv, m.pc + 12 + 21 * |fns|, fuel);
      ExactSelected(x, m, m1, sel.v, r, v.route(fns, sel.v, MemOf(m), fuel), fuel);
    }
  }

  lemma ExactDispatch<W>(x: Exec<W>, v: CostView, m: VM.Machine, fns: seq<FnDecl>, sc: Scope, fv: FnView, fuel: nat)
    requires Costed(x, sc, v) == true && FnFaithful(x, sc, fv) == true && m.pc >= 0
    requires DispatchAt(x.img, m.pc, x.f.digest, fns, sc) == true && Inside(x, m.pc + DispatchSize(fns))
    ensures Ends(x, m, Call(EnvOf(x.f), sc, fns, MemOf(m), fuel), m.st,
                 Exactly(CallCost(EnvOf(x.f), sc, fns, MemOf(m), fuel)), fuel) == true
  {
    OpenDispatch(x, m.pc, fns, sc, fv, MemOf(m), fuel);
    assert OpenF(fns);
    ExactRouter(x, v, m, fns, sc, fv, Call(EnvOf(x.f), sc, fns, MemOf(m), fuel),
                CallCost(EnvOf(x.f), sc, fns, MemOf(m), fuel), fuel);
  }

  lemma ExactFlatProgram<W>(x: Exec<W>, items: seq<Item>, store: map<u64, u64>, blobs: map<u64, seq<byte>>, fuel: nat)
    requires Faithful(x) == true && Functions(items) == []
    requires StmtsAt(x.img, 0, Statements(items), DeclareAll(EMPTY_SCOPE, items)) == true
    requires OpAt(x.img, StmtsSize(Statements(items)), VM.STOP) && Inside(x, StmtsSize(Statements(items)))
    ensures Ends(x, VM.Start(store, blobs), ExecProgram(EnvOf(x.f), items, store, fuel), [],
                 Exactly(ProgramCost(EnvOf(x.f), items, store, fuel)), fuel) == true
  {
    var sc := DeclareAll(EMPTY_SCOPE, items);
    ExactBody(x, sc, CostViewOf(EnvOf(x.f), sc), VM.Start(store, blobs), Statements(items), sc, fuel);
  }

  lemma WherePassed<W>(x: Exec<W>, m: VM.Machine, m1: VM.Machine, r: Result, size: nat, g: nat, fuel: nat)
    requires Agrees(x, m, m1, r, size, Exactly(g), fuel) == true && r.Normal?
    ensures m1.pc == m.pc + size && MemOf(m1) == r.mem && m1.st == m.st
  {
  }

  /** Top-level statements, then the call. */
  lemma ExactParts<W>(x: Exec<W>, v: CostView, m: VM.Machine, flat: seq<Stmt>, fns: seq<FnDecl>, sc: Scope, fv: FnView,
      r: Result, fuel: nat)
    requires Costed(x, sc, v) == true && FnFaithful(x, sc, fv) == true && m.pc == 0
    requires StmtsAt(x.img, 0, flat, sc) == true && DispatchAt(x.img, StmtsSize(flat), x.f.digest, fns, sc) == true
    requires Inside(x, StmtsSize(flat) + DispatchSize(fns)) && r == ExecStmts(EnvOf(x.f), sc, flat, MemOf(m), fuel)
    ensures Ends(x, m, if r.Normal? then Call(EnvOf(x.f), sc, fns, r.mem, fuel) else r, m.st,
                 Exactly(StmtsCost(EnvOf(x.f), sc, flat, MemOf(m), fuel)
                         + (if r.Normal? then CallCost(EnvOf(x.f), sc, fns, r.mem, fuel) else 0)), fuel) == true
  {
    var m1 := ExactBlock(x, sc, v, m, flat, sc, fuel);
    var a, b, r' := StmtsCost(EnvOf(x.f), sc, flat, MemOf(m), fuel), 0, r;
    if r.Normal? {
      WherePassed(x, m, m1, r, StmtsSize(flat), a, fuel);
      ExactDispatch(x, v, m1, fns, sc, fv, fuel);
      r', b := Call(EnvOf(x.f), sc, fns, r.mem, fuel), CallCost(EnvOf(x.f), sc, fns, r.mem, fuel);
    }
    ExactEnds(x, m, m1, r, r', StmtsSize(flat), a, b, fuel);
  }

  lemma PartsOfProgram(env: Env, items: seq<Item>, store: map<u64, u64>, fuel: nat, sc: Scope, r: Result)
    requires Functions(items) != [] && sc == DeclareAll(EMPTY_SCOPE, items)
    requires r == ExecStmts(env, sc, Statements(items), Memory(store, []), fuel)
    ensures ExecProgram(env, items, store, fuel)
            == if r.Normal? then Call(env, sc, Functions(items), r.mem, fuel) else r
    ensures ProgramCost(env, items, store, fuel)
            == StmtsCost(env, sc, Statements(items), Memory(store, []), fuel)
               + (if r.Normal? then CallCost(env, sc, Functions(items), r.mem, fuel) else 0)
  {
  }

  lemma ExactFnProgram<W>(x: Exec<W>, items: seq<Item>, store: map<u64, u64>, blobs: map<u64, seq<byte>>, fuel: nat)
    requires Faithful(x) == true && Functions(items) != []
    requires StmtsAt(x.img, 0, Statements(items), DeclareAll(EMPTY_SCOPE, items)) == true
    requires DispatchAt(x.img, StmtsSize(Statements(items)), x.f.digest, Functions(items),
                        DeclareAll(EMPTY_SCOPE, items)) == true
    requires Inside(x, StmtsSize(Statements(items)) + DispatchSize(Functions(items)))
    ensures Ends(x, VM.Start(store, blobs), ExecProgram(EnvOf(x.f), items, store, fuel), [],
                 Exactly(ProgramCost(EnvOf(x.f), items, store, fuel)), fuel) == true
  {
    var m, sc := VM.Start(store, blobs), DeclareAll(EMPTY_SCOPE, items);
    var r := ExecStmts(EnvOf(x.f), sc, Statements(items), Memory(store, []), fuel);
    FnViewIsFaithful(x, sc);
    ExactParts(x, CostViewOf(EnvOf(x.f), sc), m, Statements(items), Functions(items), sc, FnViewOf(x, sc), r, fuel);
    PartsOfProgram(EnvOf(x.f), items, store, fuel, sc, r);
  }

  /** The gas a successful run of a compiled program counts is what interpreting the program costs, loops and all. */
  lemma CostIsExact<W>(f: VM.Frame<W>, w: W, items: seq<Item>, store: map<u64, u64>, blobs: map<u64, seq<byte>>,
      fuel: nat)
    requires ProgramAt(f.code, f.digest, items) && |f.code| < TWO63
    ensures var o, r := VM.Run(f, w, VM.Start(store, blobs)), ExecProgram(EnvOf(f), items, store, fuel);
            o.Success? && !r.OutOfFuel? ==> o.m.spent == ProgramCost(EnvOf(f), items, store, fuel)
  {
    var x := ExecOf(f, w);
    ExecOfIsFaithful(f, w);
    if Functions(items) == [] {
      ExactFlatProgram(x, items, store, blobs, fuel);
    } else {
      ExactFnProgram(x, items, store, blobs, fuel);
    }
    EndsMeans(x, VM.Start(store, blobs), ExecProgram(EnvOf(f), items, store, fuel),
              Exactly(ProgramCost(EnvOf(f), items, store, fuel)), fuel);
    assert Unfold(VM.Start(store, blobs));
  }
}
