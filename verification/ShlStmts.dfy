/** Compiled statements and blocks do what the interpreter says. */
module ShlStmts {
  import opened Words
  import opened Shl
  import opened ShlLayout
  import opened ShlView
  import opened ShlCorrect
  import VM

  function MemOf(m: VM.Machine): (r: Memory)
  {
    Memory(m.work, m.logs)
  }

  /** `m1` is `m` after code of `size` bytes that leaves the stack alone and memory as `mem`. */
  ghost predicate Passed(m: VM.Machine, m1: VM.Machine, size: nat, mem: Memory, meter: Meter)
  {
    m1.steps >= m.steps && Meets(m1.spent - m.spent, meter)
    && m1 == m.(pc := m.pc + size, work := mem.store, logs := mem.logs, steps := m1.steps, used := m1.used,
                spent := m1.spent)
  }

  /** Running on from `m` agrees with interpretation result `r`; `m1` is where a normal result ends. */
  ghost predicate Agrees<W>(x: Exec<W>, m: VM.Machine, m1: VM.Machine, r: Result, size: nat, meter: Meter, fuel: nat)
  {
    match r
    case Normal(mem) => Goes(x, m, m1) && Passed(m, m1, size, mem, meter)
    case Returned(v, mem) => Halts(x, m, v, mem, m.st, meter)
    case Stopped(mem) => Halts(x, m, 0, mem, m.st, meter)
    case Failed(e) => Fails(x, m, e)
    case OutOfFuel => fuel + m.steps >= VM.MAX_STEPS ==> Limited(x.run(m))
  }

  lemma ThenStore<W>(x: Exec<W>, m: VM.Machine, m2: VM.Machine, m3: VM.Machine, k: Eval, v: Eval,
                     n: nat, g: nat, n': nat, g': nat, fuel: nat) returns (m1: VM.Machine)
    requires RunFaithful(x) == true && Evaluates(x, m, m2, k, n, g) == true
    requires k.Value? ==> Evaluates(x, m2, m3, v, n', g') == true
    requires OpAt(x.img, m.pc + n + n', VM.SSTORE)
    ensures Agrees(x, m, m1, WriteTo(MemOf(m), k, v), n + n' + 1, Exactly(g + g' + 100), fuel) == true
  {
    m1 := m;
    if k.Value? && v.Value? {
      m1 := StepStore(x, m3, m.st, k.v, v.v);
    }
  }

  lemma ThenGuard<W>(x: Exec<W>, m: VM.Machine, m2: VM.Machine, c: Eval, n: nat, g: nat, target: nat, fuel: nat)
    returns (m1: VM.Machine)
    requires RunFaithful(x) == true && Evaluates(x, m, m2, c, n, g) == true && Inside(x, target)
             && target == m.pc + n + 11
    requires JumpAt(x.img, m.pc + n, target, VM.JUMPI) && OpAt(x.img, m.pc + n + 10, VM.REVERT)
    ensures Agrees(x, m, m1, Guard(MemOf(m), c), n + 11, UpTo(g + 5), fuel) == true
  {
    m1 := m;
    if c.Value? {
      m1 := StepJumpIf(x, m2, m.st, c.v, target);
      if c.v == 0 {
        StepRevert(x, m1);
      }
    }
  }

  lemma ThenLog<W>(x: Exec<W>, m: VM.Machine, m2: VM.Machine, vs: Evals, n: nat, g: nat, count: nat, fuel: nat)
    returns (m1: VM.Machine)
    requires RunFaithful(x) == true && Lists(x, m, m2, vs, n, g) == true && count < TWO64
    requires vs.Values? ==> |vs.vs| == count
    requires PushAt(x.img, m.pc + n, count) && OpAt(x.img, m.pc + n + 9, VM.LOG)
    ensures Agrees(x, m, m1, Log(MemOf(m), vs), n + 10, Exactly(g + 53 + 8 * count), fuel) == true
  {
    m1 := m;
    if vs.Values? {
      var m3 := StepPush(x, m2, count);
      m1 := StepLog(x, m3, m.st, vs.vs);
    }
  }

  lemma ThenReturn<W>(x: Exec<W>, m: VM.Machine, m2: VM.Machine, v: Eval, n: nat, g: nat, fuel: nat)
    requires RunFaithful(x) == true && Evaluates(x, m, m2, v, n, g) == true && OpAt(x.img, m.pc + n, VM.RETURN)
    ensures Agrees(x, m, m, Answer(MemOf(m), v), n + 1, UpTo(g + 1), fuel) == true
  {
    if v.Value? {
      StepReturn(x, m2, m.st, v.v);
    }
  }

  /** `m1` is `m` moved to `pc`, the stack as it was. */
  ghost predicate Lands<W>(x: Exec<W>, m: VM.Machine, m1: VM.Machine, pc: int, gas: nat)
  {
    Goes(x, m, m1) && Moved(m, m1, pc, m.st, gas)
  }

  /** A test falls through when its condition is true, and jumps to `target` when it is zero. */
  ghost predicate Tests<W>(x: Exec<W>, m: VM.Machine, m1: VM.Machine, c: Eval, n: nat, g: nat, target: nat)
  {
    match c
    case Value(v) => Lands(x, m, m1, if v == 0 then target else m.pc + n + 11, g + 5)
    case Error(e) => Fails(x, m, e)
  }

  lemma ThenTest<W>(x: Exec<W>, m: VM.Machine, m2: VM.Machine, c: Eval, n: nat, g: nat, target: nat)
    returns (m1: VM.Machine)
    requires RunFaithful(x) == true && Evaluates(x, m, m2, c, n, g) == true && Inside(x, target)
    requires OpAt(x.img, m.pc + n, VM.ISZERO) && JumpAt(x.img, m.pc + n + 1, target, VM.JUMPI)
    ensures Tests(x, m, m1, c, n, g, target) == true
  {
    m1 := m;
    if c.Value? {
      var m3 := StepIsZero(x, m2, m.st, c.v);
      m1 := StepJumpIf(x, m3, m.st, B2U(c.v == 0), target);
    }
  }

  /** Everything a simulation of expressions needs. */
  ghost predicate Ready<W>(x: Exec<W>)
  {
    RunFaithful(x) == true && ExprLayoutFaithful(x) == true && EvalFaithful(x) == true
  }

  lemma SimTest<W>(x: Exec<W>, m: VM.Machine, cond: Expr, sc: Scope, target: nat) returns (m1: VM.Machine)
    requires Ready(x) && ViewTestAt(x, m.pc, cond, sc, target) == true && Inside(x, target)
    ensures Tests(x, m, m1, x.ev.eval(sc, cond, m.work), x.ev.size(cond), x.ev.gas(cond), target) == true
  {
    var m2 := SimExpr(x, m, cond, sc);
    m1 := ThenTest(x, m, m2, x.ev.eval(sc, cond, m.work), x.ev.size(cond), x.ev.gas(cond), target);
  }

  /* ----- Statements without statements inside ----- */

  /** The value of a write whose key is already on the stack, and the write. */
  lemma SimKeyed<W>(x: Exec<W>, m: VM.Machine, m2: VM.Machine, k: Eval, n: nat, g: nat, val: Expr, sc: Scope, fuel: nat)
      returns (m1: VM.Machine)
    requires Ready(x) && Evaluates(x, m, m2, k, n, g) == true
    requires x.ev.at(m.pc + n, val, sc) && OpAt(x.img, m.pc + n + x.ev.size(val), VM.SSTORE)
    ensures Agrees(x, m, m1, WriteTo(MemOf(m), k, x.ev.eval(sc, val, m.work)),
                   n + x.ev.size(val) + 1, Exactly(g + x.ev.gas(val) + 100), fuel) == true
  {
    var m3 := m2;
    if k.Value? { m3 := SimExpr(x, m2, val, sc); }
    m1 := ThenStore(x, m, m2, m3, k, x.ev.eval(sc, val, m.work), n, g, x.ev.size(val), x.ev.gas(val), fuel);
  }

  lemma SimMapKey<W>(x: Exec<W>, m: VM.Machine, slot: u64, key: Expr, sc: Scope) returns (m1: VM.Machine)
    requires Ready(x) && PushAt(x.img, m.pc, slot) && x.ev.at(m.pc + 9, key, sc)
             && OpAt(x.img, m.pc + 9 + x.ev.size(key), VM.MIX)
    ensures Evaluates(x, m, m1, MapKey(EnvOf(x.f), slot, x.ev.eval(sc, key, m.work)), x.ev.size(key) + 10,
                      x.ev.gas(key) + 23) == true
  {
    var m2 := StepPush(x, m, slot);
    var m3 := SimExpr(x, m2, key, sc);
    m1 := ThenMix(x, m, m2, m3, slot, x.ev.eval(sc, key, m.work), x.ev.size(key), x.ev.gas(key));
  }

  lemma SimLet<W>(x: Exec<W>, m: VM.Machine, name: Name, val: Expr, sc: Scope, fuel: nat) returns (m1: VM.Machine)
    requires Ready(x) && LayoutFaithful(x) == true && MeterFaithful(x) == true && ExecFaithful(x) == true
    requires m.pc >= 0 && x.sv.at(m.pc, Let(name, val), sc)
    ensures Agrees(x, m, m1, x.sv.exec(sc, Let(name, val), MemOf(m), fuel), x.sv.size(Let(name, val)),
                   x.sv.meter(Let(name, val)), fuel) == true
  {
    MeterSimple(x, Let(name, val));
    DoSimple(x, sc, Let(name, val), MemOf(m), fuel);
    PlaceLet(x, m.pc, name, val, sc);
    var m2 := StepPush(x, m, TargetSlot(sc, name));
    m1 := SimKeyed(x, m, m2, Value(TargetSlot(sc, name)), 9, 3, val, TargetScope(sc, name), fuel);
  }

  lemma SimStore<W>(x: Exec<W>, m: VM.Machine, key: Expr, val: Expr, sc: Scope, fuel: nat) returns (m1: VM.Machine)
    requires Ready(x) && LayoutFaithful(x) == true && MeterFaithful(x) == true && ExecFaithful(x) == true
    requires m.pc >= 0 && x.sv.at(m.pc, Store(key, val), sc)
    ensures Agrees(x, m, m1, x.sv.exec(sc, Store(key, val), MemOf(m), fuel), x.sv.size(Store(key, val)),
                   x.sv.meter(Store(key, val)), fuel) == true
  {
    MeterSimple(x, Store(key, val));
    DoSimple(x, sc, Store(key, val), MemOf(m), fuel);
    PlaceStore(x, m.pc, key, val, sc);
    var m2 := SimExpr(x, m, key, sc);
    m1 := SimKeyed(x, m, m2, x.ev.eval(sc, key, m.work), x.ev.size(key), x.ev.gas(key), val, sc, fuel);
  }

  lemma SimIndexStore<W>(x: Exec<W>, m: VM.Machine, name: Name, key: Expr, val: Expr, sc: Scope, fuel: nat)
      returns (m1: VM.Machine)
    requires Ready(x) && LayoutFaithful(x) == true && MeterFaithful(x) == true && ExecFaithful(x) == true
    requires m.pc >= 0 && x.sv.at(m.pc, IndexStore(name, key, val), sc)
    ensures Agrees(x, m, m1, x.sv.exec(sc, IndexStore(name, key, val), MemOf(m), fuel),
                   x.sv.size(IndexStore(name, key, val)), x.sv.meter(IndexStore(name, key, val)), fuel) == true
  {
    MeterSimple(x, IndexStore(name, key, val));
    DoSimple(x, sc, IndexStore(name, key, val), MemOf(m), fuel);
    PlaceIndexStore(x, m.pc, name, key, val, sc);
    var m2 := SimMapKey(x, m, MapSlot(sc, name), key, sc);
    m1 := SimKeyed(x, m, m2, MapKey(EnvOf(x.f), MapSlot(sc, name), x.ev.eval(sc, key, m.work)),
                   x.ev.size(key) + 10, x.ev.gas(key) + 23, val, sc, fuel);
  }

  lemma SimWrite<W>(x: Exec<W>, m: VM.Machine, s: Stmt, sc: Scope, fuel: nat) returns (m1: VM.Machine)
    requires s.Let? || s.Store? || s.IndexStore?
    requires Ready(x) && LayoutFaithful(x) == true && MeterFaithful(x) == true && ExecFaithful(x) == true
    requires m.pc >= 0 && x.sv.at(m.pc, s, sc)
    ensures Agrees(x, m, m1, x.sv.exec(sc, s, MemOf(m), fuel), x.sv.size(s), x.sv.meter(s), fuel) == true
  {
    match s
    case Let(name, val) => m1 := SimLet(x, m, name, val, sc, fuel);
    case Store(key, val) => m1 := SimStore(x, m, key, val, sc, fuel);
    case IndexStore(name, key, val) => m1 := SimIndexStore(x, m, name, key, val, sc, fuel);
  }

  lemma {:induction false} ExprsSizeBound(es: seq<Expr>)
    ensures ExprsSize(es) >= |es|
  {
    if es != [] { ExprsSizeBound(es[1..]); }
  }

  lemma SimEmit<W>(x: Exec<W>, m: VM.Machine, args: seq<Expr>, sc: Scope, fuel: nat) returns (m1: VM.Machine)
    requires Ready(x) && LayoutFaithful(x) == true && MeterFaithful(x) == true && ExecFaithful(x) == true
    requires m.pc >= 0 && x.sv.at(m.pc, Emit(args), sc) && Inside(x, m.pc + x.sv.size(Emit(args)))
    ensures Agrees(x, m, m1, x.sv.exec(sc, Emit(args), MemOf(m), fuel), x.sv.size(Emit(args)), x.sv.meter(Emit(args)),
                   fuel) == true
  {
    MeterSimple(x, Emit(args));
    DoSimple(x, sc, Emit(args), MemOf(m), fuel);
    PlaceOther(x, m.pc, Emit(args), sc);
    ExprsSizeBound(args);
    var m2 := SimExprs(x, m, args, sc);
    m1 := ThenLog(x, m, m2, EvalExprs(EnvOf(x.f), sc, args, m.work), ExprsSize(args), ExprsGas(args), |args|, fuel);
  }

  lemma SimSimple<W>(x: Exec<W>, m: VM.Machine, s: Stmt, sc: Scope, fuel: nat) returns (m1: VM.Machine)
    requires s.Require? || s.Revert? || s.Stop? || s.Return?
    requires Ready(x) && LayoutFaithful(x) == true && MeterFaithful(x) == true && ExecFaithful(x) == true
    requires m.pc >= 0 && x.sv.at(m.pc, s, sc) && Inside(x, m.pc + x.sv.size(s))
    ensures Agrees(x, m, m1, x.sv.exec(sc, s, MemOf(m), fuel), x.sv.size(s), x.sv.meter(s), fuel) == true
  {
    MeterSimple(x, s);
    DoSimple(x, sc, s, MemOf(m), fuel);
    m1 := m;
    match s
    case Require(cond) =>
      PlaceRequire(x, m.pc, cond, sc);
      var m2 := SimExpr(x, m, cond, sc);
      m1 := ThenGuard(x, m, m2, x.ev.eval(sc, cond, m.work), x.ev.size(cond), x.ev.gas(cond),
                      m.pc + x.ev.size(cond) + 11, fuel);
    case Return(val) =>
      PlaceReturn(x, m.pc, val, sc);
      var m2 := SimExpr(x, m, val, sc);
      ThenReturn(x, m, m2, x.ev.eval(sc, val, m.work), x.ev.size(val), x.ev.gas(val), fuel);
    case Revert => PlaceOther(x, m.pc, s, sc); StepRevert(x, m);
    case Stop => PlaceOther(x, m.pc, s, sc); StepStop(x, m);
  }

  /* ----- Branches, loops and sequences ----- */

  lemma TrueBranch<W>(x: Exec<W>, m: VM.Machine, m2: VM.Machine, m3: VM.Machine, r: Result,
                      n: nat, g: nat, tn: nat, tm: Meter, en: nat, meter: Meter, fuel: nat) returns (m1: VM.Machine)
    requires RunFaithful(x) == true && Lands(x, m, m2, m.pc + n + 11, g + 5) == true
    requires Agrees(x, m2, m3, r, tn, tm, fuel) == true && m.pc >= 0
    requires JumpAt(x.img, m.pc + n + 11 + tn, m.pc + n + 21 + tn + en, VM.JUMP) && Inside(x, m.pc + n + 21 + tn + en)
    requires meter.Unmetered? || (meter.UpTo? && !tm.Unmetered? && g + 9 + tm.g <= meter.g)
    ensures Agrees(x, m, m1, r, n + 21 + tn + en, meter, fuel) == true
  {
    m1 := m3;
    if r.Normal? {
      m1 := StepJump(x, m3, m.pc + n + 21 + tn + en);
    }
  }

  lemma FalseBranch<W>(x: Exec<W>, m: VM.Machine, m2: VM.Machine, m1: VM.Machine, r: Result,
                       n: nat, g: nat, tn: nat, en: nat, em: Meter, meter: Meter, fuel: nat)
    requires Lands(x, m, m2, m.pc + n + 21 + tn, g + 5) == true
    requires Agrees(x, m2, m1, r, en, em, fuel) == true
    requires meter.Unmetered? || (meter.UpTo? && !em.Unmetered? && g + 9 + em.g <= meter.g)
    ensures Agrees(x, m, m1, r, n + 21 + tn + en, meter, fuel) == true
  {
  }

  lemma BackEdge<W>(x: Exec<W>, m: VM.Machine, m2: VM.Machine, m3: VM.Machine, r: Result,
                    n: nat, g: nat, bn: nat, bm: Meter, fuel: nat) returns (m1: VM.Machine)
    requires RunFaithful(x) == true && Lands(x, m, m2, m.pc + n + 11, g + 5) == true
    requires Agrees(x, m2, m3, r, bn, bm, fuel) == true && Inside(x, m.pc)
    requires JumpAt(x.img, m.pc + n + 11 + bn, m.pc, VM.JUMP)
    ensures r.Normal? ==> Goes(x, m, m1) && m1.steps > m.steps && Passed(m, m1, 0, r.mem, Unmetered)
    ensures !r.Normal? ==> Agrees(x, m, m1, r, n + 21 + bn, Unmetered, fuel) == true
  {
    m1 := m3;
    if r.Normal? {
      m1 := StepJump(x, m3, m.pc);
    }
  }

  lemma NextRound<W>(x: Exec<W>, m: VM.Machine, m2: VM.Machine, m1: VM.Machine, mem: Memory, r: Result, size: nat,
      fuel: nat)
    requires Goes(x, m, m2) && m2.steps > m.steps && Passed(m, m2, 0, mem, Unmetered)
    requires fuel > 0 && Agrees(x, m2, m1, r, size, Unmetered, fuel - 1) == true
    ensures Agrees(x, m, m1, r, size, Unmetered, fuel) == true
  {
  }

  lemma LoopExit<W>(x: Exec<W>, m: VM.Machine, m1: VM.Machine, n: nat, g: nat, bn: nat, fuel: nat)
    requires Lands(x, m, m1, m.pc + n + 21 + bn, g + 5) == true
    ensures Agrees(x, m, m1, Normal(MemOf(m)), n + 21 + bn, Unmetered, fuel) == true
  {
  }

  lemma NoStepsLeft<W>(x: Exec<W>, m: VM.Machine)
    requires RunFaithful(x) == true && Inside(x, m.pc) && m.steps >= VM.MAX_STEPS
    ensures Limited(x.run(m))
  {
    assert Unfold(m);
  }

  lemma InSequence<W>(x: Exec<W>, m: VM.Machine, m2: VM.Machine, m1: VM.Machine, r: Result, r': Result,
                      n: nat, n': nat, a: Meter, b: Meter, fuel: nat)
    requires Agrees(x, m, m2, r, n, a, fuel) == true
    requires r.Normal? ==> Agrees(x, m2, m1, r', n', b, fuel) == true
    requires a.Exactly? ==> !r.Returned? && !r.Stopped?
    ensures Agrees(x, m, m1, if r.Normal? then r' else r, n + n', Together(a, b), fuel) == true
  {
  }

  /* ----- All statements ----- */

  lemma {:induction false} SimIf<W>(x: Exec<W>, m: VM.Machine, cond: Expr, thn: seq<Stmt>, els: seq<Stmt>, sc: Scope,
      fuel: nat)
    returns (m1: VM.Machine)
    requires Ready(x) && LayoutFaithful(x) == true && MeterFaithful(x) == true && ExecFaithful(x) == true
    requires m.pc >= 0 && x.sv.at(m.pc, If(cond, thn, els), sc) && Inside(x, m.pc + x.sv.size(If(cond, thn, els)))
    ensures Agrees(x, m, m1, x.sv.exec(sc, If(cond, thn, els), MemOf(m), fuel),
                   x.sv.size(If(cond, thn, els)), x.sv.meter(If(cond, thn, els)), fuel) == true
    decreases fuel, If(cond, thn, els), 0
  {
    var n, g, tn, en, meter := x.ev.size(cond), x.ev.gas(cond), x.bv.size(thn), x.bv.size(els), x.sv.meter(If(cond, thn,
        els));
    PlaceIf(x, m.pc, cond, thn, els, sc);
    MeterIf(x, cond, thn, els);
    DoIf(x, cond, thn, els, sc, MemOf(m), fuel);
    var c := x.ev.eval(sc, cond, m.work);
    m1 := SimTest(x, m, cond, sc, m.pc + n + 21 + tn);
    if c.Value? && c.v != 0 {
      var m3 := SimStmts(x, m1, thn, sc, fuel);
      m1 := TrueBranch(x, m, m1, m3, x.bv.exec(sc, thn, MemOf(m), fuel), n, g, tn, x.bv.meter(thn), en, meter, fuel);
    } else if c.Value? {
      var m2 := m1;
      m1 := SimStmts(x, m2, els, ScopeAfterAll(thn, sc), fuel);
      FalseBranch(x, m, m2, m1, x.bv.exec(ScopeAfterAll(thn, sc), els, MemOf(m), fuel), n, g, tn, en, x.bv.meter(els),
                  meter, fuel);
    }
  }

  lemma {:induction false} SimWhile<W>(x: Exec<W>, m: VM.Machine, cond: Expr, body: seq<Stmt>, sc: Scope, fuel: nat)
    returns (m1: VM.Machine)
    requires Ready(x) && LayoutFaithful(x) == true && MeterFaithful(x) == true && ExecFaithful(x) == true
    requires m.pc >= 0 && x.sv.at(m.pc, While(cond, body), sc) && Inside(x, m.pc + x.sv.size(While(cond, body)))
    ensures Agrees(x, m, m1, x.sv.exec(sc, While(cond, body), MemOf(m), fuel), x.sv.size(While(cond, body)), Unmetered,
                   fuel) == true
    decreases fuel, While(cond, body), 0
  {
    var n, g, bn := x.ev.size(cond), x.ev.gas(cond), x.bv.size(body);
    PlaceWhile(x, m.pc, cond, body, sc);
    DoWhile(x, cond, body, sc, MemOf(m), fuel);
    m1 := m;
    if fuel == 0 {
      if m.steps >= VM.MAX_STEPS { NoStepsLeft(x, m); }
    } else {
      var c := x.ev.eval(sc, cond, m.work);
      m1 := SimTest(x, m, cond, sc, m.pc + n + 21 + bn);
      if c.Value? && c.v == 0 {
        LoopExit(x, m, m1, n, g, bn, fuel);
      } else if c.Value? {
        var r := x.bv.exec(sc, body, MemOf(m), fuel);
        var m3 := SimStmts(x, m1, body, sc, fuel);
        m1 := BackEdge(x, m, m1, m3, r, n, g, bn, x.bv.meter(body), fuel);
        if r.Normal? {
          var m4 := m1;
          m1 := SimWhile(x, m4, cond, body, sc, fuel - 1);
          NextRound(x, m, m4, m1, r.mem, x.sv.exec(sc, While(cond, body), r.mem, fuel - 1), n + 21 + bn, fuel);
        }
      }
    }
  }

  /** Statements do on the VM what the interpreter says they do. */
  lemma {:induction false} SimStmt<W>(x: Exec<W>, m: VM.Machine, s: Stmt, sc: Scope, fuel: nat) returns (m1: VM.Machine)
    requires Ready(x) && LayoutFaithful(x) == true && MeterFaithful(x) == true && ExecFaithful(x) == true
    requires m.pc >= 0 && x.sv.at(m.pc, s, sc) && Inside(x, m.pc + x.sv.size(s))
    ensures Agrees(x, m, m1, x.sv.exec(sc, s, MemOf(m), fuel), x.sv.size(s), x.sv.meter(s), fuel) == true
    decreases fuel, s, 1
  {
    match s
    case If(cond, thn, els) => m1 := SimIf(x, m, cond, thn, els, sc, fuel);
    case While(cond, body) => m1 := SimWhile(x, m, cond, body, sc, fuel); MeterSimple(x, s);
    case Emit(args) => m1 := SimEmit(x, m, args, sc, fuel);
    case Let(_, _) => m1 := SimWrite(x, m, s, sc, fuel);
    case Store(_, _) => m1 := SimWrite(x, m, s, sc, fuel);
    case IndexStore(_, _, _) => m1 := SimWrite(x, m, s, sc, fuel);
    case _ => m1 := SimSimple(x, m, s, sc, fuel);
  }

  lemma {:induction false} SimStmts<W>(x: Exec<W>, m: VM.Machine, ss: seq<Stmt>, sc: Scope, fuel: nat)
      returns (m1: VM.Machine)
    requires Ready(x) && LayoutFaithful(x) == true && MeterFaithful(x) == true && ExecFaithful(x) == true
    requires m.pc >= 0 && x.bv.at(m.pc, ss, sc) && Inside(x, m.pc + x.bv.size(ss))
    ensures Agrees(x, m, m1, x.bv.exec(sc, ss, MemOf(m), fuel), x.bv.size(ss), x.bv.meter(ss), fuel) == true
    decreases fuel, ss, 0
  {
    m1 := m;
    if ss == [] {
      EmptyBlock(x, sc, MemOf(m), fuel);
    } else {
      PlaceBlock(x, m.pc, ss, sc);
      MeterBlock(x, ss);
      DoBlock(x, ss, sc, MemOf(m), fuel);
      ExactNeverHalts(x, ss[0], sc, MemOf(m), fuel);
      var r, sc1 := x.sv.exec(sc, ss[0], MemOf(m), fuel), ScopeAfter(ss[0], sc);
      var m2 := SimStmt(x, m, ss[0], sc, fuel);
      m1 := m2;
      if r.Normal? { m1 := SimStmts(x, m2, ss[1..], sc1, fuel); }
      InSequence(x, m, m2, m1, r, if r.Normal? then x.bv.exec(sc1, ss[1..], r.mem, fuel) else r,
                 x.sv.size(ss[0]), x.bv.size(ss[1..]), x.sv.meter(ss[0]), x.bv.meter(ss[1..]), fuel);
    }
  }
}
