/** Whole programs: function dispatch, and the correctness of the compiler. */
module ShlProgram {
  import opened Words
  import opened Shl
  import opened ShlLayout
  import opened ShlView
  import opened ShlCorrect
  import opened ShlStmts
  import VM

  /** The run from `m` ends as `r` says, with stack `st`. A normal result is not an end. */
  ghost predicate Ends<W>(x: Exec<W>, m: VM.Machine, r: Result, st: seq<u64>, meter: Meter, fuel: nat)
  {
    match r
    case Normal(_) => false
    case Returned(v, mem) => Halts(x, m, v, mem, st, meter)
    case Stopped(mem) => Halts(x, m, 0, mem, st, meter)
    case Failed(e) => Fails(x, m, e)
    case OutOfFuel => fuel + m.steps >= VM.MAX_STEPS ==> Limited(x.run(m))
  }

  lemma ThenStop<W>(x: Exec<W>, m: VM.Machine, m1: VM.Machine, r: Result, n: nat, meter: Meter, fuel: nat)
    requires RunFaithful(x) == true && Agrees(x, m, m1, r, n, meter, fuel) == true && OpAt(x.img, m.pc + n, VM.STOP)
    requires meter.Exactly? ==> !r.Returned? && !r.Stopped?
    ensures Ends(x, m, Ended(r), m.st, Together(meter, Exactly(1)), fuel) == true
  {
    if r.Normal? { StepStop(x, m1); }
  }

  lemma ThenEnds<W>(x: Exec<W>, m: VM.Machine, m1: VM.Machine, r: Result, r': Result, n: nat, a: Meter, b: Meter,
      fuel: nat)
    requires Agrees(x, m, m1, r, n, a, fuel) == true
    requires r.Normal? ==> Ends(x, m1, r', m1.st, b, fuel) == true
    requires a.Exactly? ==> !r.Returned? && !r.Stopped?
    ensures Ends(x, m, if r.Normal? then r' else r, m.st, Together(a, b), fuel) == true
  {
  }

  /* ----- Functions ----- */

  lemma SimParam<W>(x: Exec<W>, m: VM.Machine, slot: u64, i: u64, fuel: nat) returns (m1: VM.Machine)
    requires RunFaithful(x) == true && PushAt(x.img, m.pc, slot) && PushAt(x.img, m.pc + 9, i)
    requires OpAt(x.img, m.pc + 18, VM.CDLOAD) && OpAt(x.img, m.pc + 19, VM.SSTORE)
    ensures Agrees(x, m, m1, WriteTo(MemOf(m), Value(slot), ArgValue(EnvOf(x.f), i)), 20, Exactly(107), fuel) == true
  {
    var m2 := StepPush(x, m, slot);
    var m3 := StepPush(x, m2, i);
    var m4 := ThenArg(x, m2, m3, Value(i), 9, 3);
    m1 := ThenStore(x, m, m2, m4, Value(slot), ArgValue(EnvOf(x.f), i), 9, 3, 10, 4, fuel);
  }

  lemma {:induction false} SimParams<W>(x: Exec<W>, m: VM.Machine, params: seq<Name>, i: nat, sc: Scope, fuel: nat)
      returns (m1: VM.Machine)
    requires RunFaithful(x) == true && m.pc >= 0 && ParamsAt(x.img, m.pc, params, i, sc) == true
    ensures Agrees(x, m, m1, BindParams(EnvOf(x.f), sc, params, i, MemOf(m)), 20 * |params|, Exactly(107 * |params|),
                   fuel) == true
    decreases params
  {
    m1 := m;
    if params != [] {
      var sc1 := Bind(sc, params[0]);
      var r := WriteTo(MemOf(m), Value(sc1.vars[params[0]]), ArgValue(EnvOf(x.f), Wrap(i + 1)));
      var m2 := SimParam(x, m, sc1.vars[params[0]], Wrap(i + 1), fuel);
      m1 := m2;
      if r.Normal? {
        m1 := SimParams(x, m2, params[1..], i + 1, sc1, fuel);
      }
      InSequence(x, m, m2, m1, r, if r.Normal? then BindParams(EnvOf(x.f), sc1, params[1..], i + 1, r.mem) else r,
                 20, 20 * |params[1..]|, Exactly(107), Exactly(107 * |params[1..]|), fuel);
    }
  }

  lemma {:induction false} ParamsNeverHalt(env: Env, sc: Scope, params: seq<Name>, i: nat, mem: Memory)
    ensures var r := BindParams(env, sc, params, i, mem); r.Normal? || r.Failed?
    decreases params
  {
    if params != [] {
      var sc1 := Bind(sc, params[0]);
      var r := WriteTo(mem, Value(sc1.vars[params[0]]), ArgValue(env, Wrap(i + 1)));
      if r.Normal? { ParamsNeverHalt(env, sc1, params[1..], i + 1, r.mem); }
    }
  }

  ghost function FnMeter(fn: FnDecl): (r: Meter)
  {
    if AllLoopFree(fn.body) then UpTo(FnGas(fn)) else Unmetered
  }

  ghost function BodyMeter(fn: FnDecl): (r: Meter)
  {
    if AllLoopFree(fn.body) then UpTo(StmtsGas(fn.body) + 1) else Unmetered
  }

  lemma Loosen<W>(x: Exec<W>, m: VM.Machine, r: Result, st: seq<u64>, a: Meter, b: Meter, fuel: nat)
    requires Ends(x, m, r, st, a, fuel) == true
    requires b.Unmetered? || (b.UpTo? && !a.Unmetered? && a.g <= b.g)
    ensures Ends(x, m, r, st, b, fuel) == true
  {
  }

  /** A block, in the terms of the layout and the interpreter. */
  lemma SimBlock<W>(x: Exec<W>, m: VM.Machine, ss: seq<Stmt>, sc: Scope, fuel: nat) returns (m1: VM.Machine)
    requires Faithful(x) == true && m.pc >= 0 && StmtsAt(x.img, m.pc, ss, sc) == true && Inside(x, m.pc + StmtsSize(ss))
    ensures Agrees(x, m, m1, ExecStmts(EnvOf(x.f), sc, ss, MemOf(m), fuel), StmtsSize(ss), StmtsMeter(ss), fuel) == true
    ensures var r := ExecStmts(EnvOf(x.f), sc, ss, MemOf(m), fuel);
            StmtsMeter(ss).Exactly? ==> !r.Returned? && !r.Stopped?
  {
    OpenBlock(x, m.pc, ss, sc, MemOf(m), fuel);
    m1 := SimStmts(x, m, ss, sc, fuel);
    if AllStraight(ss) { StraightRunsOn(EnvOf(x.f), sc, ss, MemOf(m), fuel); }
  }

  /** A function body, its parameters bound. */
  lemma SimFnBody<W>(x: Exec<W>, m: VM.Machine, fn: FnDecl, sc: Scope, fuel: nat)
    requires Faithful(x) == true && m.pc >= 0
    requires StmtsAt(x.img, m.pc, fn.body, sc) == true && OpAt(x.img, m.pc + StmtsSize(fn.body), VM.STOP)
    requires Inside(x, m.pc + StmtsSize(fn.body))
    ensures Ends(x, m, Ended(ExecStmts(EnvOf(x.f), sc, fn.body, MemOf(m), fuel)), m.st, BodyMeter(fn), fuel) == true
  {
    var m1 := SimBlock(x, m, fn.body, sc, fuel);
    var r := ExecStmts(EnvOf(x.f), sc, fn.body, MemOf(m), fuel);
    ThenStop(x, m, m1, r, StmtsSize(fn.body), StmtsMeter(fn.body), fuel);
    if AllStraight(fn.body) { StraightIsLoopFree(fn.body); }
    Loosen(x, m, Ended(r), m.st, Together(StmtsMeter(fn.body), Exactly(1)), BodyMeter(fn), fuel);
  }

  lemma {:induction false} StraightRunsOn(env: Env, sc: Scope, ss: seq<Stmt>, mem: Memory, fuel: nat)
    requires AllStraight(ss)
    ensures var r := ExecStmts(env, sc, ss, mem, fuel); r.Normal? || r.Failed?
    decreases ss
  {
    if ss != [] {
      var r := ExecStmt(env, sc, ss[0], mem, fuel);
      if r.Normal? { StraightRunsOn(env, ScopeAfter(ss[0], sc), ss[1..], r.mem, fuel); }
    }
  }

  lemma StepPop<W>(x: Exec<W>, m: VM.Machine, base: seq<u64>, v: u64) returns (m1: VM.Machine)
    requires RunFaithful(x) == true && OpAt(x.img, m.pc, VM.POP) && m.st == base + [v]
    ensures Goes(x, m, m1) && Moved(m, m1, m.pc + 1, base, 1)
  {
    assert m.st[..|m.st| - 1] == base;
    m1 := StepPlain(x, m, VM.POP, base);
  }

  lemma Before<W>(x: Exec<W>, m: VM.Machine, m1: VM.Machine, pc: int, r: Result, st: seq<u64>, g: nat, a: Meter,
      fuel: nat)
    requires Goes(x, m, m1) && Moved(m, m1, pc, st, g) && Ends(x, m1, r, st, a, fuel) == true && !a.Exactly?
    ensures Ends(x, m, r, st, if a.Unmetered? then a else UpTo(g + a.g), fuel) == true
  {
  }

  /** A call, the selector already dropped: parameters, then body. */
  lemma SimCall<W>(x: Exec<W>, m: VM.Machine, fn: FnDecl, sc: Scope, fuel: nat)
    requires Faithful(x) == true && m.pc >= 0 && ParamsAt(x.img, m.pc, fn.params, 0, FreshLocals(sc)) == true
    requires StmtsAt(x.img, m.pc + 20 * |fn.params|, fn.body, BindAll(FreshLocals(sc), fn.params)) == true
    requires OpAt(x.img, m.pc + 20 * |fn.params| + StmtsSize(fn.body), VM.STOP)
    requires Inside(x, m.pc + 20 * |fn.params| + StmtsSize(fn.body))
    ensures Ends(x, m, CallFn(EnvOf(x.f), sc, fn, MemOf(m), fuel), m.st,
                 Together(Exactly(107 * |fn.params|), BodyMeter(fn)), fuel) == true
  {
    var env, inner := EnvOf(x.f), FreshLocals(sc);
    var p := BindParams(env, inner, fn.params, 0, MemOf(m));
    var m1 := SimParams(x, m, fn.params, 0, inner, fuel);
    ParamsNeverHalt(env, inner, fn.params, 0, MemOf(m));
    var r := p;
    if p.Normal? {
      r := Ended(ExecStmts(env, BindAll(inner, fn.params), fn.body, p.mem, fuel));
      SimFnBody(x, m1, fn, BindAll(inner, fn.params), fuel);
    }
    ThenEnds(x, m, m1, p, r, 20 * |fn.params|, Exactly(107 * |fn.params|), BodyMeter(fn), fuel);
  }

  /** A call: the machine is at the function's first byte with the selector still on the stack. */
  lemma SimFn<W>(x: Exec<W>, m: VM.Machine, base: seq<u64>, sel: u64, fn: FnDecl, sc: Scope, fuel: nat)
    requires Faithful(x) == true && m.pc >= 0 && m.st == base + [sel]
    requires FnAt(x.img, m.pc, fn, sc) == true && Inside(x, m.pc + FnSize(fn))
    ensures Ends(x, m, CallFn(EnvOf(x.f), sc, fn, MemOf(m), fuel), base, FnMeter(fn), fuel) == true
  {
    var m1 := StepPop(x, m, base, sel);
    SimCall(x, m1, fn, sc, fuel);
    Before(x, m, m1, m.pc + 1, CallFn(EnvOf(x.f), sc, fn, MemOf(m), fuel), base, 1,
           Together(Exactly(107 * |fn.params|), BodyMeter(fn)), fuel);
  }

  /* ----- The selector router ----- */

  /** One comparison: jump to `target` on a match, go on to the next comparison otherwise. */
  lemma SimRoute<W>(x: Exec<W>, m: VM.Machine, base: seq<u64>, sel: u64, s: u64, target: nat) returns (m1: VM.Machine)
    requires RunFaithful(x) == true && m.st == base + [sel] && Inside(x, target)
    requires OpAt(x.img, m.pc, VM.DUP) && PushAt(x.img, m.pc + 1, s) && OpAt(x.img, m.pc + 10, VM.EQ)
    requires JumpAt(x.img, m.pc + 11, target, VM.JUMPI)
    ensures Goes(x, m, m1) && Moved(m, m1, if s == sel then target else m.pc + 21, m.st, 9)
  {
    assert m.st[..|m.st| - 1] == base && base + [sel, sel] == m.st + [sel];
    var m2 := StepPlain(x, m, VM.DUP, m.st + [sel]);
    var m3 := StepPush(x, m2, s);
    var m4 := ValueOp(x, m3, VM.EQ, m.st, sel, s, B2U(sel == s));
    m1 := StepJumpIf(x, m4, m.st, B2U(sel == s), target);
  }

  lemma NoMatch<W>(x: Exec<W>, m: VM.Machine, base: seq<u64>, sel: u64)
    requires RunFaithful(x) == true && m.st == base + [sel]
    requires OpAt(x.img, m.pc, VM.POP) && OpAt(x.img, m.pc + 1, VM.REVERT)
    ensures Fails(x, m, VM.Reverted)
  {
    var m1 := StepPop(x, m, base, sel);
    StepRevert(x, m1);
  }

  ghost predicate FnsLoopFree(fns: seq<FnDecl>)
  {
    fns == [] || (AllLoopFree(fns[0].body) && FnsLoopFree(fns[1..]))
  }

  ghost function RoutesMeter(fns: seq<FnDecl>): (r: Meter)
  {
    if FnsLoopFree(fns) then UpTo(9 * |fns| + FnsGas(fns)) else Unmetered
  }

  /** One more step before an end. */
  lemma AfterMove<W>(x: Exec<W>, m: VM.Machine, m1: VM.Machine, pc: int, r: Result, st: seq<u64>, g: nat, a: Meter,
      b: Meter, fuel: nat)
    requires Goes(x, m, m1) && Moved(m, m1, pc, m.st, g) && Ends(x, m1, r, st, a, fuel) == true
    requires b.Unmetered? || (b.UpTo? && !a.Unmetered? && g + a.g <= b.g)
    ensures Ends(x, m, r, st, b, fuel) == true
  {
  }

  lemma RoutesMeters(fns: seq<FnDecl>)
    requires fns != []
    ensures var a, b, c := FnMeter(fns[0]), RoutesMeter(fns[1..]), RoutesMeter(fns);
            c.Unmetered? || (c.UpTo? && a.UpTo? && b.UpTo? && 9 + a.g <= c.g && 9 + b.g <= c.g)
  {
  }

  /** The router and the functions behind it, kept closed as in `Exec`. */
  datatype FnView = FnView(
    at: (nat, seq<FnDecl>) -> bool, routes: (nat, seq<FnDecl>, nat) -> bool, size: seq<FnDecl> -> nat,
    meter: seq<FnDecl> -> Meter, route: (seq<FnDecl>, u64, Memory, nat) -> Result)

  ghost predicate OpenF(fns: seq<FnDecl>) { true }

  ghost predicate PlacedFns<W>(x: Exec<W>, sc: Scope, v: FnView, fns: seq<FnDecl>)
  {
    forall p: nat :: v.at(p, fns) == FnsAt(x.img, p, fns, sc)
  }

  ghost predicate PlacedRoutes<W>(x: Exec<W>, v: FnView, fns: seq<FnDecl>)
  {
    forall p: nat, target: nat :: v.routes(p, fns, target) == RoutesAt(x.img, p, x.f.digest, fns, target)
  }

  ghost predicate RoutesTo<W>(x: Exec<W>, sc: Scope, v: FnView, fns: seq<FnDecl>)
  {
    forall sel: u64, mem: Memory, fuel: nat :: v.route(fns, sel, mem, fuel) == Route(EnvOf(x.f), sc, fns, sel, mem,
          fuel)
  }

  ghost predicate FnFaithful<W>(x: Exec<W>, sc: Scope, v: FnView)
  {
    forall fns: seq<FnDecl> {:trigger OpenF(fns)} :: OpenF(fns) ==>
      v.meter(fns) == RoutesMeter(fns) && v.size(fns) == FnsSize(fns) && PlacedFns(x, sc, v, fns)
      && PlacedRoutes(x, v, fns)
      && RoutesTo(x, sc, v, fns)
  }

  ghost function FnViewOf<W>(x: Exec<W>, sc: Scope): (v: FnView)
  {
    FnView((p: nat, fns: seq<FnDecl>) => FnsAt(x.img, p, fns, sc),
           (p: nat, fns: seq<FnDecl>, target: nat) => RoutesAt(x.img, p, x.f.digest, fns, target),
           (fns: seq<FnDecl>) => FnsSize(fns), (fns: seq<FnDecl>) => RoutesMeter(fns),
           (fns: seq<FnDecl>, sel: u64, mem: Memory, fuel: nat) => Route(EnvOf(x.f), sc, fns, sel, mem, fuel))
  }

  lemma FnViewIsFaithful<W>(x: Exec<W>, sc: Scope)
    ensures FnFaithful(x, sc, FnViewOf(x, sc))
  {
  }

  /** The first comparison and the first function. */
  lemma OpenRoutes<W>(x: Exec<W>, sc: Scope, v: FnView, fns: seq<FnDecl>, p: nat, target: nat)
    requires FnFaithful(x, sc, v) == true && fns != []
    ensures v.size(fns) == FnSize(fns[0]) + v.size(fns[1..])
    ensures v.at(target, fns) ==> FnAt(x.img, target, fns[0], sc) == true && v.at(target + FnSize(fns[0]), fns[1..])
    ensures v.routes(p, fns, target) ==>
              OpAt(x.img, p, VM.DUP) && PushAt(x.img, p + 1, x.f.digest(fns[0].name)) && OpAt(x.img, p + 10, VM.EQ)
              && JumpAt(x.img, p + 11, target, VM.JUMPI) && v.routes(p + 21, fns[1..], target + FnSize(fns[0]))
  {
    assert OpenF(fns) && OpenF(fns[1..]);
  }

  lemma OpenRoute<W>(x: Exec<W>, sc: Scope, v: FnView, fns: seq<FnDecl>, sel: u64, mem: Memory, fuel: nat)
    requires FnFaithful(x, sc, v) == true
    ensures v.route(fns, sel, mem, fuel)
            == (if fns == [] then Failed(VM.Reverted)
                else if x.f.digest(fns[0].name) == sel then CallFn(EnvOf(x.f), sc, fns[0], mem, fuel)
                else v.route(fns[1..], sel, mem, fuel))
  {
    assert OpenF(fns);
    if fns != [] { assert OpenF(fns[1..]); }
  }

  lemma ViewMeters<W>(x: Exec<W>, sc: Scope, v: FnView, fns: seq<FnDecl>)
    requires FnFaithful(x, sc, v) == true && fns != []
    ensures var a, b, c := FnMeter(fns[0]), v.meter(fns[1..]), v.meter(fns);
            c.Unmetered? || (c.UpTo? && a.UpTo? && b.UpTo? && 9 + a.g <= c.g && 9 + b.g <= c.g)
  {
    assert OpenF(fns) && OpenF(fns[1..]);
    RoutesMeters(fns);
  }

  /** The comparison matches: the function is called. */
  lemma SimHit<W>(x: Exec<W>, m: VM.Machine, base: seq<u64>, sel: u64, fn: FnDecl, sc: Scope, target: nat, meter: Meter,
      fuel: nat)
    requires Faithful(x) == true && m.pc >= 0 && m.st == base + [sel]
    requires OpAt(x.img, m.pc, VM.DUP) && PushAt(x.img, m.pc + 1, sel) && OpAt(x.img, m.pc + 10, VM.EQ)
    requires JumpAt(x.img, m.pc + 11, target, VM.JUMPI)
    requires FnAt(x.img, target, fn, sc) == true && Inside(x, target + FnSize(fn))
    requires meter.Unmetered? || (meter.UpTo? && FnMeter(fn).UpTo? && 9 + FnMeter(fn).g <= meter.g)
    ensures Ends(x, m, CallFn(EnvOf(x.f), sc, fn, MemOf(m), fuel), base, meter, fuel) == true
  {
    var m1 := SimRoute(x, m, base, sel, sel, target);
    SimFn(x, m1, base, sel, fn, sc, fuel);
    AfterMove(x, m, m1, target, CallFn(EnvOf(x.f), sc, fn, MemOf(m), fuel), base, 9, FnMeter(fn), meter, fuel);
  }

  lemma {:induction false} SimRoutes<W>(x: Exec<W>, m: VM.Machine, base: seq<u64>, sel: u64, fns: seq<FnDecl>,
      sc: Scope, v: FnView, target: nat, fuel: nat)
    requires Faithful(x) == true && FnFaithful(x, sc, v) == true && m.pc >= 0 && m.st == base + [sel]
    requires v.routes(m.pc, fns, target) && v.at(target, fns)
    requires OpAt(x.img, m.pc + 21 * |fns|, VM.POP) && OpAt(x.img, m.pc + 21 * |fns| + 1, VM.REVERT)
    requires Inside(x, target + v.size(fns))
    ensures Ends(x, m, v.route(fns, sel, MemOf(m), fuel), base, v.meter(fns), fuel) == true
    decreases fns, 1
  {
    OpenRoute(x, sc, v, fns, sel, MemOf(m), fuel);
    if fns == [] {
      NoMatch(x, m, base, sel);
    } else {
      OpenRoutes(x, sc, v, fns, m.pc, target);
      ViewMeters(x, sc, v, fns);
      var s := x.f.digest(fns[0].name);
      if s == sel {
        SimHit(x, m, base, sel, fns[0], sc, target, v.meter(fns), fuel);
      } else {
        SimMiss(x, m, base, sel, s, fns, fns[1..], sc, v, target, target + FnSize(fns[0]), v.meter(fns), fuel);
      }
    }
  }

  /** The comparison does not match: the routes after it decide. */
  lemma {:induction false} SimMiss<W>(x: Exec<W>, m: VM.Machine, base: seq<u64>, sel: u64, s: u64, fns: seq<FnDecl>,
      rest: seq<FnDecl>, sc: Scope, v: FnView, target: nat, next: nat, meter: Meter, fuel: nat)
    requires Faithful(x) == true && FnFaithful(x, sc, v) == true && m.pc >= 0 && m.st == base + [sel]
    requires fns != [] && rest == fns[1..] && s != sel && Inside(x, target)
    requires OpAt(x.img, m.pc, VM.DUP) && PushAt(x.img, m.pc + 1, s) && OpAt(x.img, m.pc + 10, VM.EQ)
    requires JumpAt(x.img, m.pc + 11, target, VM.JUMPI) && v.routes(m.pc + 21, rest, next) && v.at(next, rest)
    requires OpAt(x.img, m.pc + 21 * |fns|, VM.POP) && OpAt(x.img, m.pc + 21 * |fns| + 1, VM.REVERT)
             && Inside(x, next + v.size(rest))
    requires meter.Unmetered? || (meter.UpTo? && v.meter(rest).UpTo? && 9 + v.meter(rest).g <= meter.g)
    ensures Ends(x, m, v.route(rest, sel, MemOf(m), fuel), base, meter, fuel) == true
    decreases fns, 0
  {
    var m1 := SimRoute(x, m, base, sel, s, target);
    assert m1.pc + 21 * |rest| == m.pc + 21 * |fns|;
    SimRoutes(x, m1, base, sel, rest, sc, v, next, fuel);
    AfterMove(x, m, m1, m.pc + 21, v.route(rest, sel, MemOf(m), fuel), base, 9, v.meter(rest), meter, fuel);
  }

  ghost function DispatchMeter(fns: seq<FnDecl>): (r: Meter)
  {
    if FnsLoopFree(fns) then UpTo(4 + 9 * |fns| + FnsGas(fns)) else Unmetered
  }

  /** The selector, pushed; then the routes. */
  lemma SimSelector<W>(x: Exec<W>, m: VM.Machine) returns (m1: VM.Machine)
    requires RunFaithful(x) == true && PushAt(x.img, m.pc, 0) && OpAt(x.img, m.pc + 9, VM.CDLOAD)
    ensures Evaluates(x, m, m1, ArgValue(EnvOf(x.f), 0), 10, 4) == true
  {
    var m2 := StepPush(x, m, 0);
    m1 := ThenArg(x, m, m2, Value(0), 9, 3);
  }

  lemma Selected<W>(x: Exec<W>, m: VM.Machine, m1: VM.Machine, sel: u64, r: Result, a: Meter, b: Meter, fuel: nat)
    requires Evaluates(x, m, m1, Value(sel), 10, 4) == true && Ends(x, m1, r, m.st, a, fuel) == true
    requires b.Unmetered? || (b.UpTo? && !a.Unmetered? && 4 + a.g <= b.g)
    ensures Ends(x, m, r, m.st, b, fuel) == true
  {
  }

  /** The router and the functions at `p`. */
  ghost predicate Dispatches<W>(x: Exec<W>, p: nat, fns: seq<FnDecl>, v: FnView)
  {
    PushAt(x.img, p, 0) && OpAt(x.img, p + 9, VM.CDLOAD)
    && v.routes(p + 10, fns, p + 12 + 21 * |fns|) && v.at(p + 12 + 21 * |fns|, fns)
    && OpAt(x.img, p + 10 + 21 * |fns|, VM.POP) && OpAt(x.img, p + 11 + 21 * |fns|, VM.REVERT)
  }

  lemma SimDispatch<W>(x: Exec<W>, m: VM.Machine, fns: seq<FnDecl>, sc: Scope, v: FnView, r: Result, meter: Meter,
      fuel: nat)
    requires Faithful(x) == true && m.pc >= 0 && Inside(x, m.pc + 12 + 21 * |fns| + v.size(fns))
    requires Dispatches(x, m.pc, fns, v) == true && FnFaithful(x, sc, v) == true
    requires meter.Unmetered? || (meter.UpTo? && !v.meter(fns).Unmetered? && 4 + v.meter(fns).g <= meter.g)
    requires var sel := ArgValue(EnvOf(x.f), 0); r == if sel.Error? then Failed(sel.err)
                                                      else v.route(fns, sel.v, MemOf(m), fuel)
    ensures Ends(x, m, r, m.st, meter, fuel) == true
  {
    var m1 := SimSelector(x, m);
    var sel := ArgValue(EnvOf(x.f), 0);
    if sel.Value? {
      SimRoutes(x, m1, m.st, sel.v, fns, sc, v, m.pc + 12 + 21 * |fns|, fuel);
      Selected(x, m, m1, sel.v, r, v.meter(fns), meter, fuel);
    }
  }

  lemma OpenDispatch<W>(x: Exec<W>, p: nat, fns: seq<FnDecl>, sc: Scope, v: FnView, mem: Memory, fuel: nat)
    requires FnFaithful(x, sc, v) == true && DispatchAt(x.img, p, x.f.digest, fns, sc) == true
    ensures Dispatches(x, p, fns, v) == true && DispatchSize(fns) == 12 + 21 * |fns| + v.size(fns)
    ensures var sel := ArgValue(EnvOf(x.f), 0);
            Call(EnvOf(x.f), sc, fns, mem, fuel) == (if sel.Error? then Failed(sel.err)
                                                     else v.route(fns, sel.v, mem, fuel))
  {
    assert OpenF(fns);
  }

  lemma DispatchMeters<W>(x: Exec<W>, fns: seq<FnDecl>, sc: Scope, v: FnView)
    requires FnFaithful(x, sc, v) == true
    ensures var a, b := v.meter(fns), DispatchMeter(fns);
            b.Unmetered? || (b.UpTo? && !a.Unmetered? && 4 + a.g <= b.g)
  {
    assert OpenF(fns);
  }

  lemma SimDispatcher<W>(x: Exec<W>, m: VM.Machine, fns: seq<FnDecl>, sc: Scope, v: FnView, fuel: nat)
    requires Faithful(x) == true && m.pc >= 0 && DispatchAt(x.img, m.pc, x.f.digest, fns, sc) == true
    requires Inside(x, m.pc + DispatchSize(fns)) && FnFaithful(x, sc, v) == true
    ensures Ends(x, m, Call(EnvOf(x.f), sc, fns, MemOf(m), fuel), m.st, DispatchMeter(fns), fuel) == true
  {
    OpenDispatch(x, m.pc, fns, sc, v, MemOf(m), fuel);
    DispatchMeters(x, fns, sc, v);
    SimDispatch(x, m, fns, sc, v, Call(EnvOf(x.f), sc, fns, MemOf(m), fuel), DispatchMeter(fns), fuel);
  }

  /* ----- Programs ----- */

  ghost predicate ProgramLoopFree(items: seq<Item>)
  {
    AllLoopFree(Statements(items)) && FnsLoopFree(Functions(items))
  }

  /** A program of writes and events only. */
  ghost predicate ProgramStraight(items: seq<Item>)
  {
    AllStraight(Statements(items)) && Functions(items) == []
  }

  ghost function ProgramMeter(items: seq<Item>): (r: Meter)
  {
    if ProgramStraight(items) then Exactly(ProgramGas(items))
    else if ProgramLoopFree(items) then UpTo(ProgramGas(items)) else Unmetered
  }

  lemma SimFlatProgram<W>(x: Exec<W>, items: seq<Item>, store: map<u64, u64>, blobs: map<u64, seq<byte>>, fuel: nat)
    requires Faithful(x) == true && Functions(items) == []
    requires StmtsAt(x.img, 0, Statements(items), DeclareAll(EMPTY_SCOPE, items)) == true
    requires OpAt(x.img, StmtsSize(Statements(items)), VM.STOP) && Inside(x, StmtsSize(Statements(items)))
    ensures Ends(x, VM.Start(store, blobs), ExecProgram(EnvOf(x.f), items, store, fuel), [], ProgramMeter(items),
                 fuel) == true
  {
    var m, flat, sc := VM.Start(store, blobs), Statements(items), DeclareAll(EMPTY_SCOPE, items);
    var m1 := SimBlock(x, m, flat, sc, fuel);
    var r := ExecStmts(EnvOf(x.f), sc, flat, Memory(store, []), fuel);
    if AllStraight(flat) { StraightIsLoopFree(flat); }
    ThenStop(x, m, m1, r, StmtsSize(flat), StmtsMeter(flat), fuel);
  }

  lemma FnProgramMeter(items: seq<Item>)
    requires Functions(items) != []
    ensures var a, b := Together(StmtsMeter(Statements(items)), DispatchMeter(Functions(items))), ProgramMeter(items);
            b.Unmetered? || (b.UpTo? && !a.Unmetered? && a.g <= b.g)
  {
    if AllStraight(Statements(items)) { StraightIsLoopFree(Statements(items)); }
  }

  lemma SimFnProgram<W>(x: Exec<W>, items: seq<Item>, store: map<u64, u64>, blobs: map<u64, seq<byte>>, fuel: nat)
    requires Faithful(x) == true && Functions(items) != []
    requires StmtsAt(x.img, 0, Statements(items), DeclareAll(EMPTY_SCOPE, items)) == true
    requires DispatchAt(x.img, StmtsSize(Statements(items)), x.f.digest, Functions(items),
                        DeclareAll(EMPTY_SCOPE, items)) == true
    requires Inside(x, StmtsSize(Statements(items)) + DispatchSize(Functions(items)))
    ensures Ends(x, VM.Start(store, blobs), ExecProgram(EnvOf(x.f), items, store, fuel), [], ProgramMeter(items),
                 fuel) == true
  {
    var m, flat, fns, sc := VM.Start(store, blobs), Statements(items), Functions(items), DeclareAll(EMPTY_SCOPE, items);
    var r := ExecStmts(EnvOf(x.f), sc, flat, Memory(store, []), fuel);
    FnProgramMeter(items);
    FnViewIsFaithful(x, sc);
    var r' := if r.Normal? then Call(EnvOf(x.f), sc, fns, r.mem, fuel) else r;
    SimParts(x, m, flat, fns, sc, FnViewOf(x, sc), r, r', fuel);
    Loosen(x, m, r', [], Together(StmtsMeter(flat), DispatchMeter(fns)), ProgramMeter(items), fuel);
  }

  /** Top-level statements, then the call. */
  lemma SimParts<W>(x: Exec<W>, m: VM.Machine, flat: seq<Stmt>, fns: seq<FnDecl>, sc: Scope, v: FnView, r: Result,
      r': Result, fuel: nat)
    requires Faithful(x) == true && FnFaithful(x, sc, v) == true && m.pc == 0
    requires StmtsAt(x.img, 0, flat, sc) == true && DispatchAt(x.img, StmtsSize(flat), x.f.digest, fns, sc) == true
    requires Inside(x, StmtsSize(flat) + DispatchSize(fns)) && r == ExecStmts(EnvOf(x.f), sc, flat, MemOf(m), fuel)
    requires r' == if r.Normal? then Call(EnvOf(x.f), sc, fns, r.mem, fuel) else r
    ensures Ends(x, m, r', m.st, Together(StmtsMeter(flat), DispatchMeter(fns)), fuel) == true
  {
    var m1 := SimBlock(x, m, flat, sc, fuel);
    if r.Normal? { SimDispatcher(x, m1, fns, sc, v, fuel); }
    ThenEnds(x, m, m1, r, r', StmtsSize(flat), StmtsMeter(flat), DispatchMeter(fns), fuel);
  }

  /* ----- The main theorem ----- */

  /** The VM's outcome is the interpreter's result. */
  ghost predicate SameResult<W>(o: VM.Outcome<W>, r: Result, blobs: map<u64, seq<byte>>, w: W)
  {
    match r
    case Normal(_) => false
    case Returned(v, mem) => o.Success? && o.ret == v && SameMemory(o, mem, blobs, w)
    case Stopped(mem) => o.Success? && o.ret == 0 && SameMemory(o, mem, blobs, w)
    case Failed(e) => o.Failure? && o.err == e && o.world == w
    case OutOfFuel => false
  }

  ghost predicate SameMemory<W>(o: VM.Outcome<W>, mem: Memory, blobs: map<u64, seq<byte>>, w: W)
    requires o.Success?
  {
    o.m.work == mem.store && o.m.logs == mem.logs && o.m.bwork == blobs && o.m.st == [] && o.retBytes == []
    && o.world == w
  }

  lemma EndsMeans<W>(x: Exec<W>, m: VM.Machine, r: Result, meter: Meter, fuel: nat)
    requires Ends(x, m, r, [], meter, fuel) == true && m.steps == m.spent == 0
    ensures Limited(x.run(m)) || r.OutOfFuel? || SameResult(x.run(m), r, m.bwork, x.w)
    ensures r.OutOfFuel? && fuel >= VM.MAX_STEPS ==> Limited(x.run(m))
    ensures x.run(m).Success? && !r.OutOfFuel? ==> Meets(x.run(m).m.spent, meter)
  {
  }

  /**
   The bytecode of a program, run on any storage by a VM frame with any context, calldata, gas and
   host, ends as the interpreter says, unless it runs out of gas, steps or stack. A program that
   the interpreter does not finish within as many loop tests as the VM has steps is cut short. The
   gas of a run without loops is bounded by the layout, and exact if nothing jumps or halts early.
   */
  lemma CompiledCodeIsCorrect<W>(f: VM.Frame<W>, w: W, items: seq<Item>, store: map<u64, u64>, blobs: map<u64,
      seq<byte>>, fuel: nat)
    requires ProgramAt(f.code, f.digest, items) && |f.code| < TWO63
    ensures var o, r := VM.Run(f, w, VM.Start(store, blobs)), ExecProgram(EnvOf(f), items, store, fuel);
            && (Limited(o) || r.OutOfFuel? || SameResult(o, r, blobs, w))
            && (r.OutOfFuel? && fuel >= VM.MAX_STEPS ==> Limited(o))
            && (o.Success? && !r.OutOfFuel? ==> Meets(o.m.spent, ProgramMeter(items)))
  {
    var x := ExecOf(f, w);
    ExecOfIsFaithful(f, w);
    if Functions(items) == [] {
      SimFlatProgram(x, items, store, blobs, fuel);
    } else {
      SimFnProgram(x, items, store, blobs, fuel);
    }
    EndsMeans(x, VM.Start(store, blobs), ExecProgram(EnvOf(f), items, store, fuel), ProgramMeter(items), fuel);
    assert Unfold(VM.Start(store, blobs));
  }
}
