/**
 A frame of the VM and a program's code as a simulation proof sees them: the layout, the
 interpreter and the meaning of running on are kept as function values, and are opened, one node
 of the syntax tree at a time, by the lemmas below.
 */
module ShlView {
  import opened Words
  import opened Shl
  import opened ShlLayout
  import VM

  datatype ExprView = ExprView(
    size: Expr -> nat, gas: Expr -> nat, at: (int, Expr, Scope) -> bool,
    eval: (Scope, Expr, map<u64, u64>) -> Eval)

  datatype StmtView = StmtView(
    size: Stmt -> nat, meter: Stmt -> Meter, at: (nat, Stmt, Scope) -> bool,
    exec: (Scope, Stmt, Memory, nat) -> Result)

  datatype BlockView = BlockView(
    size: seq<Stmt> -> nat, meter: seq<Stmt> -> Meter, at: (nat, seq<Stmt>, Scope) -> bool,
    exec: (Scope, seq<Stmt>, Memory, nat) -> Result)

  datatype Exec<!W> = Exec(
    f: VM.Frame<W>, w: W, img: Image, run: VM.Machine -> VM.Outcome<W>,
    ev: ExprView, sv: StmtView, bv: BlockView)

  function EnvOf<W>(f: VM.Frame<W>): (r: Env)
  {
    Env(f.ctx, f.input, f.digest)
  }

  /* Marks of what is opened. */
  ghost predicate Unfold(m: VM.Machine) { true }
  ghost predicate Look(p: int) { true }
  ghost predicate OpenE(e: Expr) { true }
  ghost predicate OpenS(s: Stmt) { true }
  ghost predicate OpenB(ss: seq<Stmt>) { true }

  ghost predicate RunFaithful<W>(x: Exec<W>)
  {
    && (forall m: VM.Machine {:trigger Unfold(m)} :: Unfold(m) ==> x.run(m) == VM.Run(x.f, x.w, m))
    && (forall p: int {:trigger Look(p)} ::
          Look(p) ==> x.img.op(p) == ByteAt(x.f.code, p) && x.img.word(p) == WordAt(x.f.code, p))
  }

  ghost predicate PlacedExpr<W>(x: Exec<W>, e: Expr)
  {
    forall p: int, sc: Scope :: x.ev.at(p, e, sc) == ExprAt(x.img, p, e, sc)
  }

  ghost predicate ExprLayoutFaithful<W>(x: Exec<W>)
  {
    forall e: Expr {:trigger OpenE(e)} :: OpenE(e) ==>
      x.ev.size(e) == ExprSize(e) && x.ev.gas(e) == ExprGas(e) && PlacedExpr(x, e)
  }

  ghost predicate EvaluatesTo<W>(x: Exec<W>, e: Expr)
  {
    forall sc: Scope, store: map<u64, u64> :: x.ev.eval(sc, e, store) == EvalExpr(EnvOf(x.f), sc, e, store)
  }

  ghost predicate EvalFaithful<W>(x: Exec<W>)
  {
    forall e: Expr {:trigger OpenE(e)} :: OpenE(e) ==> EvaluatesTo(x, e)
  }

  ghost predicate LayoutFaithful<W>(x: Exec<W>)
  {
    && (forall s: Stmt {:trigger OpenS(s)} :: OpenS(s) ==>
          && x.sv.size(s) == StmtSize(s)
          && (forall p: nat, sc: Scope :: x.sv.at(p, s, sc) == StmtAt(x.img, p, s, sc)))
    && (forall ss: seq<Stmt> {:trigger OpenB(ss)} :: OpenB(ss) ==>
          && x.bv.size(ss) == StmtsSize(ss)
          && (forall p: nat, sc: Scope :: x.bv.at(p, ss, sc) == StmtsAt(x.img, p, ss, sc)))
  }

  ghost predicate MeterFaithful<W>(x: Exec<W>)
  {
    && (forall s: Stmt {:trigger OpenS(s)} :: OpenS(s) ==> x.sv.meter(s) == StmtMeter(s))
    && (forall ss: seq<Stmt> {:trigger OpenB(ss)} :: OpenB(ss) ==> x.bv.meter(ss) == StmtsMeter(ss))
  }

  ghost predicate DoesStmt<W>(x: Exec<W>, s: Stmt)
  {
    forall sc: Scope, mem: Memory, fuel: nat :: x.sv.exec(sc, s, mem, fuel) == ExecStmt(EnvOf(x.f), sc, s, mem, fuel)
  }

  ghost predicate DoesBlock<W>(x: Exec<W>, ss: seq<Stmt>)
  {
    forall sc: Scope, mem: Memory, fuel: nat :: x.bv.exec(sc, ss, mem, fuel) == ExecStmts(EnvOf(x.f), sc, ss, mem, fuel)
  }

  ghost predicate ExecFaithful<W>(x: Exec<W>)
  {
    && (forall s: Stmt {:trigger OpenS(s)} :: OpenS(s) ==> DoesStmt(x, s))
    && (forall ss: seq<Stmt> {:trigger OpenB(ss)} :: OpenB(ss) ==> DoesBlock(x, ss))
  }

  ghost predicate Faithful<W>(x: Exec<W>)
  {
    RunFaithful(x) && ExprLayoutFaithful(x) && EvalFaithful(x) && LayoutFaithful(x) && MeterFaithful(x)
    && ExecFaithful(x)
  }

  ghost function ExecOf<W>(f: VM.Frame<W>, w: W): (x: Exec<W>)
    ensures x.f == f && x.w == w && x.img == ImageOf(f.code)
  {
    var env, img := EnvOf(f), ImageOf(f.code);
    Exec(f, w, img, (m: VM.Machine) => VM.Run(f, w, m),
         ExprView((e: Expr) => ExprSize(e), (e: Expr) => ExprGas(e),
                  (p: int, e: Expr, sc: Scope) => ExprAt(img, p, e, sc),
                  (sc: Scope, e: Expr, store: map<u64, u64>) => EvalExpr(env, sc, e, store)),
         StmtView((s: Stmt) => StmtSize(s), (s: Stmt) => StmtMeter(s),
                  (p: nat, s: Stmt, sc: Scope) => StmtAt(img, p, s, sc),
                  (sc: Scope, s: Stmt, mem: Memory, fuel: nat) => ExecStmt(env, sc, s, mem, fuel)),
         BlockView((ss: seq<Stmt>) => StmtsSize(ss), (ss: seq<Stmt>) => StmtsMeter(ss),
                   (p: nat, ss: seq<Stmt>, sc: Scope) => StmtsAt(img, p, ss, sc),
                   (sc: Scope, ss: seq<Stmt>, mem: Memory, fuel: nat) => ExecStmts(env, sc, ss, mem, fuel)))
  }

  lemma ExecOfIsFaithful<W>(f: VM.Frame<W>, w: W)
    ensures Faithful(ExecOf(f, w))
  {
  }

  /* ----- Opening expressions: where they are, what they are worth ----- */

  lemma OpenLeaf<W>(x: Exec<W>, p: int, e: Expr, sc: Scope, store: map<u64, u64>)
    requires ExprLayoutFaithful(x) == true && EvalFaithful(x) == true
    requires e.Num? || e.Var? || e.Caller? || e.CallValue? || e.Balance? || e.SelfId?
    ensures x.ev.size(e) == ExprSize(e) && x.ev.gas(e) == ExprGas(e)
    ensures x.ev.at(p, e, sc) == ExprAt(x.img, p, e, sc)
    ensures x.ev.eval(sc, e, store) == EvalExpr(EnvOf(x.f), sc, e, store)
  {
    assert OpenE(e);
  }

  lemma PlaceIndex<W>(x: Exec<W>, p: int, name: Name, key: Expr, sc: Scope)
    requires ExprLayoutFaithful(x) == true
    ensures var e, n := Index(name, key), x.ev.size(key);
            && x.ev.size(e) == n + 11 && x.ev.gas(e) == x.ev.gas(key) + 43
            && x.ev.at(p, e, sc) == (PushAt(x.img, p, MapSlot(sc, name)) && x.ev.at(p + 9, key, sc)
                                     && OpAt(x.img, p + 9 + n, VM.MIX) && OpAt(x.img, p + 10 + n, VM.SLOAD))
  {
    assert OpenE(Index(name, key)) && OpenE(key);
  }

  lemma PlaceLoad<W>(x: Exec<W>, p: int, y: Expr, sc: Scope)
    requires ExprLayoutFaithful(x) == true
    ensures x.ev.size(Load(y)) == x.ev.size(y) + 1 && x.ev.gas(Load(y)) == x.ev.gas(y) + 20
    ensures x.ev.at(p, Load(y), sc) ==> x.ev.at(p, y, sc) && OpAt(x.img, p + x.ev.size(y), VM.SLOAD)
  {
    assert OpenE(Load(y)) && OpenE(y);
  }

  lemma PlaceArg<W>(x: Exec<W>, p: int, y: Expr, sc: Scope)
    requires ExprLayoutFaithful(x) == true
    ensures x.ev.size(Arg(y)) == x.ev.size(y) + 1 && x.ev.gas(Arg(y)) == x.ev.gas(y) + 1
    ensures x.ev.at(p, Arg(y), sc) ==> x.ev.at(p, y, sc) && OpAt(x.img, p + x.ev.size(y), VM.CDLOAD)
  {
    assert OpenE(Arg(y)) && OpenE(y);
  }

  lemma PlaceNot<W>(x: Exec<W>, p: int, y: Expr, sc: Scope)
    requires ExprLayoutFaithful(x) == true
    ensures x.ev.size(Not(y)) == x.ev.size(y) + 1 && x.ev.gas(Not(y)) == x.ev.gas(y) + 1
    ensures x.ev.at(p, Not(y), sc) ==> x.ev.at(p, y, sc) && OpAt(x.img, p + x.ev.size(y), VM.ISZERO)
  {
    assert OpenE(Not(y)) && OpenE(y);
  }

  lemma PlaceBinary<W>(x: Exec<W>, p: int, op: BinOp, l: Expr, r: Expr, sc: Scope)
    requires ExprLayoutFaithful(x) == true
    ensures var e, n, n' := Binary(op, l, r), x.ev.size(l), x.ev.size(r);
            && x.ev.size(e) == n + n' + |OpCode(op)| && x.ev.gas(e) == x.ev.gas(l) + x.ev.gas(r) + |OpCode(op)|
            && (x.ev.at(p, e, sc) ==>
                  x.ev.at(p, l, sc) && x.ev.at(p + n, r, sc) && OperatorAt(x.img, p + n + n', op) == true)
  {
    assert OpenE(Binary(op, l, r)) && OpenE(l) && OpenE(r);
  }

  lemma EvalNode<W>(x: Exec<W>, e: Expr, sc: Scope, store: map<u64, u64>)
    requires EvalFaithful(x) == true
    ensures e.Index? ==>
              x.ev.eval(sc, e, store) == Fetch(store, MapKey(EnvOf(x.f), MapSlot(sc, e.name), x.ev.eval(sc, e.key,
                  store)))
    ensures e.Load? ==> x.ev.eval(sc, e, store) == Fetch(store, x.ev.eval(sc, e.key, store))
    ensures e.Arg? ==> x.ev.eval(sc, e, store) == Calldata(EnvOf(x.f), x.ev.eval(sc, e.index, store))
    ensures e.Not? ==> x.ev.eval(sc, e, store) == Negate(x.ev.eval(sc, e.x, store))
    ensures e.Binary? ==> x.ev.eval(sc, e, store) == Combine(e.op, x.ev.eval(sc, e.l, store), x.ev.eval(sc, e.r, store))
  {
    assert OpenE(e);
    match e
    case Index(_, key) => assert OpenE(key);
    case Load(key) => assert OpenE(key);
    case Arg(i) => assert OpenE(i);
    case Not(y) => assert OpenE(y);
    case Binary(_, l, r) => assert OpenE(l) && OpenE(r);
    case _ =>
  }

  /* ----- Opening statements: where they are, what they cost, what they do ----- */

  lemma PlaceLet<W>(x: Exec<W>, p: nat, name: Name, val: Expr, sc: Scope)
    requires ExprLayoutFaithful(x) == true && LayoutFaithful(x) == true
    ensures var s, n := Let(name, val), x.ev.size(val);
            && x.sv.size(s) == n + 10
            && x.sv.at(p, s, sc) == (PushAt(x.img, p, TargetSlot(sc, name))
                                     && x.ev.at(p + 9, val, TargetScope(sc, name))
                                     && OpAt(x.img, p + 9 + n, VM.SSTORE))
  {
    assert OpenS(Let(name, val)) && OpenE(val);
  }

  lemma PlaceStore<W>(x: Exec<W>, p: nat, key: Expr, val: Expr, sc: Scope)
    requires ExprLayoutFaithful(x) == true && LayoutFaithful(x) == true
    ensures var s, n, n' := Store(key, val), x.ev.size(key), x.ev.size(val);
            && x.sv.size(s) == n + n' + 1
            && x.sv.at(p, s, sc) == (x.ev.at(p, key, sc) && x.ev.at(p + n, val, sc)
                                     && OpAt(x.img, p + n + n', VM.SSTORE))
  {
    assert OpenS(Store(key, val)) && OpenE(key) && OpenE(val);
  }

  lemma PlaceIndexStore<W>(x: Exec<W>, p: nat, name: Name, key: Expr, val: Expr, sc: Scope)
    requires ExprLayoutFaithful(x) == true && LayoutFaithful(x) == true
    ensures var s, n, n' := IndexStore(name, key, val), x.ev.size(key), x.ev.size(val);
            && x.sv.size(s) == n + n' + 11
            && x.sv.at(p, s, sc) == (PushAt(x.img, p, MapSlot(sc, name)) && x.ev.at(p + 9, key, sc)
                                     && OpAt(x.img, p + 9 + n, VM.MIX)
                                     && x.ev.at(p + 10 + n, val, sc) && OpAt(x.img, p + 10 + n + n', VM.SSTORE))
  {
    assert OpenS(IndexStore(name, key, val)) && OpenE(key) && OpenE(val);
  }

  lemma PlaceRequire<W>(x: Exec<W>, p: nat, cond: Expr, sc: Scope)
    requires ExprLayoutFaithful(x) == true && LayoutFaithful(x) == true
    ensures var s, n := Require(cond), x.ev.size(cond);
            && x.sv.size(s) == n + 11
            && x.sv.at(p, s, sc) == (x.ev.at(p, cond, sc) && JumpAt(x.img, p + n, p + n + 11, VM.JUMPI)
                                     && OpAt(x.img, p + n + 10, VM.REVERT))
  {
    assert OpenS(Require(cond)) && OpenE(cond);
  }

  lemma PlaceReturn<W>(x: Exec<W>, p: nat, val: Expr, sc: Scope)
    requires ExprLayoutFaithful(x) == true && LayoutFaithful(x) == true
    ensures var s, n := Return(val), x.ev.size(val);
            && x.sv.size(s) == n + 1
            && x.sv.at(p, s, sc) == (x.ev.at(p, val, sc) && OpAt(x.img, p + n, VM.RETURN))
  {
    assert OpenS(Return(val)) && OpenE(val);
  }

  lemma PlaceOther<W>(x: Exec<W>, p: nat, s: Stmt, sc: Scope)
    requires LayoutFaithful(x) == true && (s.Revert? || s.Stop? || s.Emit?)
    ensures x.sv.size(s) == StmtSize(s) && x.sv.at(p, s, sc) == StmtAt(x.img, p, s, sc)
  {
    assert OpenS(s);
  }

  ghost predicate ViewTestAt<W>(x: Exec<W>, p: int, cond: Expr, sc: Scope, target: nat)
  {
    x.ev.at(p, cond, sc) && OpAt(x.img, p + x.ev.size(cond), VM.ISZERO)
    && JumpAt(x.img, p + x.ev.size(cond) + 1, target, VM.JUMPI)
  }

  lemma PlaceIf<W>(x: Exec<W>, p: nat, cond: Expr, thn: seq<Stmt>, els: seq<Stmt>, sc: Scope)
    requires ExprLayoutFaithful(x) == true && LayoutFaithful(x) == true
    ensures var s, n, tn, en := If(cond, thn, els), x.ev.size(cond), x.bv.size(thn), x.bv.size(els);
            && x.sv.size(s) == n + 21 + tn + en
            && (x.sv.at(p, s, sc) ==>
                  ViewTestAt(x, p, cond, sc, p + n + 21 + tn) && x.bv.at(p + n + 11, thn, sc)
                  && JumpAt(x.img, p + n + 11 + tn, p + n + 21 + tn + en, VM.JUMP)
                  && x.bv.at(p + n + 21 + tn, els, ScopeAfterAll(thn, sc)))
  {
    assert OpenS(If(cond, thn, els)) && OpenE(cond) && OpenB(thn) && OpenB(els);
  }

  lemma PlaceWhile<W>(x: Exec<W>, p: nat, cond: Expr, body: seq<Stmt>, sc: Scope)
    requires ExprLayoutFaithful(x) == true && LayoutFaithful(x) == true
    ensures var s, n, bn := While(cond, body), x.ev.size(cond), x.bv.size(body);
            && x.sv.size(s) == n + 21 + bn
            && (x.sv.at(p, s, sc) ==>
                  ViewTestAt(x, p, cond, sc, p + n + 21 + bn) && x.bv.at(p + n + 11, body, sc)
                  && JumpAt(x.img, p + n + 11 + bn, p, VM.JUMP))
  {
    assert OpenS(While(cond, body)) && OpenE(cond) && OpenB(body);
  }

  lemma PlaceBlock<W>(x: Exec<W>, p: nat, ss: seq<Stmt>, sc: Scope)
    requires LayoutFaithful(x) == true && ss != []
    ensures var s, rest, sc1 := ss[0], ss[1..], ScopeAfter(ss[0], sc);
            && x.bv.size(ss) == x.sv.size(s) + x.bv.size(rest)
            && x.bv.at(p, ss, sc) == (x.sv.at(p, s, sc) && x.bv.at(p + x.sv.size(s), rest, sc1))
  {
    assert OpenS(ss[0]) && OpenB(ss) && OpenB(ss[1..]);
  }

  lemma MeterSimple<W>(x: Exec<W>, s: Stmt)
    requires ExprLayoutFaithful(x) == true && MeterFaithful(x) == true
    ensures match s
            case Let(_, val) => x.sv.meter(s) == Exactly(x.ev.gas(val) + 103)
            case Store(key, val) => x.sv.meter(s) == Exactly(x.ev.gas(key) + x.ev.gas(val) + 100)
            case IndexStore(_, key, val) => x.sv.meter(s) == Exactly(x.ev.gas(key) + x.ev.gas(val) + 123)
            case Require(cond) => x.sv.meter(s) == UpTo(x.ev.gas(cond) + 5)
            case Return(val) => x.sv.meter(s) == UpTo(x.ev.gas(val) + 1)
            case While(_, _) => x.sv.meter(s) == Unmetered
            case _ => x.sv.meter(s) == StmtMeter(s)
  {
    assert OpenS(s);
    match s
    case Let(_, val) => assert OpenE(val);
    case Store(key, val) => assert OpenE(key) && OpenE(val);
    case IndexStore(_, key, val) => assert OpenE(key) && OpenE(val);
    case Require(cond) => assert OpenE(cond);
    case Return(val) => assert OpenE(val);
    case _ =>
  }

  lemma MeterIf<W>(x: Exec<W>, cond: Expr, thn: seq<Stmt>, els: seq<Stmt>)
    requires ExprLayoutFaithful(x) == true && MeterFaithful(x) == true
    ensures var meter, tm, em := x.sv.meter(If(cond, thn, els)), x.bv.meter(thn), x.bv.meter(els);
            meter.Unmetered?
            || (meter.UpTo? && !tm.Unmetered? && !em.Unmetered?
                && x.ev.gas(cond) + 9 + tm.g <= meter.g && x.ev.gas(cond) + 9 + em.g <= meter.g)
  {
    assert OpenS(If(cond, thn, els)) && OpenE(cond) && OpenB(thn) && OpenB(els);
  }

  lemma {:induction false} StraightIsLoopFree(ss: seq<Stmt>)
    requires AllStraight(ss)
    ensures AllLoopFree(ss)
  {
    if ss != [] { StraightIsLoopFree(ss[1..]); }
  }

  lemma BlockMeter(ss: seq<Stmt>)
    requires ss != []
    ensures StmtsMeter(ss) == Together(StmtMeter(ss[0]), StmtsMeter(ss[1..]))
  {
    if AllStraight(ss[1..]) { StraightIsLoopFree(ss[1..]); }
    assert AllStraight(ss) == (Straight(ss[0]) && AllStraight(ss[1..]));
    assert AllLoopFree(ss) == (LoopFree(ss[0]) && AllLoopFree(ss[1..]));
    assert StmtsGas(ss) == StmtGas(ss[0]) + StmtsGas(ss[1..]);
  }

  lemma MeterBlock<W>(x: Exec<W>, ss: seq<Stmt>)
    requires MeterFaithful(x) == true && ss != []
    ensures x.bv.meter(ss) == Together(x.sv.meter(ss[0]), x.bv.meter(ss[1..]))
  {
    assert OpenS(ss[0]) && OpenB(ss) && OpenB(ss[1..]);
    BlockMeter(ss);
  }

  lemma DoSimple<W>(x: Exec<W>, sc: Scope, s: Stmt, mem: Memory, fuel: nat)
    requires EvalFaithful(x) == true && ExecFaithful(x) == true
    ensures s.Let? ==> x.sv.exec(sc, s, mem, fuel)
                       == WriteTo(mem, Value(TargetSlot(sc, s.name)),
                                  x.ev.eval(TargetScope(sc, s.name), s.val, mem.store))
    ensures s.Store? ==> x.sv.exec(sc, s, mem, fuel)
                         == WriteTo(mem, x.ev.eval(sc, s.key, mem.store), x.ev.eval(sc, s.val, mem.store))
    ensures s.IndexStore? ==> x.sv.exec(sc, s, mem, fuel)
                              == WriteTo(mem, MapKey(EnvOf(x.f), MapSlot(sc, s.name), x.ev.eval(sc, s.key, mem.store)),
                                         x.ev.eval(sc, s.val, mem.store))
    ensures s.Require? ==> x.sv.exec(sc, s, mem, fuel) == Guard(mem, x.ev.eval(sc, s.cond, mem.store))
    ensures s.Return? ==> x.sv.exec(sc, s, mem, fuel) == Answer(mem, x.ev.eval(sc, s.val, mem.store))
    ensures s.Revert? || s.Stop? || s.Emit? ==> x.sv.exec(sc, s, mem, fuel) == ExecStmt(EnvOf(x.f), sc, s, mem, fuel)
  {
    assert OpenS(s);
    match s
    case Let(_, val) => assert OpenE(val);
    case Store(key, val) => assert OpenE(key) && OpenE(val);
    case IndexStore(_, key, val) => assert OpenE(key) && OpenE(val);
    case Require(cond) => assert OpenE(cond);
    case Return(val) => assert OpenE(val);
    case _ =>
  }

  lemma DoIf<W>(x: Exec<W>, cond: Expr, thn: seq<Stmt>, els: seq<Stmt>, sc: Scope, mem: Memory, fuel: nat)
    requires EvalFaithful(x) == true && ExecFaithful(x) == true
    ensures var c := x.ev.eval(sc, cond, mem.store);
            x.sv.exec(sc, If(cond, thn, els), mem, fuel)
            == (if c.Error? then Failed(c.err) else if c.v != 0 then x.bv.exec(sc, thn, mem, fuel)
                else x.bv.exec(ScopeAfterAll(thn, sc), els, mem, fuel))
  {
    assert OpenS(If(cond, thn, els)) && OpenE(cond) && OpenB(thn) && OpenB(els);
  }

  lemma DoWhile<W>(x: Exec<W>, cond: Expr, body: seq<Stmt>, sc: Scope, mem: Memory, fuel: nat)
    requires EvalFaithful(x) == true && ExecFaithful(x) == true
    ensures var c, s := x.ev.eval(sc, cond, mem.store), While(cond, body);
            if fuel == 0 then x.sv.exec(sc, s, mem, fuel) == OutOfFuel
            else
              var r := x.bv.exec(sc, body, mem, fuel);
              x.sv.exec(sc, s, mem, fuel)
              == (if c.Error? then Failed(c.err) else if c.v == 0 then Normal(mem)
                  else if r.Normal? then x.sv.exec(sc, s, r.mem, fuel - 1) else r)
  {
    assert OpenS(While(cond, body)) && OpenE(cond) && OpenB(body);
  }

  lemma DoBlock<W>(x: Exec<W>, ss: seq<Stmt>, sc: Scope, mem: Memory, fuel: nat)
    requires ExecFaithful(x) == true && ss != []
    ensures var r := x.sv.exec(sc, ss[0], mem, fuel);
            x.bv.exec(sc, ss, mem, fuel) == (if r.Normal? then x.bv.exec(ScopeAfter(ss[0], sc), ss[1..], r.mem, fuel)
                                             else r)
  {
    assert OpenS(ss[0]) && OpenB(ss) && OpenB(ss[1..]);
  }

  /** A block as the layout and the interpreter have it. */
  lemma OpenBlock<W>(x: Exec<W>, p: nat, ss: seq<Stmt>, sc: Scope, mem: Memory, fuel: nat)
    requires LayoutFaithful(x) == true && MeterFaithful(x) == true && ExecFaithful(x) == true
    ensures x.bv.size(ss) == StmtsSize(ss) && x.bv.meter(ss) == StmtsMeter(ss)
    ensures x.bv.at(p, ss, sc) == StmtsAt(x.img, p, ss, sc)
            && x.bv.exec(sc, ss, mem, fuel) == ExecStmts(EnvOf(x.f), sc, ss, mem, fuel)
  {
    assert OpenB(ss);
  }

  lemma EmptyBlock<W>(x: Exec<W>, sc: Scope, mem: Memory, fuel: nat)
    requires LayoutFaithful(x) == true && MeterFaithful(x) == true && ExecFaithful(x) == true
    ensures x.bv.size([]) == 0 && x.bv.meter([]) == Exactly(0) && x.bv.exec(sc, [], mem, fuel) == Normal(mem)
  {
    assert OpenB([]);
  }

  /** Statements with an exact meter only write or log. */
  lemma ExactNeverHalts<W>(x: Exec<W>, s: Stmt, sc: Scope, mem: Memory, fuel: nat)
    requires MeterFaithful(x) == true && ExecFaithful(x) == true
    ensures var r := x.sv.exec(sc, s, mem, fuel); x.sv.meter(s).Exactly? ==> !r.Returned? && !r.Stopped?
  {
    assert OpenS(s);
  }
}
