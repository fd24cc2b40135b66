/** Compiled SHL code, run by the VM, does what the interpreter says. */
module ShlCorrect {
  import opened Words
  import opened Shl
  import opened ShlLayout
  import opened ShlView
  import VM

  /** The run was cut short by one of the three resource limits. */
  ghost predicate Limited<W>(o: VM.Outcome<W>)
  {
    o.Failure? && (o.err == VM.OutOfGas || o.err == VM.StepLimit || o.err == VM.StackOver)
  }

  /** From `m` the run either goes on as from `m1` or is cut short. */
  ghost predicate Goes<W>(x: Exec<W>, m: VM.Machine, m1: VM.Machine)
  {
    Limited(x.run(m)) || x.run(m) == x.run(m1)
  }

  ghost predicate Fails<W>(x: Exec<W>, m: VM.Machine, e: VM.Error)
  {
    Limited(x.run(m)) || (x.run(m).Failure? && x.run(m).err == e && x.run(m).world == x.w)
  }

  /** `m1` is `m` moved to `pc` with stack `st`, at least one step and exactly `gas` later. */
  ghost predicate Moved(m: VM.Machine, m1: VM.Machine, pc: int, st: seq<u64>, gas: nat)
  {
    m1.steps > m.steps
    && m1 == m.(pc := pc, st := st, spent := m.spent + gas, steps := m1.steps, used := m1.used)
  }

  /** What follows a dispatched instruction that is not a CALL. */
  function Then<W>(x: Exec<W>, r: VM.StepResult): (o: VM.Outcome<W>)
    requires !r.Invoke?
  {
    match r
    case Next(m1) => x.run(m1)
    case Halt(m1, ret, rb) => VM.Success(m1, ret, rb, x.w)
    case Abort(e, spent) => VM.Failure(e, x.w, spent)
  }

  lemma StepIsDispatch<W>(f: VM.Frame<W>, m: VM.Machine, op: byte)
    requires 0 <= m.pc < |f.code| && f.code[m.pc] == op
    ensures var r := VM.Step(f, m);
            if m.steps >= VM.MAX_STEPS then r == VM.Abort(VM.StepLimit, m.spent)
            else if Wrap(m.used + VM.GasCost(op)) > f.gas then r == VM.Abort(VM.OutOfGas, m.spent)
            else r == VM.Dispatch(f, op, VM.Charge(m, op))
  {
  }

  lemma OneStep<W>(x: Exec<W>, m: VM.Machine, op: byte)
    requires RunFaithful(x) == true
    requires OpAt(x.img, m.pc, op) && op != VM.CALL
    ensures !VM.Dispatch(x.f, op, VM.Charge(m, op)).Invoke?
    ensures Limited(x.run(m)) || x.run(m) == Then(x, VM.Dispatch(x.f, op, VM.Charge(m, op)))
  {
    assert Look(m.pc);
    VM.DispatchCounts(x.f, op, VM.Charge(m, op));
    StepIsDispatch(x.f, m, op);
    assert Unfold(m);
    assert VM.Dispatch(x.f, op, VM.Charge(m, op)).Next? ==> Unfold(VM.Dispatch(x.f, op, VM.Charge(m, op)).m);
  }

  lemma StepPush<W>(x: Exec<W>, m: VM.Machine, v: u64) returns (m1: VM.Machine)
    requires RunFaithful(x) == true
    requires PushAt(x.img, m.pc, v)
    ensures Goes(x, m, m1) && Moved(m, m1, m.pc + 9, m.st + [v], 3)
  {
    assert Look(m.pc + 1);
    OneStep(x, m, VM.PUSH);
    m1 := VM.Charge(m, VM.PUSH);
    m1 := m1.(pc := m1.pc + 8, st := m.st + [v]);
  }

  /** An instruction that only replaces words on top of the stack. */
  lemma StepPlain<W>(x: Exec<W>, m: VM.Machine, op: byte, st: seq<u64>) returns (m1: VM.Machine)
    requires RunFaithful(x) == true
    requires OpAt(x.img, m.pc, op) && op != VM.CALL
    requires var m0 := VM.Charge(m, op);
             VM.Dispatch(x.f, op, m0) == VM.Next(m0.(st := st)) || Limited(Then(x, VM.Dispatch(x.f, op, m0)))
    ensures Goes(x, m, m1) && Moved(m, m1, m.pc + 1, st, VM.GasCost(op))
  {
    OneStep(x, m, op);
    m1 := VM.Charge(m, op).(st := st);
  }

  lemma StepFails<W>(x: Exec<W>, m: VM.Machine, op: byte, e: VM.Error)
    requires RunFaithful(x) == true
    requires OpAt(x.img, m.pc, op) && op != VM.CALL
    requires VM.Dispatch(x.f, op, VM.Charge(m, op)).Abort? && VM.Dispatch(x.f, op, VM.Charge(m, op)).err == e
    ensures Fails(x, m, e)
  {
    OneStep(x, m, op);
  }

  lemma StepLoad<W>(x: Exec<W>, m: VM.Machine, base: seq<u64>, k: u64) returns (m1: VM.Machine)
    requires RunFaithful(x) == true
    requires OpAt(x.img, m.pc, VM.SLOAD) && m.st == base + [k]
    ensures Goes(x, m, m1) && Moved(m, m1, m.pc + 1, base + [VM.Get(m.work, k)], 20)
  {
    assert m.st[..|m.st| - 1] == base;
    m1 := StepPlain(x, m, VM.SLOAD, base + [VM.Get(m.work, k)]);
  }

  lemma StepIsZero<W>(x: Exec<W>, m: VM.Machine, base: seq<u64>, a: u64) returns (m1: VM.Machine)
    requires RunFaithful(x) == true
    requires OpAt(x.img, m.pc, VM.ISZERO) && m.st == base + [a]
    ensures Goes(x, m, m1) && Moved(m, m1, m.pc + 1, base + [B2U(a == 0)], 1)
  {
    assert m.st[..|m.st| - 1] == base;
    m1 := StepPlain(x, m, VM.ISZERO, base + [B2U(a == 0)]);
  }

  lemma StepMix<W>(x: Exec<W>, m: VM.Machine, base: seq<u64>, a: u64, k: u64) returns (m1: VM.Machine)
    requires RunFaithful(x) == true
    requires OpAt(x.img, m.pc, VM.MIX) && m.st == base + [a] + [k]
    ensures Goes(x, m, m1) && Moved(m, m1, m.pc + 1, base + [Mix(EnvOf(x.f), a, k)], 20)
  {
    assert m.st[..|m.st| - 2] == base;
    m1 := StepPlain(x, m, VM.MIX, base + [Mix(EnvOf(x.f), a, k)]);
  }

  lemma StepArg<W>(x: Exec<W>, m: VM.Machine, base: seq<u64>, k: u64) returns (m1: VM.Machine)
    requires RunFaithful(x) == true
    requires OpAt(x.img, m.pc, VM.CDLOAD) && m.st == base + [k]
    ensures match ArgValue(EnvOf(x.f), k)
            case Value(v) => Goes(x, m, m1) && Moved(m, m1, m.pc + 1, base + [v], 1)
            case Error(e) => Fails(x, m, e)
  {
    assert m.st[..|m.st| - 1] == base;
    match ArgValue(EnvOf(x.f), k)
    case Value(v) => m1 := StepPlain(x, m, VM.CDLOAD, base + [v]);
    case Error(e) => StepFails(x, m, VM.CDLOAD, e); m1 := m;
  }

  lemma StepBuiltin<W>(x: Exec<W>, m: VM.Machine, e: Expr, sc: Scope) returns (m1: VM.Machine)
    requires RunFaithful(x) == true
    requires e.Caller? || e.CallValue? || e.Balance? || e.SelfId?
    requires ExprAt(x.img, m.pc, e, sc)
    ensures Goes(x, m, m1) && Moved(m, m1, m.pc + 1, m.st + [EvalExpr(EnvOf(x.f), sc, e, m.work).v], 1)
  {
    var op := x.img.op(m.pc);
    m1 := StepPlain(x, m, op, m.st + [EvalExpr(EnvOf(x.f), sc, e, m.work).v]);
  }

  /* ----- Operators ----- */

  /** The VM's overflow tests are exact: they refuse just the results that are not words. */
  lemma CheckedIsExact(a: u64, b: u64)
    ensures VM.Checked(VM.ADDC, a, b) == (if a + b < TWO64 then Some(a + b) else None)
    ensures VM.Checked(VM.SUBC, a, b) == (if a - b >= 0 then Some(a - b) else None)
    ensures VM.Checked(VM.MULC, a, b) == (if a * b < TWO64 then Some(a * b) else None)
  {
    ProductCheck(a, b);
  }

  lemma QuotientOfProduct(p: int, a: int, b: int)
    requires a > 0 && p == b * a
    ensures p / a == b
  {
    ghost var q, r := p / a, p % a;
    assert p == q * a + r;
    assert (b - q) * a == r;
    VM.ProductBound(b - q, a);
  }

  lemma ProductCheck(a: u64, b: u64)
    ensures a == 0 ==> Wrap(a * b) == 0 == a * b
    ensures a != 0 && a * b < TWO64 ==> Wrap(a * b) / a == b
    ensures a != 0 && a * b >= TWO64 ==> Wrap(a * b) / a != b
  {
    if a != 0 {
      ghost var p := a * b;
      assert p == b * a;
      if p < 0 {
        VM.ProductBound(b, a);
      } else if p < TWO64 {
        QuotientOfProduct(p, a, b);
      } else {
        ghost var x := Wrap(p);
        assert x < p;
        assert x == (x / a) * a + x % a;
      }
    }
  }

  lemma ValueOp<W>(x: Exec<W>, m: VM.Machine, op: byte, base: seq<u64>, a: u64, b: u64, v: u64)
    returns (m1: VM.Machine)
    requires RunFaithful(x) == true
    requires OpAt(x.img, m.pc, op) && m.st == base + [a] + [b]
    requires (VM.IsBinop(op) && VM.Binop(op, a, b) == Some(v))
          || (op in {VM.ADDC, VM.SUBC, VM.MULC} && VM.Checked(op, a, b) == Some(v))
    ensures Goes(x, m, m1) && Moved(m, m1, m.pc + 1, base + [v], 1)
  {
    assert m.st[..|m.st| - 2] == base;
    m1 := StepPlain(x, m, op, base + [v]);
  }

  lemma ErrorOp<W>(x: Exec<W>, m: VM.Machine, op: byte, base: seq<u64>, a: u64, b: u64, e: VM.Error)
    requires RunFaithful(x) == true
    requires OpAt(x.img, m.pc, op) && m.st == base + [a] + [b]
    requires (VM.IsBinop(op) && VM.Binop(op, a, b) == None && e == VM.DivZero)
          || (op in {VM.ADDC, VM.SUBC, VM.MULC} && VM.Checked(op, a, b) == None && e == VM.Overflow)
    ensures Fails(x, m, e)
  {
    assert m.st[..|m.st| - 2] == base;
    StepFails(x, m, op, e);
  }

  lemma GoesOn<W>(x: Exec<W>, m: VM.Machine, m1: VM.Machine, m2: VM.Machine)
    requires RunFaithful(x) == true
    requires Goes(x, m, m1) && Goes(x, m1, m2)
    ensures Goes(x, m, m2)
  {
  }

  lemma NegatedOp<W>(x: Exec<W>, m: VM.Machine, op: byte, base: seq<u64>, a: u64, b: u64, v: bool)
    returns (m1: VM.Machine)
    requires RunFaithful(x) == true
    requires VM.IsBinop(op) && OpAt(x.img, m.pc, op) && OpAt(x.img, m.pc + 1, VM.ISZERO) && m.st == base + [a] + [b]
    requires VM.Binop(op, a, b) == Some(B2U(v))
    ensures Goes(x, m, m1) && Moved(m, m1, m.pc + 2, base + [B2U(!v)], 2)
  {
    var m2 := ValueOp(x, m, op, base, a, b, B2U(v));
    m1 := StepIsZero(x, m2, base, B2U(v));
    GoesOn(x, m, m2, m1);
  }

  lemma StepOp<W>(x: Exec<W>, m: VM.Machine, op: BinOp, base: seq<u64>, a: u64, b: u64)
    returns (m1: VM.Machine)
    requires RunFaithful(x) == true
    requires OperatorAt(x.img, m.pc, op) && m.st == base + [a] + [b]
    ensures match Apply(op, a, b)
            case Value(v) => Goes(x, m, m1) && Moved(m, m1, m.pc + |OpCode(op)|, base + [v], |OpCode(op)|)
            case Error(e) => Fails(x, m, e)
  {
    CheckedIsExact(a, b);
    var code := OpCode(op)[0];
    m1 := m;
    match op
    case NotEqual => m1 := NegatedOp(x, m, VM.EQ, base, a, b, a == b);
    case AtMost => m1 := NegatedOp(x, m, VM.GT, base, a, b, a > b);
    case AtLeast => m1 := NegatedOp(x, m, VM.LT, base, a, b, a < b);
    case _ =>
      match Apply(op, a, b)
      case Value(v) => m1 := ValueOp(x, m, code, base, a, b, v);
      case Error(e) => ErrorOp(x, m, code, base, a, b, e);
  }

  /* ----- Expressions ----- */

  /** From `m`, evaluation to `r` in code of this size and gas leaves the value on the stack. */
  ghost predicate Evaluates<W>(x: Exec<W>, m: VM.Machine, m1: VM.Machine, r: Eval, size: nat, gas: nat)
  {
    match r
    case Value(v) => Goes(x, m, m1) && Moved(m, m1, m.pc + size, m.st + [v], gas)
    case Error(err) => Fails(x, m, err)
  }

  lemma ThenLoad<W>(x: Exec<W>, m: VM.Machine, m2: VM.Machine, k: Eval, size: nat, gas: nat) returns (m1: VM.Machine)
    requires RunFaithful(x) == true && Evaluates(x, m, m2, k, size, gas) == true
             && OpAt(x.img, m.pc + size, VM.SLOAD) == true
    ensures Evaluates(x, m, m1, Fetch(m.work, k), size + 1, gas + 20) == true
  {
    m1 := m2;
    if k.Value? { m1 := StepLoad(x, m2, m.st, k.v); }
  }

  lemma ThenArg<W>(x: Exec<W>, m: VM.Machine, m2: VM.Machine, k: Eval, size: nat, gas: nat) returns (m1: VM.Machine)
    requires RunFaithful(x) == true && Evaluates(x, m, m2, k, size, gas) == true
             && OpAt(x.img, m.pc + size, VM.CDLOAD) == true
    ensures Evaluates(x, m, m1, Calldata(EnvOf(x.f), k), size + 1, gas + 1) == true
  {
    m1 := m2;
    if k.Value? { m1 := StepArg(x, m2, m.st, k.v); }
  }

  lemma ThenIsZero<W>(x: Exec<W>, m: VM.Machine, m2: VM.Machine, k: Eval, size: nat, gas: nat) returns (m1: VM.Machine)
    requires RunFaithful(x) == true && Evaluates(x, m, m2, k, size, gas) == true
             && OpAt(x.img, m.pc + size, VM.ISZERO) == true
    ensures Evaluates(x, m, m1, Negate(k), size + 1, gas + 1) == true
  {
    m1 := m2;
    if k.Value? { m1 := StepIsZero(x, m2, m.st, k.v); }
  }

  /** `PUSH slot; key; MIX`: the storage key of a mapping entry. `m2` is the machine after the PUSH. */
  lemma ThenMix<W>(x: Exec<W>, m: VM.Machine, m2: VM.Machine, m3: VM.Machine, slot: u64, k: Eval, size: nat, gas: nat)
    returns (m1: VM.Machine)
    requires RunFaithful(x) == true && Goes(x, m, m2) && Moved(m, m2, m.pc + 9, m.st + [slot], 3)
    requires Evaluates(x, m2, m3, k, size, gas) == true && OpAt(x.img, m.pc + 9 + size, VM.MIX) == true
    ensures Evaluates(x, m, m1, MapKey(EnvOf(x.f), slot, k), size + 10, gas + 23) == true
  {
    m1 := m3;
    if k.Value? { m1 := StepMix(x, m3, m.st, slot, k.v); }
  }

  lemma ThenOp<W>(x: Exec<W>, m: VM.Machine, m2: VM.Machine, m3: VM.Machine, op: BinOp, a: Eval, b: Eval,
                  size: nat, gas: nat, size': nat, gas': nat)
    returns (m1: VM.Machine)
    requires RunFaithful(x) == true && Evaluates(x, m, m2, a, size, gas) == true
    requires a.Value? ==> Evaluates(x, m2, m3, b, size', gas') == true
    requires OperatorAt(x.img, m.pc + size + size', op) == true
    ensures Evaluates(x, m, m1, Combine(op, a, b), size + size' + |OpCode(op)|, gas + gas' + |OpCode(op)|) == true
  {
    m1 := m2;
    if a.Value? {
      m1 := m3;
      if b.Value? { m1 := StepOp(x, m3, op, m.st, a.v, b.v); }
    }
  }

  /** Expressions compute on the VM what the interpreter says they are worth. */
  lemma {:induction false} SimExpr<W>(x: Exec<W>, m: VM.Machine, e: Expr, sc: Scope) returns (m1: VM.Machine)
    requires RunFaithful(x) == true && ExprLayoutFaithful(x) == true && EvalFaithful(x) == true
    requires x.ev.at(m.pc, e, sc)
    ensures Evaluates(x, m, m1, x.ev.eval(sc, e, m.work), x.ev.size(e), x.ev.gas(e)) == true
    decreases e
  {
    EvalNode(x, e, sc, m.work);
    match e
    case Index(name, key) =>
      PlaceIndex(x, m.pc, name, key, sc);
      var slot, k := MapSlot(sc, name), x.ev.eval(sc, key, m.work);
      var m2 := StepPush(x, m, slot);
      var m3 := SimExpr(x, m2, key, sc);
      var m4 := ThenMix(x, m, m2, m3, slot, k, x.ev.size(key), x.ev.gas(key));
      m1 := ThenLoad(x, m, m4, MapKey(EnvOf(x.f), slot, k), x.ev.size(key) + 10, x.ev.gas(key) + 23);
    case Load(key) =>
      PlaceLoad(x, m.pc, key, sc);
      var m2 := SimExpr(x, m, key, sc);
      m1 := ThenLoad(x, m, m2, x.ev.eval(sc, key, m.work), x.ev.size(key), x.ev.gas(key));
    case Arg(i) =>
      PlaceArg(x, m.pc, i, sc);
      var m2 := SimExpr(x, m, i, sc);
      m1 := ThenArg(x, m, m2, x.ev.eval(sc, i, m.work), x.ev.size(i), x.ev.gas(i));
    case Not(y) =>
      PlaceNot(x, m.pc, y, sc);
      var m2 := SimExpr(x, m, y, sc);
      m1 := ThenIsZero(x, m, m2, x.ev.eval(sc, y, m.work), x.ev.size(y), x.ev.gas(y));
    case Binary(op, l, r) =>
      PlaceBinary(x, m.pc, op, l, r, sc);
      var a, b := x.ev.eval(sc, l, m.work), x.ev.eval(sc, r, m.work);
      var m2 := SimExpr(x, m, l, sc);
      var m3 := m2;
      if a.Value? { m3 := SimExpr(x, m2, r, sc); }
      m1 := ThenOp(x, m, m2, m3, op, a, b, x.ev.size(l), x.ev.gas(l), x.ev.size(r), x.ev.gas(r));
    case _ => m1 := SimLeaf(x, m, e, sc);
  }

  lemma SimLeaf<W>(x: Exec<W>, m: VM.Machine, e: Expr, sc: Scope) returns (m1: VM.Machine)
    requires RunFaithful(x) == true && ExprLayoutFaithful(x) == true && EvalFaithful(x) == true
    requires e.Num? || e.Var? || e.Caller? || e.CallValue? || e.Balance? || e.SelfId?
    requires x.ev.at(m.pc, e, sc)
    ensures Evaluates(x, m, m1, x.ev.eval(sc, e, m.work), x.ev.size(e), x.ev.gas(e)) == true
  {
    OpenLeaf(x, m.pc, e, sc, m.work);
    match e
    case Num(v) => m1 := StepPush(x, m, v);
    case Var(name) =>
      var slot := ReadSlot(sc, name);
      var m2 := StepPush(x, m, slot);
      m1 := ThenLoad(x, m, m2, Value(slot), 9, 3);
    case _ => m1 := StepBuiltin(x, m, e, sc);
  }

  /** The arguments of `emit`, left in order on the stack. */
  ghost predicate Lists<W>(x: Exec<W>, m: VM.Machine, m1: VM.Machine, r: Evals, size: nat, gas: nat)
  {
    match r
    case Values(vs) =>
      Goes(x, m, m1) && m1.steps >= m.steps
      && m1 == m.(pc := m.pc + size, st := m.st + vs, steps := m1.steps, used := m1.used, spent := m.spent + gas)
    case ErrorIn(err) => Fails(x, m, err)
  }

  lemma ConsLists<W>(x: Exec<W>, m: VM.Machine, m2: VM.Machine, m1: VM.Machine, v: u64, vs: Evals, n: nat, g: nat,
      n': nat, g': nat)
    requires Evaluates(x, m, m2, Value(v), n, g) == true && Lists(x, m2, m1, vs, n', g') == true
    ensures Lists(x, m, m1, if vs.ErrorIn? then vs else Values([v] + vs.vs), n + n', g + g') == true
  {
    if vs.Values? {
      assert m.st + [v] + vs.vs == m.st + ([v] + vs.vs);
    }
  }

  lemma OpenList<W>(x: Exec<W>, p: int, es: seq<Expr>, sc: Scope, store: map<u64, u64>)
    requires ExprLayoutFaithful(x) == true && EvalFaithful(x) == true && es != []
    ensures ExprsSize(es) == x.ev.size(es[0]) + ExprsSize(es[1..])
            && ExprsGas(es) == x.ev.gas(es[0]) + ExprsGas(es[1..])
    ensures ExprsAt(x.img, p, es, sc) == (x.ev.at(p, es[0], sc) && ExprsAt(x.img, p + x.ev.size(es[0]), es[1..], sc))
    ensures var v, vs := x.ev.eval(sc, es[0], store), EvalExprs(EnvOf(x.f), sc, es[1..], store);
            EvalExprs(EnvOf(x.f), sc, es, store)
            == (if v.Error? then ErrorIn(v.err) else if vs.ErrorIn? then vs else Values([v.v] + vs.vs))
  {
    assert OpenE(es[0]);
  }

  lemma {:induction false} SimExprs<W>(x: Exec<W>, m: VM.Machine, es: seq<Expr>, sc: Scope) returns (m1: VM.Machine)
    requires RunFaithful(x) == true && ExprLayoutFaithful(x) == true && EvalFaithful(x) == true
    requires ExprsAt(x.img, m.pc, es, sc) == true
    ensures Lists(x, m, m1, EvalExprs(EnvOf(x.f), sc, es, m.work), ExprsSize(es), ExprsGas(es)) == true
    decreases es
  {
    if es == [] {
      m1 := m;
      assert m.st + [] == m.st;
    } else {
      OpenList(x, m.pc, es, sc, m.work);
      var v := x.ev.eval(sc, es[0], m.work);
      var m2 := SimExpr(x, m, es[0], sc);
      m1 := m2;
      if v.Value? {
        m1 := SimExprs(x, m2, es[1..], sc);
        ConsLists(x, m, m2, m1, v.v, EvalExprs(EnvOf(x.f), sc, es[1..], m.work), x.ev.size(es[0]), x.ev.gas(es[0]),
                  ExprsSize(es[1..]), ExprsGas(es[1..]));
      }
    }
  }

  /* ----- Instructions of statements ----- */

  lemma StepStore<W>(x: Exec<W>, m: VM.Machine, base: seq<u64>, k: u64, v: u64) returns (m1: VM.Machine)
    requires RunFaithful(x) == true
    requires OpAt(x.img, m.pc, VM.SSTORE) && m.st == base + [k] + [v]
    ensures Goes(x, m, m1) && Moved(m.(work := m.work[k := v]), m1, m.pc + 1, base, 100)
  {
    assert m.st[..|m.st| - 2] == base;
    OneStep(x, m, VM.SSTORE);
    m1 := VM.Charge(m, VM.SSTORE).(st := base, work := m.work[k := v]);
  }

  /** An address inside code that fits a Go slice. */
  ghost predicate Inside<W>(x: Exec<W>, p: int)
  {
    0 <= p < |x.f.code| < TWO63
  }

  lemma StepJump<W>(x: Exec<W>, m: VM.Machine, target: nat) returns (m1: VM.Machine)
    requires RunFaithful(x) == true && Inside(x, target)
    requires JumpAt(x.img, m.pc, target, VM.JUMP)
    ensures Goes(x, m, m1) && Moved(m, m1, target, m.st, 4)
  {
    var m2 := StepPush(x, m, target);
    assert m2.st[..|m2.st| - 1] == m.st;
    OneStep(x, m2, VM.JUMP);
    m1 := VM.Charge(m2, VM.JUMP).(st := m.st, pc := target);
  }

  lemma StepJumpIf<W>(x: Exec<W>, m: VM.Machine, base: seq<u64>, c: u64, target: nat) returns (m1: VM.Machine)
    requires RunFaithful(x) == true && Inside(x, target)
    requires JumpAt(x.img, m.pc, target, VM.JUMPI) && m.st == base + [c]
    ensures Goes(x, m, m1) && Moved(m, m1, if c != 0 then target else m.pc + 10, base, 4)
  {
    var m2 := StepPush(x, m, target);
    assert m2.st[..|m2.st| - 2] == base;
    OneStep(x, m2, VM.JUMPI);
    m1 := VM.Charge(m2, VM.JUMPI).(st := base, pc := if c != 0 then target else m.pc + 10);
  }

  lemma StepLog<W>(x: Exec<W>, m: VM.Machine, base: seq<u64>, vs: seq<u64>) returns (m1: VM.Machine)
    requires RunFaithful(x) == true
    requires OpAt(x.img, m.pc, VM.LOG) && |vs| < TWO64 && m.st == base + vs + [|vs|]
    ensures |vs| > VM.MAX_LOG_TOPICS ==> Fails(x, m, VM.BadCode)
    ensures |vs| <= VM.MAX_LOG_TOPICS ==>
              Goes(x, m, m1) && Moved(m.(logs := m.logs + [vs]), m1, m.pc + 1, base, 50 + 8 * |vs|)
  {
    assert m.st[..|m.st| - 1] == base + vs;
    OneStep(x, m, VM.LOG);
    var m0 := VM.Drop(VM.Charge(m, VM.LOG), 1);
    assert VM.Dispatch(x.f, VM.LOG, VM.Charge(m, VM.LOG)) == VM.EmitLog(x.f, m0, |vs|);
    m1 := m;
    if |vs| <= VM.MAX_LOG_TOPICS {
      assert m0.st[..|m0.st| - |vs|] == base && m0.st[|m0.st| - |vs|..] == vs;
      m1 := m0.(used := Wrap(m0.used + 8 * |vs|), spent := m0.spent + 8 * |vs|, st := base, logs := m.logs + [vs]);
    }
  }

  /** The run halts well, with this result, stack `st`, and at most `meter` gas. */
  ghost predicate Halts<W>(x: Exec<W>, m: VM.Machine, ret: u64, mem: Memory, st: seq<u64>, meter: Meter)
  {
    Limited(x.run(m))
    || (var o := x.run(m);
        o.Success? && o.ret == ret && o.retBytes == [] && o.world == x.w
        && o.m.work == mem.store && o.m.logs == mem.logs && o.m.bwork == m.bwork && o.m.st == st
        && Meets(o.m.spent - m.spent, meter))
  }

  lemma StepStop<W>(x: Exec<W>, m: VM.Machine)
    requires RunFaithful(x) == true && OpAt(x.img, m.pc, VM.STOP)
    ensures Halts(x, m, 0, Memory(m.work, m.logs), m.st, Exactly(1))
  {
    OneStep(x, m, VM.STOP);
  }

  lemma StepReturn<W>(x: Exec<W>, m: VM.Machine, base: seq<u64>, v: u64)
    requires RunFaithful(x) == true && OpAt(x.img, m.pc, VM.RETURN) && m.st == base + [v]
    ensures Halts(x, m, v, Memory(m.work, m.logs), base, Exactly(1))
  {
    assert m.st[..|m.st| - 1] == base;
    OneStep(x, m, VM.RETURN);
  }

  lemma StepRevert<W>(x: Exec<W>, m: VM.Machine)
    requires RunFaithful(x) == true && OpAt(x.img, m.pc, VM.REVERT)
    ensures Fails(x, m, VM.Reverted)
  {
    StepFails(x, m, VM.REVERT, VM.Reverted);
  }
}
