/** The static gas estimate, and what it adds up for compiled code. */
module ShlGas {
  import opened Words
  import opened Shl
  import opened ShlLayout
  import opened ShlView
  import opened ShlCorrect
  import opened ShlProgram
  import ShlStmts
  import VM

  /* ----- The scan ----- */

  /** What one opcode other than PUSH adds; `last` is the constant pushed just before it, if any. */
  function OpEstimate(op: byte, last: Option<u64>): (g: nat)
  {
    if op == VM.SSTORE then 100
    else if op == VM.SLOAD || op == VM.MIX then 20
    else if op == VM.LOG then 50 + (if last.Some? then 8 * last.value else 0)
    else 1
  }

  /** The total from byte `i` on, `total` having been added so far. The program keeps it modulo 2^64. */
  function Scan(code: seq<byte>, i: nat, total: nat, last: Option<u64>): (r: nat)
    decreases |code| - i
  {
    if i >= |code| then total
    else if code[i] == VM.PUSH then
      Scan(code, i + 9, total + 3, if i + 9 <= |code| then Some(BytesU64(code[i + 1..i + 9])) else last)
    else Scan(code, i + 1, total + OpEstimate(code[i], last), None)
  }

  lemma {:induction false} WrapAdds(exact: int, a: int, b: int)
    ensures Wrap(Wrap(exact) + a) == Wrap(exact + a)
    ensures Wrap(Wrap(exact + a) + Wrap(b)) == Wrap(exact + (a + b))
  {
  }

  /** The cost of one opcode other than PUSH; a LOG costs by the constant pushed just before it. */
  method AddOp(sum: u64, op: byte, lastConst: u64, hasConst: bool, ghost exact: nat) returns (total: u64)
    requires sum == Wrap(exact)
    ensures total == Wrap(exact + OpEstimate(op, if hasConst then Some(lastConst) else None))
  {
    if op == VM.SSTORE {
      total := Wrap(sum + 100);
    } else if op == VM.SLOAD || op == VM.MIX {
      total := Wrap(sum + 20);
    } else if op == VM.LOG {
      WrapAdds(exact, 50, 8 * lastConst);
      total := Wrap(sum + 50);
      if hasConst { total := Wrap(total + Wrap(8 * lastConst)); }
    } else {
      total := Wrap(sum + 1);
    }
    WrapAdds(exact, OpEstimate(op, if hasConst then Some(lastConst) else None), 0);
  }

  method Estimate(code: seq<byte>) returns (total: u64)
    ensures total == Wrap(Scan(code, 0, 0, None))
  {
    total := 0;
    ghost var exact: nat := 0;
    var lastConst: u64, hasConst := 0, false;
    var i := 0;
    while i < |code|
      invariant i >= 0 && total == Wrap(exact)
      invariant Scan(code, 0, 0, None) == Scan(code, i, exact, if hasConst then Some(lastConst) else None)
      decreases |code| - i
    {
      var op := code[i];
      if op == VM.PUSH {
        WrapAdds(exact, 3, 0);
        total, exact := Wrap(total + 3), exact + 3;
        if i + 9 <= |code| { lastConst, hasConst := BytesU64(code[i + 1..i + 9]), true; }
        i := i + 9;
      } else {
        ghost var cost := OpEstimate(op, if hasConst then Some(lastConst) else None);
        total := AddOp(total, op, lastConst, hasConst, exact);
        hasConst, exact, i := false, exact + cost, i + 1;
      }
    }
  }

  /* ----- The scan of compiled code: a function kept closed, as in `Exec` ----- */

  datatype Scanner = Scanner(code: seq<byte>, scan: (int, nat, Option<u64>) -> nat)

  ghost predicate OpenAt(i: int) { true }

  ghost predicate ScansAt(s: Scanner, i: int)
  {
    forall t: nat, last: Option<u64> :: s.scan(i, t, last) == if i >= 0 then Scan(s.code, i, t, last) else 0
  }

  ghost predicate Scans(s: Scanner)
  {
    forall i: int {:trigger OpenAt(i)} :: OpenAt(i) ==> ScansAt(s, i)
  }

  ghost function ScannerOf(code: seq<byte>): (s: Scanner)
    ensures Scans(s) && s.code == code
  {
    Scanner(code, (i: int, t: nat, last: Option<u64>) => if i >= 0 then Scan(code, i, t, last) else 0)
  }

  /** Scanning from `p` with `t` is scanning from `q` with `g` more. */
  ghost predicate Adds(s: Scanner, p: int, t: nat, last: Option<u64>, q: int, g: nat, last': Option<u64>)
  {
    s.scan(p, t, last) == s.scan(q, t + g, last')
  }

  lemma {:induction false} InTurn(s: Scanner, p: int, t: nat, l0: Option<u64>, q: int, g: nat, l1: Option<u64>, r: int,
      g': nat, l2: Option<u64>)
    requires Adds(s, p, t, l0, q, g, l1) && Adds(s, q, t + g, l1, r, g', l2)
    ensures Adds(s, p, t, l0, r, g + g', l2)
  {
  }

  /** The scanner and the executor look at the same code. */
  ghost predicate Same<W>(x: Exec<W>, s: Scanner)
  {
    Scans(s) && RunFaithful(x) && x.f.code == s.code && |s.code| < TWO63
  }

  lemma {:induction false} ScanOp<W>(x: Exec<W>, s: Scanner, p: int, op: byte, t: nat, last: Option<u64>)
    requires Same(x, s) && OpAt(x.img, p, op) && op != VM.PUSH
    ensures Adds(s, p, t, last, p + 1, OpEstimate(op, last), None)
  {
    assert Look(p) && OpenAt(p) && OpenAt(p + 1);
  }

  lemma {:induction false} ScanPush<W>(x: Exec<W>, s: Scanner, p: int, v: u64, t: nat, last: Option<u64>)
    requires Same(x, s) && PushAt(x.img, p, v)
    ensures Adds(s, p, t, last, p + 9, 3, Some(v))
  {
    assert Look(p) && Look(p + 1) && OpenAt(p) && OpenAt(p + 9);
  }

  /** One more opcode after code already scanned. */
  lemma {:induction false} ThenScan<W>(x: Exec<W>, s: Scanner, p: int, t: nat, last: Option<u64>, q: int, g: nat,
      l1: Option<u64>, op: byte)
    requires Same(x, s) && Adds(s, p, t, last, q, g, l1) && OpAt(x.img, q, op) && op != VM.PUSH
    ensures Adds(s, p, t, last, q + 1, g + OpEstimate(op, l1), None)
  {
    ScanOp(x, s, q, op, t + g, l1);
    InTurn(s, p, t, last, q, g, l1, q + 1, OpEstimate(op, l1), None);
  }

  lemma {:induction false} ThenPush<W>(x: Exec<W>, s: Scanner, p: int, t: nat, last: Option<u64>, q: int, g: nat,
      l1: Option<u64>, v: u64)
    requires Same(x, s) && Adds(s, p, t, last, q, g, l1) && PushAt(x.img, q, v)
    ensures Adds(s, p, t, last, q + 9, g + 3, Some(v))
  {
    ScanPush(x, s, q, v, t + g, l1);
    InTurn(s, p, t, last, q, g, l1, q + 9, 3, Some(v));
  }

  lemma {:induction false} ScanOperator<W>(x: Exec<W>, s: Scanner, p: int, op: BinOp, t: nat, last: Option<u64>)
    requires Same(x, s) && OperatorAt(x.img, p, op)
    ensures Adds(s, p, t, last, p + |OpCode(op)|, |OpCode(op)|, None)
  {
    var c := OpCode(op);
    ScanOp(x, s, p, c[0], t, last);
    if |c| == 2 { ThenScan(x, s, p, t, last, p + 1, 1, None, c[1]); }
  }

  lemma {:induction false} ScanLeaf<W>(x: Exec<W>, s: Scanner, p: int, e: Expr, sc: Scope, t: nat, last: Option<u64>)
      returns (last': Option<u64>)
    requires Same(x, s) && ExprAt(x.img, p, e, sc)
    requires e.Num? || e.Var? || e.Caller? || e.CallValue? || e.Balance? || e.SelfId?
    ensures Adds(s, p, t, last, p + ExprSize(e), ExprGas(e), last')
  {
    last' := None;
    match e
    case Num(v) => ScanPush(x, s, p, v, t, last); last' := Some(v);
    case Var(name) =>
      ScanPush(x, s, p, ReadSlot(sc, name), t, last);
      ThenScan(x, s, p, t, last, p + 9, 3, Some(ReadSlot(sc, name)), VM.SLOAD);
    case Caller => ScanOp(x, s, p, VM.CALLER, t, last);
    case CallValue => ScanOp(x, s, p, VM.VALUE, t, last);
    case Balance => ScanOp(x, s, p, VM.BAL, t, last);
    case SelfId => ScanOp(x, s, p, VM.SELF, t, last);
  }

  lemma {:induction false} ScanExpr<W>(x: Exec<W>, s: Scanner, p: int, e: Expr, sc: Scope, t: nat, last: Option<u64>)
      returns (last': Option<u64>)
    requires Same(x, s) == true && ExprLayoutFaithful(x) == true && EvalFaithful(x) == true && x.ev.at(p, e, sc)
    ensures Adds(s, p, t, last, p + x.ev.size(e), x.ev.gas(e), last') == true
    decreases e, 1
  {
    last' := None;
    match e
    case Index(name, key) => ScanIndex(x, s, p, name, key, sc, t, last);
    case Load(key) =>
      PlaceLoad(x, p, key, sc);
      var l1 := ScanExpr(x, s, p, key, sc, t, last);
      ThenScan(x, s, p, t, last, p + x.ev.size(key), x.ev.gas(key), l1, VM.SLOAD);
    case Arg(i) =>
      PlaceArg(x, p, i, sc);
      var l1 := ScanExpr(x, s, p, i, sc, t, last);
      ThenScan(x, s, p, t, last, p + x.ev.size(i), x.ev.gas(i), l1, VM.CDLOAD);
    case Not(y) =>
      PlaceNot(x, p, y, sc);
      var l1 := ScanExpr(x, s, p, y, sc, t, last);
      ThenScan(x, s, p, t, last, p + x.ev.size(y), x.ev.gas(y), l1, VM.ISZERO);
    case Binary(op, l, r) => ScanBinary(x, s, p, op, l, r, sc, t, last);
    case _ =>
      OpenLeaf(x, p, e, sc, map[]);
      last' := ScanLeaf(x, s, p, e, sc, t, last);
  }

  lemma {:induction false} ScanIndex<W>(x: Exec<W>, s: Scanner, p: int, name: Name, key: Expr, sc: Scope, t: nat,
      last: Option<u64>)
    requires Same(x, s) == true && ExprLayoutFaithful(x) == true && EvalFaithful(x) == true
             && x.ev.at(p, Index(name, key), sc)
    ensures Adds(s, p, t, last, p + x.ev.size(Index(name, key)), x.ev.gas(Index(name, key)), None) == true
    decreases Index(name, key), 0, 1
  {
    PlaceIndex(x, p, name, key, sc);
    ScanKeyed(x, s, p, MapSlot(sc, name), key, sc, t, last, Index(name, key));
    ThenScan(x, s, p, t, last, p + 10 + x.ev.size(key), 23 + x.ev.gas(key), None, VM.SLOAD);
  }

  lemma {:induction false} ScanBinary<W>(x: Exec<W>, s: Scanner, p: int, op: BinOp, l: Expr, r: Expr, sc: Scope, t: nat,
      last: Option<u64>)
    requires Same(x, s) == true && ExprLayoutFaithful(x) == true && EvalFaithful(x) == true
             && x.ev.at(p, Binary(op, l, r), sc)
    ensures Adds(s, p, t, last, p + x.ev.size(Binary(op, l, r)), x.ev.gas(Binary(op, l, r)), None) == true
    decreases Binary(op, l, r), 0, 1
  {
    PlaceBinary(x, p, op, l, r, sc);
    var l2 := ScanTwo(x, s, p, l, r, sc, t, last, Binary(op, l, r));
    var n, g := x.ev.size(l) + x.ev.size(r), x.ev.gas(l) + x.ev.gas(r);
    ScanOperator(x, s, p + n, op, t + g, l2);
    InTurn(s, p, t, last, p + n, g, l2, p + n + |OpCode(op)|, |OpCode(op)|, None);
  }

  /** `PUSH slot; key; MIX`. */
  lemma {:induction false} ScanKeyed<W>(x: Exec<W>, s: Scanner, p: int, slot: u64, key: Expr, sc: Scope, t: nat,
      last: Option<u64>, whole: Expr)
    requires Same(x, s) == true && ExprLayoutFaithful(x) == true && EvalFaithful(x) == true && key < whole
    requires PushAt(x.img, p, slot) && x.ev.at(p + 9, key, sc) && OpAt(x.img, p + 9 + x.ev.size(key), VM.MIX)
    ensures Adds(s, p, t, last, p + 10 + x.ev.size(key), 23 + x.ev.gas(key), None) == true
    decreases whole, 0, 0
  {
    ScanPush(x, s, p, slot, t, last);
    var n, g := x.ev.size(key), x.ev.gas(key);
    var l1 := ScanExpr(x, s, p + 9, key, sc, t + 3, Some(slot));
    InTurn(s, p, t, last, p + 9, 3, Some(slot), p + 9 + n, g, l1);
    ThenScan(x, s, p, t, last, p + 9 + n, 3 + g, l1, VM.MIX);
  }

  lemma {:induction false} ScanTwo<W>(x: Exec<W>, s: Scanner, p: int, l: Expr, r: Expr, sc: Scope, t: nat,
      last: Option<u64>, whole: Expr) returns (last': Option<u64>)
    requires Same(x, s) == true && ExprLayoutFaithful(x) == true && EvalFaithful(x) == true && l < whole && r < whole
    requires x.ev.at(p, l, sc) && x.ev.at(p + x.ev.size(l), r, sc)
    ensures Adds(s, p, t, last, p + x.ev.size(l) + x.ev.size(r), x.ev.gas(l) + x.ev.gas(r), last') == true
    decreases whole, 0, 0
  {
    var l1 := ScanExpr(x, s, p, l, sc, t, last);
    last' := ScanExpr(x, s, p + x.ev.size(l), r, sc, t + x.ev.gas(l), l1);
    InTurn(s, p, t, last, p + x.ev.size(l), x.ev.gas(l), l1, p + x.ev.size(l) + x.ev.size(r), x.ev.gas(r), last');
  }

  /* ----- Statements ----- */

  datatype GasView = GasView(stmt: Stmt -> nat, block: seq<Stmt> -> nat, fn: FnDecl -> nat, fns: seq<FnDecl> -> nat)

  ghost predicate GasFaithful(v: GasView)
  {
    (forall s: Stmt {:trigger OpenS(s)} :: OpenS(s) ==> v.stmt(s) == StmtGas(s))
    && (forall ss: seq<Stmt> {:trigger OpenB(ss)} :: OpenB(ss) ==> v.block(ss) == StmtsGas(ss))
    && (forall fns: seq<FnDecl> {:trigger OpenF(fns)} :: OpenF(fns) ==> v.fns(fns) == FnsGas(fns))
    && (forall fn: FnDecl {:trigger OpenFn(fn)} :: OpenFn(fn) ==> v.fn(fn) == FnGas(fn))
  }

  ghost predicate OpenFn(fn: FnDecl) { true }

  ghost function TheGasView(): (v: GasView)
    ensures GasFaithful(v)
  {
    GasView((s: Stmt) => StmtGas(s), (ss: seq<Stmt>) => StmtsGas(ss), (fn: FnDecl) => FnGas(fn),
            (fns: seq<FnDecl>) => FnsGas(fns))
  }

  lemma {:induction false} GasSimple<W>(x: Exec<W>, v: GasView, s: Stmt)
    requires ExprLayoutFaithful(x) == true && GasFaithful(v) == true
    ensures match s
            case Let(_, val) => v.stmt(s) == 103 + x.ev.gas(val)
            case IndexStore(_, key, val) => v.stmt(s) == 123 + x.ev.gas(key) + x.ev.gas(val)
            case Store(key, val) => v.stmt(s) == x.ev.gas(key) + x.ev.gas(val) + 100
            case Require(cond) => v.stmt(s) == x.ev.gas(cond) + 5
            case Return(val) => v.stmt(s) == x.ev.gas(val) + 1
            case Emit(args) => v.stmt(s) == ExprsGas(args) + 53 + 8 * |args|
            case Revert => v.stmt(s) == 1
            case Stop => v.stmt(s) == 1
            case _ => true
  {
    assert OpenS(s);
    match s
    case Let(_, val) => assert OpenE(val);
    case IndexStore(_, key, val) => assert OpenE(key) && OpenE(val);
    case Store(key, val) => assert OpenE(key) && OpenE(val);
    case Require(cond) => assert OpenE(cond);
    case Return(val) => assert OpenE(val);
    case _ =>
  }

  lemma {:induction false} GasIf<W>(x: Exec<W>, v: GasView, cond: Expr, thn: seq<Stmt>, els: seq<Stmt>)
    requires ExprLayoutFaithful(x) == true && GasFaithful(v) == true
    ensures v.stmt(If(cond, thn, els)) == x.ev.gas(cond) + 9 + v.block(thn) + v.block(els)
  {
    assert OpenS(If(cond, thn, els)) && OpenE(cond) && OpenB(thn) && OpenB(els);
  }

  lemma {:induction false} GasWhile<W>(x: Exec<W>, v: GasView, cond: Expr, body: seq<Stmt>)
    requires ExprLayoutFaithful(x) == true && GasFaithful(v) == true
    ensures v.stmt(While(cond, body)) == x.ev.gas(cond) + 9 + v.block(body)
  {
    assert OpenS(While(cond, body)) && OpenE(cond) && OpenB(body);
  }

  lemma {:induction false} GasBlock(v: GasView, ss: seq<Stmt>)
    requires GasFaithful(v) == true && ss != []
    ensures v.block(ss) == v.stmt(ss[0]) + v.block(ss[1..])
  {
    assert OpenS(ss[0]) && OpenB(ss) && OpenB(ss[1..]);
  }

  ghost predicate Ready<W>(x: Exec<W>, s: Scanner, v: GasView)
  {
    Same(x, s) && ExprLayoutFaithful(x) && EvalFaithful(x) && LayoutFaithful(x) && GasFaithful(v)
  }

  lemma {:induction false} ScanExprs<W>(x: Exec<W>, s: Scanner, p: int, es: seq<Expr>, sc: Scope, t: nat,
      last: Option<u64>) returns (last': Option<u64>)
    requires Same(x, s) == true && ExprLayoutFaithful(x) == true && EvalFaithful(x) == true
             && ExprsAt(x.img, p, es, sc) == true
    ensures Adds(s, p, t, last, p + ExprsSize(es), ExprsGas(es), last') == true
    decreases es, 1
  {
    last' := last;
    if es != [] {
      OpenList(x, p, es, sc, map[]);
      last' := ScanListed(x, s, p, es, es[0], es[1..], sc, t, last);
    }
  }

  /** The first of a list, then the rest. */
  lemma {:induction false} ScanListed<W>(x: Exec<W>, s: Scanner, p: int, es: seq<Expr>, e: Expr, rest: seq<Expr>,
      sc: Scope, t: nat, last: Option<u64>)
      returns (last': Option<u64>)
    requires Same(x, s) == true && ExprLayoutFaithful(x) == true && EvalFaithful(x) == true && es != []
             && rest == es[1..]
    requires x.ev.at(p, e, sc) && ExprsAt(x.img, p + x.ev.size(e), rest, sc) == true
    ensures Adds(s, p, t, last, p + x.ev.size(e) + ExprsSize(rest), x.ev.gas(e) + ExprsGas(rest), last') == true
    decreases es, 0
  {
    var l1 := ScanExpr(x, s, p, e, sc, t, last);
    last' := ScanExprs(x, s, p + x.ev.size(e), rest, sc, t + x.ev.gas(e), l1);
    InTurn(s, p, t, last, p + x.ev.size(e), x.ev.gas(e), l1, p + x.ev.size(e) + ExprsSize(rest), ExprsGas(rest), last');
  }

  lemma {:induction false} ThenJump<W>(x: Exec<W>, s: Scanner, p: int, t: nat, last: Option<u64>, q: int, g: nat,
      l1: Option<u64>, target: nat, op: byte)
    requires Same(x, s) == true && Adds(s, p, t, last, q, g, l1) && JumpAt(x.img, q, target, op)
             && (op == VM.JUMP || op == VM.JUMPI)
    ensures Adds(s, p, t, last, q + 10, g + 4, None)
  {
    ThenPush(x, s, p, t, last, q, g, l1, Wrap(target));
    ThenScan(x, s, p, t, last, q + 9, g + 3, Some(Wrap(target)), op);
  }

  lemma {:induction false} ScanTest<W>(x: Exec<W>, s: Scanner, p: int, cond: Expr, sc: Scope, target: nat, t: nat,
      last: Option<u64>)
    requires Same(x, s) == true && ExprLayoutFaithful(x) == true && EvalFaithful(x) == true
             && ViewTestAt(x, p, cond, sc, target)
    ensures Adds(s, p, t, last, p + x.ev.size(cond) + 11, x.ev.gas(cond) + 5, None) == true
  {
    var n, g := x.ev.size(cond), x.ev.gas(cond);
    var l1 := ScanExpr(x, s, p, cond, sc, t, last);
    ThenScan(x, s, p, t, last, p + n, g, l1, VM.ISZERO);
    ThenJump(x, s, p, t, last, p + n + 1, g + 1, None, target, VM.JUMPI);
  }

  lemma {:induction false} ScanEmit<W>(x: Exec<W>, s: Scanner, p: nat, args: seq<Expr>, sc: Scope, t: nat,
      last: Option<u64>)
    requires Same(x, s) == true && ExprLayoutFaithful(x) == true && EvalFaithful(x) == true
             && StmtAt(x.img, p, Emit(args), sc)
    ensures Adds(s, p, t, last, p + ExprsSize(args) + 10, ExprsGas(args) + 53 + 8 * |args|, None) == true
  {
    var n, g, k := ExprsSize(args), ExprsGas(args), Wrap(|args|);
    var l1 := ScanExprs(x, s, p, args, sc, t, last);
    ThenPush(x, s, p, t, last, p + n, g, l1, k);
    ThenScan(x, s, p, t, last, p + n + 9, g + 3, Some(k), VM.LOG);
    ShlStmts.ExprsSizeBound(args);
    assert Look(p + n + 9);
  }

  lemma {:induction false} ScanLet<W>(x: Exec<W>, s: Scanner, v: GasView, p: nat, name: Name, val: Expr, sc: Scope,
      t: nat, last: Option<u64>)
    requires Ready(x, s, v) == true && x.sv.at(p, Let(name, val), sc)
    ensures Adds(s, p, t, last, p + x.sv.size(Let(name, val)), v.stmt(Let(name, val)), None) == true
  {
    GasSimple(x, v, Let(name, val));
    PlaceLet(x, p, name, val, sc);
    var slot, n, g := TargetSlot(sc, name), x.ev.size(val), x.ev.gas(val);
    ScanPush(x, s, p, slot, t, last);
    var l1 := ScanExpr(x, s, p + 9, val, TargetScope(sc, name), t + 3, Some(slot));
    InTurn(s, p, t, last, p + 9, 3, Some(slot), p + 9 + n, g, l1);
    ThenScan(x, s, p, t, last, p + 9 + n, 3 + g, l1, VM.SSTORE);
  }

  lemma {:induction false} ScanRawStore<W>(x: Exec<W>, s: Scanner, v: GasView, p: nat, key: Expr, val: Expr, sc: Scope,
      t: nat, last: Option<u64>)
    requires Ready(x, s, v) == true && x.sv.at(p, Store(key, val), sc)
    ensures Adds(s, p, t, last, p + x.sv.size(Store(key, val)), v.stmt(Store(key, val)), None) == true
  {
    GasSimple(x, v, Store(key, val));
    PlaceStore(x, p, key, val, sc);
    var l1 := ScanTwo(x, s, p, key, val, sc, t, last, Binary(Plus, key, val));
    ThenScan(x, s, p, t, last, p + x.ev.size(key) + x.ev.size(val), x.ev.gas(key) + x.ev.gas(val), l1, VM.SSTORE);
  }

  lemma {:induction false} ScanIndexStore<W>(x: Exec<W>, s: Scanner, v: GasView, p: nat, name: Name, key: Expr,
      val: Expr, sc: Scope, t: nat, last: Option<u64>)
    requires Ready(x, s, v) == true && x.sv.at(p, IndexStore(name, key, val), sc)
    ensures Adds(s, p, t, last, p + x.sv.size(IndexStore(name, key, val)), v.stmt(IndexStore(name, key, val)),
                 None) == true
  {
    GasSimple(x, v, IndexStore(name, key, val));
    PlaceIndexStore(x, p, name, key, val, sc);
    var n, g, n', g' := x.ev.size(key), x.ev.gas(key), x.ev.size(val), x.ev.gas(val);
    ScanKeyed(x, s, p, MapSlot(sc, name), key, sc, t, last, Load(key));
    var l1 := ScanExpr(x, s, p + 10 + n, val, sc, t + 23 + g, None);
    InTurn(s, p, t, last, p + 10 + n, 23 + g, None, p + 10 + n + n', g', l1);
    ThenScan(x, s, p, t, last, p + 10 + n + n', 23 + g + g', l1, VM.SSTORE);
  }

  lemma {:induction false} ScanRequire<W>(x: Exec<W>, s: Scanner, v: GasView, p: nat, cond: Expr, sc: Scope, t: nat,
      last: Option<u64>)
    requires Ready(x, s, v) == true && x.sv.at(p, Require(cond), sc)
    ensures Adds(s, p, t, last, p + x.sv.size(Require(cond)), v.stmt(Require(cond)), None) == true
  {
    GasSimple(x, v, Require(cond));
    PlaceRequire(x, p, cond, sc);
    var n, g := x.ev.size(cond), x.ev.gas(cond);
    var l1 := ScanExpr(x, s, p, cond, sc, t, last);
    ThenJump(x, s, p, t, last, p + n, g, l1, p + n + 11, VM.JUMPI);
    ThenScan(x, s, p, t, last, p + n + 10, g + 4, None, VM.REVERT);
  }

  lemma {:induction false} ScanSimple<W>(x: Exec<W>, s: Scanner, v: GasView, p: nat, st: Stmt, sc: Scope, t: nat,
      last: Option<u64>)
    requires Ready(x, s, v) == true && x.sv.at(p, st, sc) && !st.If? && !st.While?
    ensures Adds(s, p, t, last, p + x.sv.size(st), v.stmt(st), None) == true
  {
    GasSimple(x, v, st);
    match st
    case Require(cond) => ScanRequire(x, s, v, p, cond, sc, t, last);
    case Return(val) =>
      PlaceReturn(x, p, val, sc);
      var l1 := ScanExpr(x, s, p, val, sc, t, last);
      ThenScan(x, s, p, t, last, p + x.ev.size(val), x.ev.gas(val), l1, VM.RETURN);
    case Emit(args) =>
      PlaceOther(x, p, st, sc);
      ScanEmit(x, s, p, args, sc, t, last);
    case Revert =>
      PlaceOther(x, p, st, sc);
      ScanOp(x, s, p, VM.REVERT, t, last);
    case Stop =>
      PlaceOther(x, p, st, sc);
      ScanOp(x, s, p, VM.STOP, t, last);
    case Let(name, val) => ScanLet(x, s, v, p, name, val, sc, t, last);
    case Store(key, val) => ScanRawStore(x, s, v, p, key, val, sc, t, last);
    case IndexStore(name, key, val) => ScanIndexStore(x, s, v, p, name, key, val, sc, t, last);
  }

  lemma {:induction false} ScanStmt<W>(x: Exec<W>, s: Scanner, v: GasView, p: nat, st: Stmt, sc: Scope, t: nat,
      last: Option<u64>) returns (last': Option<u64>)
    requires Ready(x, s, v) == true && x.sv.at(p, st, sc)
    ensures Adds(s, p, t, last, p + x.sv.size(st), v.stmt(st), last') == true
    decreases st, 1
  {
    last' := None;
    match st
    case If(cond, thn, els) => last' := ScanIf(x, s, v, p, cond, thn, els, sc, t, last);
    case While(cond, body) => ScanWhile(x, s, v, p, cond, body, sc, t, last);
    case _ => ScanSimple(x, s, v, p, st, sc, t, last);
  }

  lemma {:induction false} ScanIf<W>(x: Exec<W>, s: Scanner, v: GasView, p: nat, cond: Expr, thn: seq<Stmt>,
      els: seq<Stmt>, sc: Scope, t: nat, last: Option<u64>)
      returns (last': Option<u64>)
    requires Ready(x, s, v) == true && x.sv.at(p, If(cond, thn, els), sc)
    ensures Adds(s, p, t, last, p + x.sv.size(If(cond, thn, els)), v.stmt(If(cond, thn, els)), last') == true
    decreases If(cond, thn, els), 0, 1
  {
    PlaceIf(x, p, cond, thn, els, sc);
    GasIf(x, v, cond, thn, els);
    var n, g, tn, en := x.ev.size(cond), x.ev.gas(cond), x.bv.size(thn), x.bv.size(els);
    ScanTested(x, s, v, p, cond, thn, sc, p + n + 21 + tn, p + n + 21 + tn + en, t, last, If(cond, thn, els));
    last' := ScanStmts(x, s, v, p + n + 21 + tn, els, ScopeAfterAll(thn, sc), t + (g + 9 + v.block(thn)), None);
    InTurn(s, p, t, last, p + n + 21 + tn, g + 9 + v.block(thn), None, p + n + 21 + tn + en, v.block(els), last');
  }

  lemma {:induction false} ScanWhile<W>(x: Exec<W>, s: Scanner, v: GasView, p: nat, cond: Expr, body: seq<Stmt>,
      sc: Scope, t: nat, last: Option<u64>)
    requires Ready(x, s, v) == true && x.sv.at(p, While(cond, body), sc)
    ensures Adds(s, p, t, last, p + x.sv.size(While(cond, body)), v.stmt(While(cond, body)), None) == true
    decreases While(cond, body), 0, 1
  {
    PlaceWhile(x, p, cond, body, sc);
    GasWhile(x, v, cond, body);
    ScanTested(x, s, v, p, cond, body, sc, p + x.ev.size(cond) + 21 + x.bv.size(body), p, t, last, While(cond, body));
  }

  /** A test, a block, and a jump. */
  lemma {:induction false} ScanTested<W>(x: Exec<W>, s: Scanner, v: GasView, p: nat, cond: Expr, body: seq<Stmt>,
      sc: Scope, out: nat, next: nat, t: nat, last: Option<u64>, whole: Stmt)
    requires Ready(x, s, v) == true && ViewTestAt(x, p, cond, sc, out) && x.bv.at(p + x.ev.size(cond) + 11, body, sc)
    requires JumpAt(x.img, p + x.ev.size(cond) + 11 + x.bv.size(body), next, VM.JUMP)
    requires (whole.If? && whole.thn == body) || (whole.While? && whole.body == body)
    ensures Adds(s, p, t, last, p + x.ev.size(cond) + 21 + x.bv.size(body), x.ev.gas(cond) + 9 + v.block(body),
                 None) == true
    decreases whole, 0, 0
  {
    var n, g, bn := x.ev.size(cond), x.ev.gas(cond), x.bv.size(body);
    ScanTest(x, s, p, cond, sc, out, t, last);
    var l1 := ScanStmts(x, s, v, p + n + 11, body, sc, t + (g + 5), None);
    InTurn(s, p, t, last, p + n + 11, g + 5, None, p + n + 11 + bn, v.block(body), l1);
    ThenJump(x, s, p, t, last, p + n + 11 + bn, g + 5 + v.block(body), l1, next, VM.JUMP);
  }

  lemma {:induction false} ScanStmts<W>(x: Exec<W>, s: Scanner, v: GasView, p: nat, ss: seq<Stmt>, sc: Scope, t: nat,
      last: Option<u64>) returns (last': Option<u64>)
    requires Ready(x, s, v) == true && x.bv.at(p, ss, sc)
    ensures Adds(s, p, t, last, p + x.bv.size(ss), v.block(ss), last') == true
    decreases ss, 0
  {
    last' := last;
    if ss == [] {
      NoStmts(x, v);
    } else {
      PlaceBlock(x, p, ss, sc);
      GasBlock(v, ss);
      var n, g := x.sv.size(ss[0]), v.stmt(ss[0]);
      var l1 := ScanStmt(x, s, v, p, ss[0], sc, t, last);
      last' := ScanStmts(x, s, v, p + n, ss[1..], ScopeAfter(ss[0], sc), t + g, l1);
      InTurn(s, p, t, last, p + n, g, l1, p + n + x.bv.size(ss[1..]), v.block(ss[1..]), last');
    }
  }

  lemma {:induction false} NoStmts<W>(x: Exec<W>, v: GasView)
    requires LayoutFaithful(x) == true && GasFaithful(v) == true
    ensures x.bv.size([]) == 0 && v.block([]) == 0
  {
    ghost var none: seq<Stmt> := [];
    assert OpenB(none);
  }

  /* ----- Functions and programs ----- */

  lemma {:induction false} ScanParam<W>(x: Exec<W>, s: Scanner, p: nat, slot: u64, k: u64, t: nat)
    requires Same(x, s) == true && PushAt(x.img, p, slot) && PushAt(x.img, p + 9, k)
    requires OpAt(x.img, p + 18, VM.CDLOAD) && OpAt(x.img, p + 19, VM.SSTORE)
    ensures Adds(s, p, t, None, p + 20, 107, None) == true
  {
    ScanPush(x, s, p, slot, t, None);
    ThenPush(x, s, p, t, None, p + 9, 3, Some(slot), k);
    ThenScan(x, s, p, t, None, p + 18, 6, Some(k), VM.CDLOAD);
    ThenScan(x, s, p, t, None, p + 19, 7, None, VM.SSTORE);
  }

  lemma {:induction false} ScanParams<W>(x: Exec<W>, s: Scanner, p: nat, params: seq<Name>, i: nat, sc: Scope, t: nat)
    requires Same(x, s) == true && ParamsAt(x.img, p, params, i, sc) == true
    ensures Adds(s, p, t, None, p + 20 * |params|, 107 * |params|, None) == true
    decreases params
  {
    if params != [] {
      var sc1 := Bind(sc, params[0]);
      ScanParam(x, s, p, sc1.vars[params[0]], Wrap(i + 1), t);
      ScanParams(x, s, p + 20, params[1..], i + 1, sc1, t + 107);
      InTurn(s, p, t, None, p + 20, 107, None, p + 20 * |params|, 107 * |params[1..]|, None);
    }
  }

  lemma {:induction false} PartsOfFn<W>(x: Exec<W>, v: GasView, p: nat, fn: FnDecl, sc: Scope, n: nat, m: nat)
    requires FnAt(x.img, p, fn, sc) == true && LayoutFaithful(x) == true && GasFaithful(v) == true
    requires n == |fn.params| && m == FnSize(fn)
    ensures OpAt(x.img, p, VM.POP) && ParamsAt(x.img, p + 1, fn.params, 0, FreshLocals(sc)) == true
    ensures x.bv.at(p + 1 + 20 * n, fn.body, BindAll(FreshLocals(sc), fn.params)) == true
    ensures OpAt(x.img, p + m - 1, VM.STOP) && m == 2 + 20 * n + x.bv.size(fn.body)
            && v.fn(fn) == 2 + 107 * n + v.block(fn.body)
  {
    assert OpenB(fn.body) && OpenFn(fn);
  }

  lemma {:induction false} ScanFn<W>(x: Exec<W>, s: Scanner, v: GasView, p: nat, fn: FnDecl, sc: Scope, t: nat, m: nat)
    requires Ready(x, s, v) == true && FnAt(x.img, p, fn, sc) == true && m == FnSize(fn)
    ensures Adds(s, p, t, None, p + m, v.fn(fn), None) == true
  {
    PartsOfFn(x, v, p, fn, sc, |fn.params|, m);
    ScanParams(x, s, p + 1, fn.params, 0, FreshLocals(sc), t + 1);
    ScanFnParts(x, s, v, p, |fn.params|, fn.body, BindAll(FreshLocals(sc), fn.params), t, m, v.fn(fn));
  }

  lemma {:induction false} ScanFnParts<W>(x: Exec<W>, s: Scanner, v: GasView, p: nat, n: nat, body: seq<Stmt>,
      inner: Scope, t: nat, m: nat, g: nat)
    requires Ready(x, s, v) == true && OpAt(x.img, p, VM.POP) && OpAt(x.img, p + m - 1, VM.STOP)
    requires Adds(s, p + 1, t + 1, None, p + 1 + 20 * n, 107 * n, None) == true
    requires x.bv.at(p + 1 + 20 * n, body, inner) && m == 2 + 20 * n + x.bv.size(body)
             && g == 2 + 107 * n + v.block(body)
    ensures Adds(s, p, t, None, p + m, g, None) == true
  {
    ScanOp(x, s, p, VM.POP, t, None);
    InTurn(s, p, t, None, p + 1, 1, None, p + 1 + 20 * n, 107 * n, None);
    var l1 := ScanStmts(x, s, v, p + 1 + 20 * n, body, inner, t + (1 + 107 * n), None);
    InTurn(s, p, t, None, p + 1 + 20 * n, 1 + 107 * n, None, p + m - 1, v.block(body), l1);
    ThenScan(x, s, p, t, None, p + m - 1, g - 1, l1, VM.STOP);
  }

  lemma {:induction false} GasFns(v: GasView, fns: seq<FnDecl>)
    requires GasFaithful(v) == true && fns != []
    ensures v.fns(fns) == v.fn(fns[0]) + v.fns(fns[1..])
  {
    assert OpenF(fns) && OpenF(fns[1..]) && OpenFn(fns[0]);
  }

  lemma {:induction false} NoFns<W>(x: Exec<W>, v: GasView, sc: Scope, fv: FnView)
    requires GasFaithful(v) == true && FnFaithful(x, sc, fv) == true
    ensures v.fns([]) == 0 && fv.size([]) == 0
  {
    ghost var none: seq<FnDecl> := [];
    assert OpenF(none);
  }

  lemma {:induction false} ScanFns<W>(x: Exec<W>, s: Scanner, v: GasView, p: nat, fns: seq<FnDecl>, sc: Scope,
      fv: FnView, t: nat)
    requires Ready(x, s, v) == true && FnFaithful(x, sc, fv) == true && fv.at(p, fns)
    ensures Adds(s, p, t, None, p + fv.size(fns), v.fns(fns), None) == true
    decreases fns, 1
  {
    if fns == [] {
      NoFns(x, v, sc, fv);
    } else {
      OpenRoutes(x, sc, fv, fns, 0, p);
      GasFns(v, fns);
      ScanNextFn(x, s, v, p, fns, fns[0], fns[1..], FnSize(fns[0]), sc, fv, t);
    }
  }

  lemma {:induction false} ScanNextFn<W>(x: Exec<W>, s: Scanner, v: GasView, p: nat, fns: seq<FnDecl>, fn: FnDecl,
      rest: seq<FnDecl>, n: nat, sc: Scope, fv: FnView, t: nat)
    requires Ready(x, s, v) == true && FnFaithful(x, sc, fv) == true && fns != [] && rest == fns[1..]
    requires FnAt(x.img, p, fn, sc) == true && n == FnSize(fn) && fv.at(p + n, rest)
    ensures Adds(s, p, t, None, p + n + fv.size(rest), v.fn(fn) + v.fns(rest), None) == true
    decreases fns, 0
  {
    ScanFn(x, s, v, p, fn, sc, t, n);
    ScanFns(x, s, v, p + n, rest, sc, fv, t + v.fn(fn));
    InTurn(s, p, t, None, p + n, v.fn(fn), None, p + n + fv.size(rest), v.fns(rest), None);
  }

  lemma {:induction false} ScanRoute<W>(x: Exec<W>, s: Scanner, p: nat, sel: u64, target: nat, t: nat)
    requires Same(x, s) == true && OpAt(x.img, p, VM.DUP) && PushAt(x.img, p + 1, sel) && OpAt(x.img, p + 10, VM.EQ)
    requires JumpAt(x.img, p + 11, target, VM.JUMPI)
    ensures Adds(s, p, t, None, p + 21, 9, None) == true
  {
    ScanOp(x, s, p, VM.DUP, t, None);
    ThenPush(x, s, p, t, None, p + 1, 1, None, sel);
    ThenScan(x, s, p, t, None, p + 10, 4, Some(sel), VM.EQ);
    ThenJump(x, s, p, t, None, p + 11, 5, None, target, VM.JUMPI);
  }

  lemma {:induction false} ScanRoutes<W>(x: Exec<W>, s: Scanner, p: nat, fns: seq<FnDecl>, sc: Scope, fv: FnView,
      target: nat, t: nat)
    requires Same(x, s) == true && FnFaithful(x, sc, fv) == true && fv.routes(p, fns, target)
    ensures Adds(s, p, t, None, p + 21 * |fns|, 9 * |fns|, None) == true
    decreases fns
  {
    if fns != [] {
      OpenRoutes(x, sc, fv, fns, p, target);
      ScanRoute(x, s, p, x.f.digest(fns[0].name), target, t);
      ScanRoutes(x, s, p + 21, fns[1..], sc, fv, target + FnSize(fns[0]), t + 9);
      InTurn(s, p, t, None, p + 21, 9, None, p + 21 * |fns|, 9 * |fns[1..]|, None);
    }
  }

  /** The load of the selector, `n` comparisons, POP and REVERT. */
  lemma {:induction false} ScanRouter<W>(x: Exec<W>, s: Scanner, p: nat, n: nat, t: nat, last: Option<u64>)
    requires Same(x, s) == true && PushAt(x.img, p, 0) && OpAt(x.img, p + 9, VM.CDLOAD)
    requires Adds(s, p + 10, t + 4, None, p + 10 + 21 * n, 9 * n, None) == true
    requires OpAt(x.img, p + 10 + 21 * n, VM.POP) && OpAt(x.img, p + 11 + 21 * n, VM.REVERT)
    ensures Adds(s, p, t, last, p + 12 + 21 * n, 6 + 9 * n, None) == true
  {
    ScanPush(x, s, p, 0, t, last);
    ThenScan(x, s, p, t, last, p + 9, 3, Some(0), VM.CDLOAD);
    InTurn(s, p, t, last, p + 10, 4, None, p + 10 + 21 * n, 9 * n, None);
    ThenScan(x, s, p, t, last, p + 10 + 21 * n, 4 + 9 * n, None, VM.POP);
    ThenScan(x, s, p, t, last, p + 11 + 21 * n, 5 + 9 * n, None, VM.REVERT);
  }

  lemma {:induction false} ScanDispatch<W>(x: Exec<W>, s: Scanner, v: GasView, p: nat, fns: seq<FnDecl>, sc: Scope,
      fv: FnView, t: nat, last: Option<u64>, n: nat)
    requires Ready(x, s, v) == true && FnFaithful(x, sc, fv) == true && n == |fns|
    requires PushAt(x.img, p, 0) && OpAt(x.img, p + 9, VM.CDLOAD)
    requires fv.routes(p + 10, fns, p + 12 + 21 * n) && fv.at(p + 12 + 21 * n, fns)
    requires OpAt(x.img, p + 10 + 21 * n, VM.POP) && OpAt(x.img, p + 11 + 21 * n, VM.REVERT)
    ensures Adds(s, p, t, last, p + 12 + 21 * n + fv.size(fns), 6 + 9 * n + v.fns(fns), None) == true
  {
    ScanRoutes(x, s, p + 10, fns, sc, fv, p + 12 + 21 * n, t + 4);
    ScanRouter(x, s, p, n, t, last);
    ScanFns(x, s, v, p + 12 + 21 * n, fns, sc, fv, t + (6 + 9 * n));
    InTurn(s, p, t, last, p + 12 + 21 * n, 6 + 9 * n, None, p + 12 + 21 * n + fv.size(fns), v.fns(fns), None);
  }

  /** The program's layout, in terms of the executor. */
  ghost predicate ProgramIn<W>(x: Exec<W>, items: seq<Item>)
  {
    var flat, fns, sc, n := Statements(items), Functions(items), DeclareAll(EMPTY_SCOPE, items), |x.f.code|;
    StmtsAt(x.img, 0, flat, sc) && (fns == [] || DispatchAt(x.img, StmtsSize(flat), x.f.digest, fns, sc))
    && n == ProgramSize(items) && OpAt(x.img, n - 1, VM.STOP)
  }

  lemma {:induction false} FlatPart<W>(x: Exec<W>, v: GasView, items: seq<Item>, flat: seq<Stmt>, sc: Scope)
    requires ProgramIn(x, items) && LayoutFaithful(x) == true && GasFaithful(v) == true
    requires flat == Statements(items) && sc == DeclareAll(EMPTY_SCOPE, items)
    ensures x.bv.at(0, flat, sc) && OpAt(x.img, |x.f.code| - 1, VM.STOP)
    ensures Functions(items) == [] ==> |x.f.code| == x.bv.size(flat) + 1 && ProgramGas(items) == v.block(flat) + 1
  {
    assert OpenB(flat);
  }

  lemma {:induction false} FnPart<W>(x: Exec<W>, v: GasView, items: seq<Item>, n: nat, fns: seq<FnDecl>, sc: Scope,
      fv: FnView)
    requires ProgramIn(x, items) && LayoutFaithful(x) == true && GasFaithful(v) == true
    requires fns == Functions(items) != [] && sc == DeclareAll(EMPTY_SCOPE, items) && FnFaithful(x, sc, fv) == true
    requires n == x.bv.size(Statements(items))
    ensures DispatchAt(x.img, n, x.f.digest, fns, sc) == true
    ensures |x.f.code| == n + 12 + 21 * |fns| + fv.size(fns) + 1
    ensures ProgramGas(items) == v.block(Statements(items)) + 6 + 9 * |fns| + v.fns(fns) + 1
  {
    assert OpenB(Statements(items)) && OpenF(fns);
  }

  lemma {:induction false} FnPieces<W>(x: Exec<W>, items: seq<Item>, n: nat, fns: seq<FnDecl>, sc: Scope, fv: FnView,
      k: nat)
    requires DispatchAt(x.img, n, x.f.digest, fns, sc) == true && FnFaithful(x, sc, fv) == true && k == |fns|
    ensures PushAt(x.img, n, 0) && OpAt(x.img, n + 9, VM.CDLOAD)
    ensures fv.routes(n + 10, fns, n + 12 + 21 * k) && fv.at(n + 12 + 21 * k, fns)
    ensures OpAt(x.img, n + 10 + 21 * k, VM.POP) && OpAt(x.img, n + 11 + 21 * k, VM.REVERT)
  {
    OpenDispatch(x, n, fns, sc, fv, Memory(map[], []), 0);
  }

  /** Code that ends in STOP after `n` bytes that cost `g`. */
  lemma {:induction false} LastStop<W>(x: Exec<W>, s: Scanner, n: nat, g: nat, last: Option<u64>)
    requires Same(x, s) == true && Adds(s, 0, 0, None, n, g, last) == true && OpAt(x.img, n, VM.STOP)
             && |s.code| == n + 1
    ensures s.scan(0, 0, None) == g + 1
  {
    ThenScan(x, s, 0, 0, None, n, g, last, VM.STOP);
    assert OpenAt(n + 1);
  }

  lemma {:induction false} ScanFlat<W>(x: Exec<W>, s: Scanner, v: GasView, flat: seq<Stmt>, sc: Scope)
    requires Ready(x, s, v) == true && x.bv.at(0, flat, sc) && |s.code| == x.bv.size(flat) + 1
             && OpAt(x.img, |s.code| - 1, VM.STOP)
    ensures s.scan(0, 0, None) == v.block(flat) + 1
  {
    var last := ScanStmts(x, s, v, 0, flat, sc, 0, None);
    LastStop(x, s, x.bv.size(flat), v.block(flat), last);
  }

  lemma {:induction false} ScanWhole<W>(x: Exec<W>, s: Scanner, v: GasView, flat: seq<Stmt>, fns: seq<FnDecl>,
      sc: Scope, fv: FnView, n: nat, g: nat, k: nat)
    requires Ready(x, s, v) == true && FnFaithful(x, sc, fv) == true && x.bv.at(0, flat, sc) && n == x.bv.size(flat)
             && g == v.block(flat)
    requires k == |fns| && PushAt(x.img, n, 0) && OpAt(x.img, n + 9, VM.CDLOAD)
    requires fv.routes(n + 10, fns, n + 12 + 21 * k) && fv.at(n + 12 + 21 * k, fns)
    requires OpAt(x.img, n + 10 + 21 * k, VM.POP) && OpAt(x.img, n + 11 + 21 * k, VM.REVERT)
    requires |s.code| == n + 12 + 21 * k + fv.size(fns) + 1 && OpAt(x.img, |s.code| - 1, VM.STOP)
    ensures s.scan(0, 0, None) == g + 6 + 9 * k + v.fns(fns) + 1
  {
    var last := ScanStmts(x, s, v, 0, flat, sc, 0, None);
    ScanDispatch(x, s, v, n, fns, sc, fv, g, last, k);
    InTurn(s, 0, 0, None, n, g, last, n + 12 + 21 * k + fv.size(fns), 6 + 9 * k + v.fns(fns), None);
    LastStop(x, s, n + 12 + 21 * k + fv.size(fns), g + 6 + 9 * k + v.fns(fns), None);
  }

  /** A program's code in pieces, `g` being its gas. */
  ghost predicate Pieces<W>(x: Exec<W>, v: GasView, flat: seq<Stmt>, fns: seq<FnDecl>, sc: Scope, fv: FnView, n: nat,
      k: nat, g: nat)
  {
    x.bv.at(0, flat, sc) && n == x.bv.size(flat) && k == |fns| && OpAt(x.img, |x.f.code| - 1, VM.STOP)
    && (fns == [] ==> |x.f.code| == n + 1 && g == v.block(flat) + 1)
    && (fns != [] ==>
          PushAt(x.img, n, 0) && OpAt(x.img, n + 9, VM.CDLOAD) && fv.routes(n + 10, fns, n + 12 + 21 * k)
          && fv.at(n + 12 + 21 * k, fns) && OpAt(x.img, n + 10 + 21 * k, VM.POP)
             && OpAt(x.img, n + 11 + 21 * k, VM.REVERT)
          && |x.f.code| == n + 12 + 21 * k + fv.size(fns) + 1 && g == v.block(flat) + 6 + 9 * k + v.fns(fns) + 1)
  }

  lemma {:induction false} FnWhole<W>(x: Exec<W>, v: GasView, items: seq<Item>, flat: seq<Stmt>, fns: seq<FnDecl>,
      sc: Scope, fv: FnView, n: nat, k: nat)
    requires ProgramIn(x, items) == true && LayoutFaithful(x) == true && GasFaithful(v) == true
    requires flat == Statements(items) && fns == Functions(items) && fns != [] && sc == DeclareAll(EMPTY_SCOPE, items)
    requires FnFaithful(x, sc, fv) == true && n == x.bv.size(flat) && k == |fns|
    ensures PushAt(x.img, n, 0) == true && OpAt(x.img, n + 9, VM.CDLOAD) == true
            && fv.routes(n + 10, fns, n + 12 + 21 * k)
    ensures fv.at(n + 12 + 21 * k, fns) && OpAt(x.img, n + 10 + 21 * k, VM.POP) == true
            && OpAt(x.img, n + 11 + 21 * k, VM.REVERT) == true
    ensures |x.f.code| == n + 12 + 21 * k + fv.size(fns) + 1
            && ProgramGas(items) == v.block(flat) + 6 + 9 * k + v.fns(fns) + 1
  {
    FnPart(x, v, items, n, fns, sc, fv);
    FnPieces(x, items, n, fns, sc, fv, k);
  }

  lemma {:induction false} FlatPieces<W>(x: Exec<W>, v: GasView, items: seq<Item>, flat: seq<Stmt>, sc: Scope,
      fv: FnView, n: nat, g: nat)
    requires ProgramIn(x, items) == true && LayoutFaithful(x) == true && GasFaithful(v) == true
    requires flat == Statements(items) && Functions(items) == [] && sc == DeclareAll(EMPTY_SCOPE, items)
    requires n == x.bv.size(flat) && g == ProgramGas(items)
    ensures Pieces(x, v, flat, [], sc, fv, n, 0, g) == true
  {
    FlatPart(x, v, items, flat, sc);
  }

  lemma {:induction false} FnsPieces<W>(x: Exec<W>, v: GasView, items: seq<Item>, flat: seq<Stmt>, fns: seq<FnDecl>,
      sc: Scope, fv: FnView, n: nat, k: nat, g: nat)
    requires ProgramIn(x, items) == true && LayoutFaithful(x) == true && GasFaithful(v) == true
    requires flat == Statements(items) && fns == Functions(items) && fns != [] && sc == DeclareAll(EMPTY_SCOPE, items)
    requires FnFaithful(x, sc, fv) == true && n == x.bv.size(flat) && k == |fns| && g == ProgramGas(items)
    ensures Pieces(x, v, flat, fns, sc, fv, n, k, g) == true
  {
    FnWhole(x, v, items, flat, fns, sc, fv, n, k);
    FlatPart(x, v, items, flat, sc);
    WithFns(x, v, flat, fns, sc, fv, n, k, g);
  }

  lemma {:induction false} WithFns<W>(x: Exec<W>, v: GasView, flat: seq<Stmt>, fns: seq<FnDecl>, sc: Scope, fv: FnView,
      n: nat, k: nat, g: nat)
    requires x.bv.at(0, flat, sc) && n == x.bv.size(flat) && k == |fns| && fns != []
             && OpAt(x.img, |x.f.code| - 1, VM.STOP) == true
    requires PushAt(x.img, n, 0) == true && OpAt(x.img, n + 9, VM.CDLOAD) == true
             && fv.routes(n + 10, fns, n + 12 + 21 * k)
    requires fv.at(n + 12 + 21 * k, fns) && OpAt(x.img, n + 10 + 21 * k, VM.POP) == true
             && OpAt(x.img, n + 11 + 21 * k, VM.REVERT) == true
    requires |x.f.code| == n + 12 + 21 * k + fv.size(fns) + 1 && g == v.block(flat) + 6 + 9 * k + v.fns(fns) + 1
    ensures Pieces(x, v, flat, fns, sc, fv, n, k, g) == true
  {
  }

  lemma {:induction false} InPieces<W>(x: Exec<W>, v: GasView, items: seq<Item>, flat: seq<Stmt>, fns: seq<FnDecl>,
      sc: Scope, fv: FnView)
    requires LayoutFaithful(x) == true && GasFaithful(v) == true && ProgramIn(x, items) == true
    requires flat == Statements(items) && fns == Functions(items) && sc == DeclareAll(EMPTY_SCOPE, items)
             && FnFaithful(x, sc, fv) == true
    ensures Pieces(x, v, flat, fns, sc, fv, x.bv.size(flat), |fns|, ProgramGas(items)) == true
  {
    if fns == [] {
      FlatPieces(x, v, items, flat, sc, fv, x.bv.size(flat), ProgramGas(items));
    } else {
      FnsPieces(x, v, items, flat, fns, sc, fv, x.bv.size(flat), |fns|, ProgramGas(items));
    }
  }

  lemma {:induction false} ScanAll<W>(x: Exec<W>, s: Scanner, v: GasView, flat: seq<Stmt>, fns: seq<FnDecl>, sc: Scope,
      fv: FnView, n: nat, k: nat, g: nat)
    requires Ready(x, s, v) == true && FnFaithful(x, sc, fv) == true && Pieces(x, v, flat, fns, sc, fv, n, k, g) == true
    ensures s.scan(0, 0, None) == g
  {
    if fns == [] {
      ScanFlat(x, s, v, flat, sc);
    } else {
      ScanWhole(x, s, v, flat, fns, sc, fv, n, v.block(flat), k);
    }
  }

  lemma {:induction false} ProgramIsIn<W>(x: Exec<W>, items: seq<Item>)
    requires ProgramAt(x.f.code, x.f.digest, items) && x.img == ImageOf(x.f.code)
    ensures ProgramIn(x, items) == true
  {
  }

  /** The estimate of compiled code is the gas of executing each of its instructions once. */
  lemma {:induction false} EstimateOfProgram(code: seq<byte>, digest: seq<byte> -> u64, items: seq<Item>)
    requires ProgramAt(code, digest, items) && |code| < TWO63
    ensures Scan(code, 0, 0, None) == ProgramGas(items)
  {
    var f: VM.Frame<int> := VM.Frame(code, [], 0, VM.Context(0, 0, [], [], 0, 0, 0), digest, VM.NoHost);
    var x, s, v := ExecOf(f, 0), ScannerOf(code), TheGasView();
    ExecOfIsFaithful(f, 0);
    var sc := DeclareAll(EMPTY_SCOPE, items);
    FnViewIsFaithful(x, sc);
    var flat, fns, fv := Statements(items), Functions(items), FnViewOf(x, sc);
    ProgramIsIn(x, items);
    InPieces(x, v, items, flat, fns, sc, fv);
    ScanAll(x, s, v, flat, fns, sc, fv, x.bv.size(flat), |fns|, ProgramGas(items));
    assert OpenAt(0);
  }
}
