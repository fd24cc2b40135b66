/** Where compiled code can jump: onto instructions of its own, and only forward in programs without loops. */
module ShlJumps {
  import opened Words
  import opened Shl
  import opened ShlLayout
  import opened ShlView
  import opened ShlCorrect
  import opened ShlStmts
  import opened ShlProgram
  import opened CodeWalk
  import ShlGas
  import VM

  /* ----- Pieces, kept closed as in `Exec` ----- */

  datatype Walker = Walker(code: seq<byte>, forward: bool, piece: (int, int, set<int>) -> bool,
                           entry: (int, int, int) -> bool)

  ghost predicate OpenP(lo: int, hi: int) { true }

  ghost predicate WalksAt(k: Walker, lo: int, hi: int)
  {
    (forall exits: set<int> :: k.piece(lo, hi, exits) == Piece(k.code, k.forward, lo, hi, exits))
    && (0 <= lo <= hi ==> forall t: nat :: k.entry(lo, hi, t) == Entry(k.code, lo, hi, t))
  }

  ghost predicate Walks(k: Walker)
  {
    forall lo: int, hi: int {:trigger OpenP(lo, hi)} :: OpenP(lo, hi) ==> WalksAt(k, lo, hi)
  }

  ghost function WalkerOf(code: seq<byte>, forward: bool): (k: Walker)
    ensures k.code == code && k.forward == forward && Walks(k)
  {
    Walker(code, forward, (lo: int, hi: int, exits: set<int>) => Piece(code, forward, lo, hi, exits),
           (lo: int, hi: int, t: int) => 0 <= lo <= hi && t >= 0 && Entry(code, lo, hi, t))
  }

  ghost predicate Tied<W>(x: Exec<W>, k: Walker)
  {
    Walks(k) && RunFaithful(x) && x.f.code == k.code && |k.code| < TWO63
  }

  lemma {:induction false} Append(k: Walker, a: int, b: int, c: int, xs: set<int>, ys: set<int>)
    requires Walks(k) == true && k.piece(a, b, xs) && k.piece(b, c, ys)
    ensures k.piece(a, c, xs + ys)
  {
    assert OpenP(a, b) && OpenP(b, c) && OpenP(a, c);
    Join(k.code, k.forward, a, b, c, xs, ys);
  }

  /** Two pieces without exits. */
  lemma {:induction false} Both(k: Walker, a: int, b: int, c: int)
    requires Walks(k) == true && k.piece(a, b, {}) && k.piece(b, c, {})
    ensures k.piece(a, c, {})
  {
    var none: set<int> := {};
    Append(k, a, b, c, none, none);
    assert none + none == none;
  }

  /** A piece without exits, then one that has some. */
  lemma {:induction false} Before(k: Walker, a: int, b: int, c: int, exits: set<int>)
    requires Walks(k) == true && k.piece(a, b, {}) && k.piece(b, c, exits)
    ensures k.piece(a, c, exits)
  {
    Append(k, a, b, c, {}, exits);
    assert {} + exits == exits;
  }

  lemma {:induction false} After(k: Walker, a: int, b: int, c: int, exits: set<int>)
    requires Walks(k) == true && k.piece(a, b, exits) && k.piece(b, c, {})
    ensures k.piece(a, c, exits)
  {
    Append(k, a, b, c, exits, {});
    assert exits + {} == exits;
  }

  lemma {:induction false} Empty(k: Walker, p: int)
    requires Walks(k) == true && 0 <= p <= |k.code|
    ensures k.piece(p, p, {})
  {
    assert OpenP(p, p);
    Nothing(k.code, k.forward, p);
  }

  /** The seam of two pieces is an entry of both together, and so are the ends. */
  lemma {:induction false} SeamIsEntry(k: Walker, a: int, b: int, c: int, xs: set<int>, ys: set<int>)
    requires Walks(k) == true && k.piece(a, b, xs) && k.piece(b, c, ys)
    ensures k.entry(a, c, a) && k.entry(a, c, b) && k.entry(a, c, c)
  {
    assert OpenP(a, b) && OpenP(b, c) && OpenP(a, c);
    Join(k.code, k.forward, a, b, c, xs, ys);
    if a < c { StartIsPlain(k.code, k.forward, a, c, xs + ys); }
    if b < c { StartIsPlain(k.code, k.forward, b, c, ys); }
    assert Entry(k.code, b, b, b);
  }

  lemma {:induction false} Closes(k: Walker, lo: int, hi: int, exits: set<int>)
    requires Walks(k) == true && k.piece(lo, hi, exits) && forall t :: t in exits ==> t >= 0 && k.entry(lo, hi, t)
    ensures k.piece(lo, hi, {})
  {
    assert OpenP(lo, hi);
    Close(k.code, k.forward, lo, hi, exits);
  }

  /* ----- Instructions ----- */

  predicate Plain(op: byte)
  {
    op != VM.PUSH && op != VM.JUMP && op != VM.JUMPI && op != VM.LOG && !Foreign(op)
  }

  lemma {:induction false} WalkOp<W>(x: Exec<W>, k: Walker, p: int, op: byte)
    requires Tied(x, k) == true && OpAt(x.img, p, op) && Plain(op)
    ensures k.piece(p, p + 1, {})
  {
    assert Look(p) && OpenP(p, p + 1);
    PlainPiece(k.code, k.forward, p);
  }

  lemma {:induction false} WalkPush<W>(x: Exec<W>, k: Walker, p: int, v: u64)
    requires Tied(x, k) == true && PushAt(x.img, p, v)
    ensures k.piece(p, p + 9, {})
  {
    assert Look(p) && Look(p + 1) && OpenP(p, p + 9);
    PushPiece(k.code, k.forward, p);
  }

  lemma {:induction false} WalkJump<W>(x: Exec<W>, k: Walker, p: int, target: nat, op: byte)
    requires Tied(x, k) == true && JumpAt(x.img, p, target, op) && (op == VM.JUMP || op == VM.JUMPI)
             && target <= |k.code|
    requires k.forward ==> p + 9 < target
    ensures k.piece(p, p + 10, {target})
  {
    assert Look(p) && Look(p + 1) && Look(p + 9) && OpenP(p, p + 10);
    CarriedPiece(k.code, k.forward, p, {target});
  }

  lemma {:induction false} WalkLog<W>(x: Exec<W>, k: Walker, p: int, v: u64)
    requires Tied(x, k) == true && PushAt(x.img, p, v) && OpAt(x.img, p + 9, VM.LOG)
    ensures k.piece(p, p + 10, {})
  {
    assert Look(p) && Look(p + 1) && Look(p + 9) && OpenP(p, p + 10);
    CarriedPiece(k.code, k.forward, p, {});
  }

  lemma {:induction false} ThenOp<W>(x: Exec<W>, k: Walker, p: int, q: int, op: byte)
    requires Tied(x, k) == true && k.piece(p, q, {}) && OpAt(x.img, q, op) && Plain(op)
    ensures k.piece(p, q + 1, {})
  {
    WalkOp(x, k, q, op);
    Both(k, p, q, q + 1);
  }

  lemma {:induction false} ThenPush<W>(x: Exec<W>, k: Walker, p: int, q: int, v: u64)
    requires Tied(x, k) == true && k.piece(p, q, {}) && PushAt(x.img, q, v)
    ensures k.piece(p, q + 9, {})
  {
    WalkPush(x, k, q, v);
    Both(k, p, q, q + 9);
  }

  /* ----- Expressions ----- */

  lemma {:induction false} WalkOperator<W>(x: Exec<W>, k: Walker, p: int, q: int, op: BinOp)
    requires Tied(x, k) == true && k.piece(p, q, {}) && OperatorAt(x.img, q, op)
    ensures k.piece(p, q + |OpCode(op)|, {})
  {
    var c := OpCode(op);
    ThenOp(x, k, p, q, c[0]);
    if |c| == 2 { ThenOp(x, k, p, q + 1, c[1]); }
  }

  lemma {:induction false} WalkLeaf<W>(x: Exec<W>, k: Walker, p: int, e: Expr, sc: Scope)
    requires Tied(x, k) == true && ExprAt(x.img, p, e, sc)
    requires e.Num? || e.Var? || e.Caller? || e.CallValue? || e.Balance? || e.SelfId?
    ensures k.piece(p, p + ExprSize(e), {})
  {
    match e
    case Num(v) => WalkPush(x, k, p, v);
    case Var(name) =>
      WalkPush(x, k, p, ReadSlot(sc, name));
      ThenOp(x, k, p, p + 9, VM.SLOAD);
    case Caller => WalkOp(x, k, p, VM.CALLER);
    case CallValue => WalkOp(x, k, p, VM.VALUE);
    case Balance => WalkOp(x, k, p, VM.BAL);
    case SelfId => WalkOp(x, k, p, VM.SELF);
  }

  ghost predicate ExprReady<W>(x: Exec<W>, k: Walker)
  {
    Tied(x, k) && ExprLayoutFaithful(x) && EvalFaithful(x)
  }

  lemma {:induction false} WalkExpr<W>(x: Exec<W>, k: Walker, p: int, e: Expr, sc: Scope)
    requires ExprReady(x, k) == true && x.ev.at(p, e, sc)
    ensures k.piece(p, p + x.ev.size(e), {})
    decreases e, 1
  {
    match e
    case Index(name, key) => WalkIndex(x, k, p, name, key, sc);
    case Load(key) =>
      PlaceLoad(x, p, key, sc);
      WalkExpr(x, k, p, key, sc);
      ThenOp(x, k, p, p + x.ev.size(key), VM.SLOAD);
    case Arg(i) =>
      PlaceArg(x, p, i, sc);
      WalkExpr(x, k, p, i, sc);
      ThenOp(x, k, p, p + x.ev.size(i), VM.CDLOAD);
    case Not(y) =>
      PlaceNot(x, p, y, sc);
      WalkExpr(x, k, p, y, sc);
      ThenOp(x, k, p, p + x.ev.size(y), VM.ISZERO);
    case Binary(op, l, r) => WalkBinary(x, k, p, op, l, r, sc);
    case _ =>
      OpenLeaf(x, p, e, sc, map[]);
      WalkLeaf(x, k, p, e, sc);
  }

  lemma {:induction false} WalkIndex<W>(x: Exec<W>, k: Walker, p: int, name: Name, key: Expr, sc: Scope)
    requires ExprReady(x, k) == true && x.ev.at(p, Index(name, key), sc)
    ensures k.piece(p, p + x.ev.size(Index(name, key)), {})
    decreases Index(name, key), 0
  {
    PlaceIndex(x, p, name, key, sc);
    var n := x.ev.size(key);
    WalkPush(x, k, p, MapSlot(sc, name));
    WalkExpr(x, k, p + 9, key, sc);
    Both(k, p, p + 9, p + 9 + n);
    ThenOp(x, k, p, p + 9 + n, VM.MIX);
    ThenOp(x, k, p, p + 10 + n, VM.SLOAD);
  }

  lemma {:induction false} WalkBinary<W>(x: Exec<W>, k: Walker, p: int, op: BinOp, l: Expr, r: Expr, sc: Scope)
    requires ExprReady(x, k) == true && x.ev.at(p, Binary(op, l, r), sc)
    ensures k.piece(p, p + x.ev.size(Binary(op, l, r)), {})
    decreases Binary(op, l, r), 0
  {
    PlaceBinary(x, p, op, l, r, sc);
    var a := p + x.ev.size(l);
    var b := a + x.ev.size(r);
    WalkExpr(x, k, p, l, sc);
    WalkExpr(x, k, a, r, sc);
    Both(k, p, a, b);
    WalkOperator(x, k, p, b, op);
  }

  lemma {:induction false} ThenExpr<W>(x: Exec<W>, k: Walker, p: int, q: int, e: Expr, sc: Scope)
    requires ExprReady(x, k) == true && k.piece(p, q, {}) && x.ev.at(q, e, sc)
    ensures k.piece(p, q + x.ev.size(e), {})
  {
    WalkExpr(x, k, q, e, sc);
    Both(k, p, q, q + x.ev.size(e));
  }

  lemma {:induction false} WalkExprs<W>(x: Exec<W>, k: Walker, p: int, es: seq<Expr>, sc: Scope)
    requires ExprReady(x, k) == true && ExprsAt(x.img, p, es, sc) == true && 0 <= p <= |k.code|
    ensures k.piece(p, p + ExprsSize(es), {})
    decreases es
  {
    if es == [] {
      Empty(k, p);
    } else {
      OpenList(x, p, es, sc, map[]);
      WalkExpr(x, k, p, es[0], sc);
      InCode(k, p, p + x.ev.size(es[0]));
      WalkExprs(x, k, p + x.ev.size(es[0]), es[1..], sc);
      Both(k, p, p + x.ev.size(es[0]), p + x.ev.size(es[0]) + ExprsSize(es[1..]));
    }
  }

  lemma {:induction false} InCode(k: Walker, lo: int, hi: int)
    requires Walks(k) == true && k.piece(lo, hi, {})
    ensures 0 <= lo <= hi <= |k.code|
  {
    assert OpenP(lo, hi);
  }

  /* ----- Statements ----- */

  ghost predicate StmtReady<W>(x: Exec<W>, k: Walker)
  {
    ExprReady(x, k) && LayoutFaithful(x) && MeterFaithful(x)
  }

  lemma {:induction false} WalkStore<W>(x: Exec<W>, k: Walker, p: nat, s: Stmt, sc: Scope)
    requires StmtReady(x, k) == true && x.sv.at(p, s, sc) && (s.Let? || s.Store? || s.IndexStore?)
    ensures k.piece(p, p + x.sv.size(s), {})
  {
    match s
    case Let(name, val) =>
      PlaceLet(x, p, name, val, sc);
      WalkPush(x, k, p, TargetSlot(sc, name));
      ThenExpr(x, k, p, p + 9, val, TargetScope(sc, name));
      ThenOp(x, k, p, p + 9 + x.ev.size(val), VM.SSTORE);
    case Store(key, val) =>
      PlaceStore(x, p, key, val, sc);
      WalkExpr(x, k, p, key, sc);
      ThenExpr(x, k, p, p + x.ev.size(key), val, sc);
      ThenOp(x, k, p, p + x.ev.size(key) + x.ev.size(val), VM.SSTORE);
    case IndexStore(name, key, val) =>
      PlaceIndexStore(x, p, name, key, val, sc);
      WalkPush(x, k, p, MapSlot(sc, name));
      ThenExpr(x, k, p, p + 9, key, sc);
      ThenOp(x, k, p, p + 9 + x.ev.size(key), VM.MIX);
      ThenExpr(x, k, p, p + 10 + x.ev.size(key), val, sc);
      ThenOp(x, k, p, p + 10 + x.ev.size(key) + x.ev.size(val), VM.SSTORE);
  }

  lemma {:induction false} WalkRequire<W>(x: Exec<W>, k: Walker, p: nat, cond: Expr, sc: Scope)
    requires StmtReady(x, k) == true && x.sv.at(p, Require(cond), sc)
    ensures k.piece(p, p + x.sv.size(Require(cond)), {})
  {
    PlaceRequire(x, p, cond, sc);
    var a := p + x.ev.size(cond);
    WalkExpr(x, k, p, cond, sc);
    WalkOp(x, k, a + 10, VM.REVERT);
    InCode(k, a + 10, a + 11);
    WalkJump(x, k, a, a + 11, VM.JUMPI);
    Before(k, p, a, a + 10, {a + 11});
    After(k, p, a + 10, a + 11, {a + 11});
    SeamIsEntry(k, p, a + 10, a + 11, {a + 11}, {});
    Closes(k, p, a + 11, {a + 11});
  }

  lemma {:induction false} WalkEmit<W>(x: Exec<W>, k: Walker, p: nat, args: seq<Expr>, sc: Scope)
    requires StmtReady(x, k) == true && StmtAt(x.img, p, Emit(args), sc) && p <= |k.code|
    ensures k.piece(p, p + ExprsSize(args) + 10, {})
  {
    WalkExprs(x, k, p, args, sc);
    WalkLog(x, k, p + ExprsSize(args), Wrap(|args|));
    Both(k, p, p + ExprsSize(args), p + ExprsSize(args) + 10);
  }

  lemma {:induction false} WalkSimple<W>(x: Exec<W>, k: Walker, p: nat, s: Stmt, sc: Scope)
    requires StmtReady(x, k) == true && x.sv.at(p, s, sc) && !s.If? && !s.While? && p <= |k.code|
    ensures k.piece(p, p + x.sv.size(s), {})
  {
    match s
    case Require(cond) => WalkRequire(x, k, p, cond, sc);
    case Return(val) =>
      PlaceReturn(x, p, val, sc);
      WalkExpr(x, k, p, val, sc);
      ThenOp(x, k, p, p + x.ev.size(val), VM.RETURN);
    case Emit(args) =>
      PlaceOther(x, p, s, sc);
      WalkEmit(x, k, p, args, sc);
    case Revert =>
      PlaceOther(x, p, s, sc);
      WalkOp(x, k, p, VM.REVERT);
    case Stop =>
      PlaceOther(x, p, s, sc);
      WalkOp(x, k, p, VM.STOP);
    case _ => WalkStore(x, k, p, s, sc);
  }

  lemma {:induction false} WalkTest<W>(x: Exec<W>, k: Walker, p: int, cond: Expr, sc: Scope, target: nat)
    requires ExprReady(x, k) == true && ViewTestAt(x, p, cond, sc, target) && target <= |k.code|
    requires k.forward ==> p + x.ev.size(cond) + 10 < target
    ensures k.piece(p, p + x.ev.size(cond) + 11, {target})
  {
    var a := p + x.ev.size(cond);
    WalkExpr(x, k, p, cond, sc);
    ThenOp(x, k, p, a, VM.ISZERO);
    WalkJump(x, k, a + 1, target, VM.JUMPI);
    Before(k, p, a + 1, a + 11, {target});
  }

  /** `test else; then; jump end; else`: four pieces in a row. */
  lemma {:induction false} IfPiece(k: Walker, p: int, a: int, b: int, c: int, d: int)
    requires Walks(k) == true && k.piece(p, a, {c}) && k.piece(a, b, {}) && k.piece(b, c, {d}) && k.piece(c, d, {})
    ensures k.piece(p, d, {})
  {
    After(k, p, a, b, {c});
    Append(k, p, b, c, {c}, {d});
    SeamIsEntry(k, p, c, d, {c} + {d}, {});
    Append(k, p, c, d, {c} + {d}, {});
    InCode2(k, p, c, d);
    Closes(k, p, d, {c} + {d} + {});
  }

  lemma {:induction false} InCode2(k: Walker, p: int, c: int, d: int)
    requires Walks(k) == true && k.entry(p, d, c) && k.piece(c, d, {})
    ensures 0 <= c <= d
  {
    assert OpenP(c, d);
  }

  /** `test end; body; jump start`. */
  lemma {:induction false} WhilePiece(k: Walker, p: int, a: int, b: int, c: int)
    requires Walks(k) == true && k.piece(p, a, {c}) && k.piece(a, b, {}) && k.piece(b, c, {p})
    ensures k.piece(p, c, {})
  {
    After(k, p, a, b, {c});
    SeamIsEntry(k, p, b, c, {c}, {p});
    Append(k, p, b, c, {c}, {p});
    assert OpenP(p, b) && OpenP(b, c);
    Closes(k, p, c, {c} + {p});
  }

  lemma {:induction false} FitsInside<W>(x: Exec<W>, k: Walker, p: nat, cond: Expr, thn: seq<Stmt>, els: seq<Stmt>,
      sc: Scope)
    requires StmtReady(x, k) == true && x.sv.at(p, If(cond, thn, els), sc)
    ensures x.sv.meter(If(cond, thn, els)).Unmetered? <==> x.bv.meter(thn).Unmetered? || x.bv.meter(els).Unmetered?
  {
    assert OpenS(If(cond, thn, els)) && OpenB(thn) && OpenB(els);
    if AllStraight(thn) { StraightIsLoopFree(thn); }
    if AllStraight(els) { StraightIsLoopFree(els); }
  }

  lemma {:induction false} WalkStmt<W>(x: Exec<W>, k: Walker, p: nat, s: Stmt, sc: Scope)
    requires StmtReady(x, k) == true && x.sv.at(p, s, sc) && p + x.sv.size(s) <= |k.code|
    requires k.forward ==> !x.sv.meter(s).Unmetered?
    ensures k.piece(p, p + x.sv.size(s), {})
    decreases s, 1
  {
    match s
    case If(cond, thn, els) => WalkIf(x, k, p, cond, thn, els, sc);
    case While(cond, body) => WalkWhile(x, k, p, cond, body, sc);
    case _ => WalkSimple(x, k, p, s, sc);
  }

  lemma {:induction false} WalkIf<W>(x: Exec<W>, k: Walker, p: nat, cond: Expr, thn: seq<Stmt>, els: seq<Stmt>,
      sc: Scope)
    requires StmtReady(x, k) == true && x.sv.at(p, If(cond, thn, els), sc)
             && p + x.sv.size(If(cond, thn, els)) <= |k.code|
    requires k.forward ==> !x.sv.meter(If(cond, thn, els)).Unmetered?
    ensures k.piece(p, p + x.sv.size(If(cond, thn, els)), {})
    decreases If(cond, thn, els), 0
  {
    PlaceIf(x, p, cond, thn, els, sc);
    FitsInside(x, k, p, cond, thn, els, sc);
    var a := p + x.ev.size(cond) + 11;
    var b := a + x.bv.size(thn);
    var d := b + 10 + x.bv.size(els);
    WalkTest(x, k, p, cond, sc, b + 10);
    WalkStmts(x, k, a, thn, sc);
    WalkJump(x, k, b, d, VM.JUMP);
    WalkStmts(x, k, b + 10, els, ScopeAfterAll(thn, sc));
    IfPiece(k, p, a, b, b + 10, d);
  }

  lemma {:induction false} WalkWhile<W>(x: Exec<W>, k: Walker, p: nat, cond: Expr, body: seq<Stmt>, sc: Scope)
    requires StmtReady(x, k) == true && x.sv.at(p, While(cond, body), sc)
             && p + x.sv.size(While(cond, body)) <= |k.code|
    requires k.forward ==> !x.sv.meter(While(cond, body)).Unmetered?
    ensures k.piece(p, p + x.sv.size(While(cond, body)), {})
    decreases While(cond, body), 0
  {
    PlaceWhile(x, p, cond, body, sc);
    MeterSimple(x, While(cond, body));
    var a := p + x.ev.size(cond) + 11;
    var b := a + x.bv.size(body);
    WalkTest(x, k, p, cond, sc, b + 10);
    WalkStmts(x, k, a, body, sc);
    WalkJump(x, k, b, p, VM.JUMP);
    WhilePiece(k, p, a, b, b + 10);
  }

  lemma {:induction false} WalkStmts<W>(x: Exec<W>, k: Walker, p: nat, ss: seq<Stmt>, sc: Scope)
    requires StmtReady(x, k) == true && x.bv.at(p, ss, sc) && p + x.bv.size(ss) <= |k.code|
    requires k.forward ==> !x.bv.meter(ss).Unmetered?
    ensures k.piece(p, p + x.bv.size(ss), {})
    decreases ss, 0
  {
    if ss == [] {
      NoStmts(x);
      Empty(k, p);
    } else {
      PlaceBlock(x, p, ss, sc);
      MeterBlock(x, ss);
      WalkStmt(x, k, p, ss[0], sc);
      WalkStmts(x, k, p + x.sv.size(ss[0]), ss[1..], ScopeAfter(ss[0], sc));
      Both(k, p, p + x.sv.size(ss[0]), p + x.bv.size(ss));
    }
  }

  lemma {:induction false} NoStmts<W>(x: Exec<W>)
    requires LayoutFaithful(x) == true
    ensures x.bv.size([]) == 0
  {
    ghost var none: seq<Stmt> := [];
    assert OpenB(none);
  }

  /* ----- Functions and programs ----- */

  lemma {:induction false} WalkParams<W>(x: Exec<W>, k: Walker, p: nat, params: seq<Name>, i: nat, sc: Scope)
    requires Tied(x, k) == true && ParamsAt(x.img, p, params, i, sc) == true && p <= |k.code|
    ensures k.piece(p, p + 20 * |params|, {})
    decreases params
  {
    if params == [] {
      Empty(k, p);
    } else {
      var sc1 := Bind(sc, params[0]);
      WalkParam(x, k, p, sc1.vars[params[0]], Wrap(i + 1));
      InCode(k, p, p + 20);
      WalkParams(x, k, p + 20, params[1..], i + 1, sc1);
      Both(k, p, p + 20, p + 20 * |params|);
    }
  }

  lemma {:induction false} WalkParam<W>(x: Exec<W>, k: Walker, p: nat, slot: u64, i: u64)
    requires Tied(x, k) == true && PushAt(x.img, p, slot) && PushAt(x.img, p + 9, i)
    requires OpAt(x.img, p + 18, VM.CDLOAD) && OpAt(x.img, p + 19, VM.SSTORE)
    ensures k.piece(p, p + 20, {})
  {
    WalkPush(x, k, p, slot);
    ThenPush(x, k, p, p + 9, i);
    ThenOp(x, k, p, p + 18, VM.CDLOAD);
    ThenOp(x, k, p, p + 19, VM.SSTORE);
  }

  /** The parts of a function of `m` bytes. */
  lemma {:induction false} PartsOfFn<W>(x: Exec<W>, p: nat, fn: FnDecl, sc: Scope, n: nat, m: nat)
    requires FnAt(x.img, p, fn, sc) == true && LayoutFaithful(x) == true && MeterFaithful(x) == true && n == |fn.params|
             && m == FnSize(fn)
    ensures OpAt(x.img, p, VM.POP) && ParamsAt(x.img, p + 1, fn.params, 0, FreshLocals(sc)) == true
    ensures x.bv.at(p + 1 + 20 * n, fn.body, BindAll(FreshLocals(sc), fn.params)) == true
    ensures OpAt(x.img, p + m - 1, VM.STOP) && m == 2 + 20 * n + x.bv.size(fn.body)
    ensures !FnMeter(fn).Unmetered? ==> !x.bv.meter(fn.body).Unmetered?
  {
    assert OpenB(fn.body);
  }

  lemma {:induction false} WalkFn<W>(x: Exec<W>, k: Walker, p: nat, fn: FnDecl, sc: Scope, m: nat)
    requires StmtReady(x, k) == true && FnAt(x.img, p, fn, sc) == true && m == FnSize(fn) && p + m <= |k.code|
    requires k.forward ==> !FnMeter(fn).Unmetered?
    ensures k.piece(p, p + m, {})
  {
    var n := |fn.params|;
    PartsOfFn(x, p, fn, sc, n, m);
    WalkOp(x, k, p, VM.POP);
    WalkParams(x, k, p + 1, fn.params, 0, FreshLocals(sc));
    Both(k, p, p + 1, p + 1 + 20 * n);
    WalkStmts(x, k, p + 1 + 20 * n, fn.body, BindAll(FreshLocals(sc), fn.params));
    Both(k, p, p + 1 + 20 * n, p + m - 1);
    ThenOp(x, k, p, p + m - 1, VM.STOP);
  }

  /** Where the functions start. */
  ghost function Starts(fns: seq<FnDecl>, p: nat): (r: set<int>)
    decreases fns
  {
    if fns == [] then {} else {p} + Starts(fns[1..], p + FnSize(fns[0]))
  }

  lemma {:induction false} EntryIn(k: Walker, a: int, b: int, c: int, xs: set<int>, ys: set<int>, t: int)
    requires Walks(k) == true && k.piece(a, b, xs) && k.piece(b, c, ys) && t >= 0 && k.entry(b, c, t)
    ensures k.entry(a, c, t)
  {
    assert OpenP(a, b) && OpenP(b, c) && OpenP(a, c);
    EntryLifts(k.code, a, b, c, t);
  }

  ghost predicate AllEntries(k: Walker, lo: int, hi: int, ts: set<int>)
  {
    forall t :: t in ts ==> t >= 0 && k.entry(lo, hi, t)
  }

  lemma {:induction false} WalkFns<W>(x: Exec<W>, k: Walker, p: nat, fns: seq<FnDecl>, sc: Scope, v: FnView)
    requires StmtReady(x, k) == true && FnFaithful(x, sc, v) == true && v.at(p, fns) && p + v.size(fns) <= |k.code|
    requires k.forward ==> !v.meter(fns).Unmetered?
    ensures k.piece(p, p + v.size(fns), {}) && AllEntries(k, p, p + v.size(fns), Starts(fns, p))
    decreases fns
  {
    if fns == [] {
      NoFns(x, sc, v);
      Empty(k, p);
    } else {
      OpenRoutes(x, sc, v, fns, 0, p);
      ViewMeters(x, sc, v, fns);
      var m := FnSize(fns[0]);
      WalkFn(x, k, p, fns[0], sc, m);
      WalkFns(x, k, p + m, fns[1..], sc, v);
      Both(k, p, p + m, p + v.size(fns));
      StartsIn(k, p, p + m, p + v.size(fns), Starts(fns[1..], p + m));
    }
  }

  lemma {:induction false} StartsIn(k: Walker, a: int, b: int, c: int, ts: set<int>)
    requires Walks(k) == true && k.piece(a, b, {}) && k.piece(b, c, {}) && AllEntries(k, b, c, ts)
    ensures AllEntries(k, a, c, {a} + ts)
  {
    SeamIsEntry(k, a, b, c, {}, {});
    assert OpenP(a, b);
    forall t | t in ts ensures k.entry(a, c, t) { EntryIn(k, a, b, c, {}, {}, t); }
  }

  lemma {:induction false} NoFns<W>(x: Exec<W>, sc: Scope, v: FnView)
    requires FnFaithful(x, sc, v) == true
    ensures v.size([]) == 0
  {
    ghost var none: seq<FnDecl> := [];
    assert OpenF(none);
  }

  lemma {:induction false} WalkRoute<W>(x: Exec<W>, k: Walker, p: nat, sel: u64, target: nat)
    requires Tied(x, k) == true && OpAt(x.img, p, VM.DUP) && PushAt(x.img, p + 1, sel) && OpAt(x.img, p + 10, VM.EQ)
    requires JumpAt(x.img, p + 11, target, VM.JUMPI) && p + 21 <= target <= |k.code|
    ensures k.piece(p, p + 21, {target})
  {
    WalkOp(x, k, p, VM.DUP);
    ThenPush(x, k, p, p + 1, sel);
    ThenOp(x, k, p, p + 10, VM.EQ);
    WalkJump(x, k, p + 11, target, VM.JUMPI);
    Before(k, p, p + 11, p + 21, {target});
  }

  lemma {:induction false} WalkRoutes<W>(x: Exec<W>, k: Walker, p: nat, fns: seq<FnDecl>, sc: Scope, v: FnView,
      target: nat)
    requires Tied(x, k) == true && FnFaithful(x, sc, v) == true && v.routes(p, fns, target)
    requires p + 21 * |fns| <= target && target + v.size(fns) <= |k.code|
    ensures k.piece(p, p + 21 * |fns|, Starts(fns, target))
    decreases fns
  {
    if fns == [] {
      Empty(k, p);
    } else {
      OpenRoutes(x, sc, v, fns, p, target);
      WalkRoute(x, k, p, x.f.digest(fns[0].name), target);
      WalkRoutes(x, k, p + 21, fns[1..], sc, v, target + FnSize(fns[0]));
      Append(k, p, p + 21, p + 21 * |fns|, {target}, Starts(fns[1..], target + FnSize(fns[0])));
    }
  }

  /** The load of the selector, `n` comparisons, POP and REVERT. */
  lemma {:induction false} WalkRouter<W>(x: Exec<W>, k: Walker, p: nat, n: nat, exits: set<int>)
    requires Tied(x, k) == true && PushAt(x.img, p, 0) && OpAt(x.img, p + 9, VM.CDLOAD)
             && k.piece(p + 10, p + 10 + 21 * n, exits)
    requires OpAt(x.img, p + 10 + 21 * n, VM.POP) && OpAt(x.img, p + 11 + 21 * n, VM.REVERT)
    ensures k.piece(p, p + 12 + 21 * n, exits)
  {
    WalkPush(x, k, p, 0);
    ThenOp(x, k, p, p + 9, VM.CDLOAD);
    Before(k, p, p + 10, p + 10 + 21 * n, exits);
    WalkOp(x, k, p + 10 + 21 * n, VM.POP);
    After(k, p, p + 10 + 21 * n, p + 11 + 21 * n, exits);
    WalkOp(x, k, p + 11 + 21 * n, VM.REVERT);
    After(k, p, p + 11 + 21 * n, p + 12 + 21 * n, exits);
  }

  lemma {:induction false} WalkDispatch<W>(x: Exec<W>, k: Walker, p: nat, fns: seq<FnDecl>, sc: Scope, v: FnView,
      n: nat)
    requires StmtReady(x, k) == true && FnFaithful(x, sc, v) == true && n == |fns|
             && p + 12 + 21 * n + v.size(fns) <= |k.code|
    requires k.forward ==> !v.meter(fns).Unmetered?
    requires PushAt(x.img, p, 0) && OpAt(x.img, p + 9, VM.CDLOAD)
    requires v.routes(p + 10, fns, p + 12 + 21 * n) && v.at(p + 12 + 21 * n, fns)
    requires OpAt(x.img, p + 10 + 21 * n, VM.POP) && OpAt(x.img, p + 11 + 21 * n, VM.REVERT)
    ensures k.piece(p, p + 12 + 21 * n + v.size(fns), {})
  {
    var b := p + 12 + 21 * n;
    var c := b + v.size(fns);
    var ts := Starts(fns, b);
    WalkRoutes(x, k, p + 10, fns, sc, v, b);
    WalkRouter(x, k, p, n, ts);
    WalkFns(x, k, b, fns, sc, v);
    After(k, p, b, c, ts);
    forall t | t in ts ensures k.entry(p, c, t) { EntryIn(k, p, b, c, ts, {}, t); }
    Closes(k, p, c, ts);
  }

  lemma {:induction false} WalkProgram<W>(x: Exec<W>, k: Walker, g: ShlGas.GasView, flat: seq<Stmt>, fns: seq<FnDecl>,
      sc: Scope, v: FnView, n: nat, i: nat, total: nat)
    requires StmtReady(x, k) == true && FnFaithful(x, sc, v) == true
             && ShlGas.Pieces(x, g, flat, fns, sc, v, n, i, total)
    requires k.forward ==> !x.bv.meter(flat).Unmetered? && !v.meter(fns).Unmetered?
    ensures k.piece(0, |k.code| - 1, {})
  {
    WalkStmts(x, k, 0, flat, sc);
    if fns != [] {
      WalkDispatch(x, k, n, fns, sc, v, i);
      Both(k, 0, n, |k.code| - 1);
    }
  }

  lemma {:induction false} LoopFreeIsMetered<W>(x: Exec<W>, items: seq<Item>, sc: Scope, v: FnView)
    requires MeterFaithful(x) == true && FnFaithful(x, sc, v) == true && ProgramLoopFree(items)
    ensures !x.bv.meter(Statements(items)).Unmetered? && !v.meter(Functions(items)).Unmetered?
  {
    assert OpenB(Statements(items)) && OpenF(Functions(items));
  }

  lemma {:induction false} WalkPieces<W>(x: Exec<W>, k: Walker, items: seq<Item>, sc: Scope, v: FnView)
    requires StmtReady(x, k) == true && FnFaithful(x, sc, v) == true && ShlGas.ProgramIn(x, items) == true
    requires sc == DeclareAll(EMPTY_SCOPE, items) && (k.forward ==> ProgramLoopFree(items) == true)
    ensures k.piece(0, |k.code| - 1, {})
  {
    var g, flat, fns := ShlGas.TheGasView(), Statements(items), Functions(items);
    ShlGas.InPieces(x, g, items, flat, fns, sc, v);
    if k.forward { LoopFreeIsMetered(x, items, sc, v); }
    WalkProgram(x, k, g, flat, fns, sc, v, x.bv.size(flat), |fns|, ProgramGas(items));
  }

  /** The whole program but for the STOP at its end is one closed piece. */
  lemma {:induction false} ProgramIsPiece(code: seq<byte>, digest: seq<byte> -> u64, items: seq<Item>, forward: bool)
    requires ProgramAt(code, digest, items) == true && |code| < TWO63 && (forward ==> ProgramLoopFree(items) == true)
    ensures Piece(code, forward, 0, |code| - 1, {}) == true && code[|code| - 1] == VM.STOP
  {
    var f: VM.Frame<int> := VM.Frame(code, [], 0, VM.Context(0, 0, [], [], 0, 0, 0), digest, VM.NoHost);
    var x, k := ExecOf(f, 0), WalkerOf(code, forward);
    ExecOfIsFaithful(f, 0);
    var sc := DeclareAll(EMPTY_SCOPE, items);
    FnViewIsFaithful(x, sc);
    ShlGas.ProgramIsIn(x, items);
    WalkPieces(x, k, items, sc, FnViewOf(x, sc));
    LastIsStop(x, items);
    assert OpenP(0, |code| - 1);
  }

  lemma {:induction false} LastIsStop<W>(x: Exec<W>, items: seq<Item>)
    requires ShlGas.ProgramIn(x, items) == true && RunFaithful(x) == true
    ensures |x.f.code| > 0 && x.f.code[|x.f.code| - 1] == VM.STOP
  {
    assert Look(|x.f.code| - 1);
  }

  /**
   Jumps land. In the code of every program, each JUMP and JUMPI comes right after a PUSH of its
   target, which is the start of an instruction inside the code, and never one that itself needs the
   PUSH before it. Without loops, targets are ahead.
   */
  lemma {:induction false} CompiledJumpsLand(code: seq<byte>, digest: seq<byte> -> u64, items: seq<Item>, q: nat)
    requires ProgramAt(code, digest, items) && |code| < TWO63 && Boundary(code, q) && Jumps(code, q)
    ensures HasOperand(code, 0, q) && Boundary(code, q - 9)
    ensures var t := Operand(code, q); t < |code| && Boundary(code, t) && !Carried(code, t)
    ensures ProgramLoopFree(items) == true ==> q < Operand(code, q)
  {
    ProgramIsPiece(code, digest, items, false);
    JumpOfPiece(code, false, q);
    if ProgramLoopFree(items) == true {
      ProgramIsPiece(code, digest, items, true);
      JumpOfPiece(code, true, q);
    }
  }

  lemma {:induction false} JumpOfPiece(code: seq<byte>, forward: bool, q: nat)
    requires Piece(code, forward, 0, |code| - 1, {}) && code[|code| - 1] == VM.STOP && Boundary(code, q)
             && Jumps(code, q)
    ensures HasOperand(code, 0, q) && Boundary(code, q - 9)
    ensures var t := Operand(code, q); t < |code| && Boundary(code, t) && !Carried(code, t) && (forward ==> q < t)
  {
    assert Fits(code, forward, 0, |code| - 1, {}, q);
  }
}
