/**
 The code generator: bytes appended one instruction at a time, jumps to labels left as holes that
 `Resolve` fills in at the end. `Compile` produces exactly the layout of ShlLayout.
 */
module ShlGen {
  import opened Words
  import opened Shl
  import Syntax = Shl
  import opened ShlLayout
  import opened ShlAsm
  import VM

  /* ----- The notions of ShlAsm, kept closed until a lemma opens them ----- */

  /**
   The bodies of these predicates are costly to carry through every method, so the generator refers
   to the relations they define as sets.
   */
  datatype View = View(
    ghost sound: iset<Asm>,
    ghost later: iset<(Asm, Asm)>,
    ghost advances: iset<(Asm, Asm, nat, set<int>)>,
    ghost ops: iset<(Asm, int, byte)>,
    ghost push: iset<(Asm, int, u64)>,
    ghost jump: iset<(Asm, int, int, byte)>,
    ghost operators: iset<(Asm, int, BinOp)>,
    ghost expr: iset<(Asm, int, Expr, Scope)>,
    ghost exprs: iset<(Asm, int, seq<Expr>, Scope)>,
    ghost stmt: iset<(Asm, nat, Stmt, Scope)>,
    ghost stmts: iset<(Asm, nat, seq<Stmt>, Scope)>)
  {
    ghost predicate Sound(a: Asm) { a in sound }
    ghost predicate Later(a: Asm, b: Asm) { (a, b) in later }
    ghost predicate Advances(a: Asm, b: Asm, n: nat, s: set<int>) { (a, b, n, s) in advances }
    ghost predicate Op(a: Asm, p: int, op: byte) { (a, p, op) in ops }
    ghost predicate Push(a: Asm, p: int, w: u64) { (a, p, w) in push }
    ghost predicate Jump(a: Asm, p: int, l: int, op: byte) { (a, p, l, op) in jump }
    ghost predicate Operator(a: Asm, p: int, op: BinOp) { (a, p, op) in operators }
    ghost predicate Expr(a: Asm, p: int, e: Expr, sc: Scope) { (a, p, e, sc) in expr }
    ghost predicate Exprs(a: Asm, p: int, es: seq<Expr>, sc: Scope) { (a, p, es, sc) in exprs }
    ghost predicate Stmt(a: Asm, p: nat, s: Stmt, sc: Scope) { (a, p, s, sc) in stmt }
    ghost predicate Stmts(a: Asm, p: nat, ss: seq<Stmt>, sc: Scope) { (a, p, ss, sc) in stmts }
  }

  ghost predicate Open(a: Asm) { true }

  ghost predicate Means(v: View, a: Asm)
  {
    v.Sound(a) == Sound(a)
    && (forall b: Asm :: v.Later(a, b) == Later(a, b))
    && (forall b: Asm, n: nat, s: set<int> :: v.Advances(a, b, n, s) == Advances(a, b, n, s))
    && (forall p: int, op: byte :: v.Op(a, p, op) == WritesOp(Shown(a), p, op))
    && (forall p: int, w: u64 :: v.Push(a, p, w) == WritesPush(Shown(a), p, w))
    && (forall p: int, l: int, op: byte :: v.Jump(a, p, l, op) == JumpsTo(a, p, l, op))
    && (forall p: int, op: BinOp :: v.Operator(a, p, op) == WritesOperator(Shown(a), p, op))
    && (forall p: int, e: Expr, sc: Scope :: v.Expr(a, p, e, sc) == WritesExpr(Shown(a), p, e, sc))
    && (forall p: int, es: seq<Expr>, sc: Scope :: v.Exprs(a, p, es, sc) == WritesExprs(Shown(a), p, es, sc))
    && (forall p: nat, s: Stmt, sc: Scope :: v.Stmt(a, p, s, sc) == WritesStmt(Shown(a), p, s, sc))
    && (forall p: nat, ss: seq<Stmt>, sc: Scope :: v.Stmts(a, p, ss, sc) == WritesStmts(Shown(a), p, ss, sc))
  }

  ghost predicate Faithful(v: View)
  {
    forall a: Asm {:trigger Open(a)} :: Open(a) ==> Means(v, a)
  }

  ghost function TheView(): (v: View)
    ensures Faithful(v)
  {
    View(iset a: Asm | Sound(a),
         iset a: Asm, b: Asm | Later(a, b) :: (a, b),
         iset a: Asm, b: Asm, n: nat, s: set<int> | Advances(a, b, n, s) :: (a, b, n, s),
         iset a: Asm, p: int, op: byte | WritesOp(Shown(a), p, op) :: (a, p, op),
         iset a: Asm, p: int, w: u64 | WritesPush(Shown(a), p, w) :: (a, p, w),
         iset a: Asm, p: int, l: int, op: byte | JumpsTo(a, p, l, op) :: (a, p, l, op),
         iset a: Asm, p: int, op: BinOp | WritesOperator(Shown(a), p, op) :: (a, p, op),
         iset a: Asm, p: int, e: Expr, sc: Scope | WritesExpr(Shown(a), p, e, sc) :: (a, p, e, sc),
         iset a: Asm, p: int, es: seq<Expr>, sc: Scope | WritesExprs(Shown(a), p, es, sc) :: (a, p, es, sc),
         iset a: Asm, p: nat, s: Stmt, sc: Scope | WritesStmt(Shown(a), p, s, sc) :: (a, p, s, sc),
         iset a: Asm, p: nat, ss: seq<Stmt>, sc: Scope | WritesStmts(Shown(a), p, ss, sc) :: (a, p, ss, sc))
  }

  /* ----- Progress ----- */

  lemma {:induction false} Advanced(v: View, a: Asm, b: Asm, n: nat, s: set<int>)
    requires Faithful(v) == true && v.Advances(a, b, n, s)
    ensures v.Sound(b) && v.Later(a, b) && |b.code| == |a.code| + n && a.labels <= b.labels
  {
    assert Open(a) && Open(b);
  }

  lemma {:induction false} InTurn(v: View, a: Asm, b: Asm, c: Asm, m: nat, n: nat, s: set<int>)
    requires Faithful(v) == true && v.Advances(a, b, m, s) && v.Advances(b, c, n, {})
    ensures v.Advances(a, c, m + n, s)
  {
    assert Open(a) && Open(b);
    AdvancesTransitive(a, b, c, m, n, s);
  }

  lemma {:induction false} NoProgress(v: View, a: Asm)
    requires Faithful(v) == true && v.Sound(a)
    ensures v.Advances(a, a, 0, {})
  {
    assert Open(a);
  }

  lemma {:induction false} AndThen(v: View, a: Asm, b: Asm, c: Asm)
    requires Faithful(v) == true && v.Later(a, b) && v.Later(b, c)
    ensures v.Later(a, c)
  {
    assert Open(a) && Open(b);
    LaterTransitive(a, b, c);
  }

  lemma {:induction false} EmitsOp(v: View, a: Asm, op: byte)
    requires Faithful(v) == true && v.Sound(a)
    ensures v.Advances(a, WithOp(a, op), 1, {}) && v.Op(WithOp(a, op), |a.code|, op)
  {
    assert Open(a) && Open(WithOp(a, op));
    OpAdvances(a, op);
    OpIsWritten(a, op);
  }

  lemma {:induction false} EmitsPush(v: View, a: Asm, w: u64)
    requires Faithful(v) == true && v.Sound(a)
    ensures v.Advances(a, WithPush(a, w), 9, {}) && v.Push(WithPush(a, w), |a.code|, w)
  {
    assert Open(a) && Open(WithPush(a, w));
    PushAdvances(a, w);
    PushIsWritten(a, w);
  }

  lemma {:induction false} EmitsPushLabel(v: View, a: Asm, l: int)
    requires Faithful(v) == true && v.Sound(a) && 0 <= l < |a.labels|
    ensures v.Advances(a, WithPushLabel(a, l), 9, {}) && v.Op(WithPushLabel(a, l), |a.code|, VM.PUSH)
    ensures Fixup(|a.code| + 1, l) in WithPushLabel(a, l).fixups
  {
    assert Open(a) && Open(WithPushLabel(a, l));
    PushLabelAdvances(a, l);
    PushLabelIsWritten(a, l);
  }

  lemma {:induction false} MakesLabel(v: View, a: Asm, b: Asm, n: nat, s: set<int>)
    requires Faithful(v) == true && v.Advances(a, b, n, s)
    ensures v.Advances(a, WithLabel(b), n, s + {|b.labels|}) && v.Later(b, WithLabel(b))
  {
    assert Open(a) && Open(b) && Open(WithLabel(b));
    LabelAdvances(a, b, n, s);
    LabelIsLater(b);
  }

  lemma {:induction false} MarksLabel(v: View, a: Asm, b: Asm, l: int, n: nat, s: set<int>)
    requires Faithful(v) == true && v.Advances(a, b, n, s) && |a.labels| <= l < |b.labels| && b.labels[l] == -1
    ensures v.Advances(a, WithMark(b, l), n, s - {l}) && v.Later(b, WithMark(b, l))
  {
    assert Open(a) && Open(b) && Open(WithMark(b, l));
    MarkAdvances(a, b, l, n, s);
    MarkIsLater(b, l);
  }

  lemma {:induction false} MarkStays(v: View, a: Asm, b: Asm, l: int)
    requires Faithful(v) == true && v.Later(a, b) && 0 <= l < |a.labels| && a.labels[l] != -1
    ensures |b.labels| > l && b.labels[l] == a.labels[l]
  {
    assert Open(a);
  }

  /* ----- What has been written stays written ----- */

  lemma {:induction false} KeepOp(v: View, a: Asm, b: Asm, p: int, op: byte)
    requires Faithful(v) == true && v.Later(a, b) && v.Op(a, p, op)
    ensures v.Op(b, p, op)
  {
    assert Open(a) && Open(b);
  }

  lemma {:induction false} KeepPush(v: View, a: Asm, b: Asm, p: int, w: u64)
    requires Faithful(v) == true && v.Later(a, b) && v.Push(a, p, w)
    ensures v.Push(b, p, w)
  {
    assert Open(a) && Open(b);
  }

  lemma {:induction false} KeepExpr(v: View, a: Asm, b: Asm, p: int, e: Expr, sc: Scope)
    requires Faithful(v) == true && v.Later(a, b) && v.Expr(a, p, e, sc)
    ensures v.Expr(b, p, e, sc)
  {
    assert Open(a) && Open(b);
  }

  lemma {:induction false} KeepExprs(v: View, a: Asm, b: Asm, p: int, es: seq<Expr>, sc: Scope)
    requires Faithful(v) == true && v.Later(a, b) && v.Exprs(a, p, es, sc)
    ensures v.Exprs(b, p, es, sc)
  {
    assert Open(a) && Open(b);
  }

  lemma {:induction false} KeepStmt(v: View, a: Asm, b: Asm, p: nat, s: Stmt, sc: Scope)
    requires Faithful(v) == true && v.Later(a, b) && v.Stmt(a, p, s, sc)
    ensures v.Stmt(b, p, s, sc)
  {
    assert Open(a) && Open(b);
  }

  lemma {:induction false} KeepStmts(v: View, a: Asm, b: Asm, p: nat, ss: seq<Stmt>, sc: Scope)
    requires Faithful(v) == true && v.Later(a, b) && v.Stmts(a, p, ss, sc)
    ensures v.Stmts(b, p, ss, sc)
  {
    assert Open(a) && Open(b);
  }

  lemma {:induction false} KeepJump(v: View, a: Asm, b: Asm, p: int, l: int, op: byte)
    requires Faithful(v) == true && v.Later(a, b) && v.Jump(a, p, l, op)
    ensures v.Jump(b, p, l, op)
  {
    assert Open(a) && Open(b);
    var k :| 0 <= k < |a.fixups| && a.fixups[k] == Fixup(p + 1, l);
    assert b.fixups[k] == Fixup(p + 1, l);
  }

  lemma {:induction false} JumpIsMade(v: View, a: Asm, b: Asm, p: int, l: int, op: byte)
    requires Faithful(v) == true && v.Later(a, b) && v.Op(a, p, VM.PUSH) && v.Op(b, p + 9, op)
    requires Fixup(p + 1, l) in b.fixups && 0 <= l < |b.labels|
    ensures v.Jump(b, p, l, op)
  {
    assert Open(b);
    KeepOp(v, a, b, p, VM.PUSH);
  }

  /* ----- Expressions ----- */

  lemma {:induction false} LeafIsWritten(v: View, a: Asm, p: int, e: Expr, sc: Scope)
    requires Faithful(v) == true
    requires match e { case Num(w) => v.Push(a, p, w)
                       case Caller => v.Op(a, p, VM.CALLER) case CallValue => v.Op(a, p, VM.VALUE)
                       case Balance => v.Op(a, p, VM.BAL) case SelfId => v.Op(a, p, VM.SELF) case _ => false }
    ensures v.Expr(a, p, e, sc)
  {
    assert Open(a);
  }

  lemma {:induction false} VarIsWritten(v: View, a: Asm, b: Asm, p: int, name: Name, sc: Scope)
    requires Faithful(v) == true && v.Later(a, b) && v.Push(a, p, ReadSlot(sc, name)) && v.Op(b, p + 9, VM.SLOAD)
    ensures v.Expr(b, p, Var(name), sc)
  {
    assert Open(b);
    KeepPush(v, a, b, p, ReadSlot(sc, name));
  }

  /** The instruction that follows the operand of a one-operand expression. */
  function Suffix(e: Expr): (op: byte)
  {
    match e
    case Load(_) => VM.SLOAD
    case Arg(_) => VM.CDLOAD
    case _ => VM.ISZERO
  }

  function Operand(e: Expr): (x: Expr)
    requires e.Load? || e.Arg? || e.Not?
  {
    match e
    case Load(key) => key
    case Arg(index) => index
    case Not(x) => x
  }

  lemma {:induction false} UnaryIsWritten(v: View, a: Asm, b: Asm, p: int, e: Expr, sc: Scope)
    requires e.Load? || e.Arg? || e.Not?
    requires Faithful(v) == true && v.Later(a, b) && v.Expr(a, p, Operand(e), sc)
             && v.Op(b, p + ExprSize(Operand(e)), Suffix(e))
    ensures v.Expr(b, p, e, sc)
  {
    KeepExpr(v, a, b, p, Operand(e), sc);
    assert Open(b);
  }

  lemma {:induction false} OperatorIsWritten(v: View, a: Asm, b: Asm, p: int, op: BinOp)
    requires Faithful(v) == true && |OpCode(op)| == 2 && v.Later(a, b)
    requires v.Op(a, p, OpCode(op)[0]) && v.Op(b, p + 1, OpCode(op)[1])
    ensures v.Operator(b, p, op)
  {
    KeepOp(v, a, b, p, OpCode(op)[0]);
    assert Open(b);
  }

  lemma {:induction false} ShortOperatorIsWritten(v: View, a: Asm, p: int, op: BinOp)
    requires Faithful(v) == true && |OpCode(op)| == 1 && v.Op(a, p, OpCode(op)[0])
    ensures v.Operator(a, p, op)
  {
    assert Open(a);
  }

  lemma {:induction false} BinaryAt(img: Image, p: int, op: BinOp, l: Expr, r: Expr, sc: Scope)
    requires ExprAt(img, p, l, sc) == true && ExprAt(img, p + ExprSize(l), r, sc) == true
    requires OperatorAt(img, p + ExprSize(l) + ExprSize(r), op)
    ensures ExprAt(img, p, Binary(op, l, r), sc) == true
  {
  }

  lemma {:induction false} BinaryIsWritten(v: View, a: Asm, b: Asm, p: int, op: BinOp, l: Expr, r: Expr, sc: Scope)
    requires Faithful(v) == true && v.Later(a, b)
    requires v.Expr(a, p, l, sc) && v.Expr(a, p + ExprSize(l), r, sc)
             && v.Operator(b, p + ExprSize(l) + ExprSize(r), op)
    ensures v.Expr(b, p, Binary(op, l, r), sc)
  {
    KeepExpr(v, a, b, p, l, sc);
    KeepExpr(v, a, b, p + ExprSize(l), r, sc);
    assert Open(b);
    forall img | img in Shown(b) ensures ExprAt(img, p, Binary(op, l, r), sc) == true {
      BinaryAt(img, p, op, l, r, sc);
    }
  }

  /** The storage key of a mapping entry: slot, index, MIX. */
  ghost predicate Keys(v: View, a: Asm, p: int, slot: u64, key: Expr, sc: Scope)
  {
    v.Push(a, p, slot) && v.Expr(a, p + 9, key, sc) && v.Op(a, p + 9 + ExprSize(key), VM.MIX)
  }

  lemma {:induction false} KeyIsWritten(v: View, a: Asm, b: Asm, c: Asm, p: int, slot: u64, key: Expr, sc: Scope)
    requires Faithful(v) == true && v.Later(a, b) && v.Later(b, c)
    requires v.Push(a, p, slot) && v.Expr(b, p + 9, key, sc) && v.Op(c, p + 9 + ExprSize(key), VM.MIX)
    ensures Keys(v, c, p, slot, key, sc)
  {
    AndThen(v, a, b, c);
    KeepPush(v, a, c, p, slot);
    KeepExpr(v, b, c, p + 9, key, sc);
  }

  lemma {:induction false} KeyStays(v: View, a: Asm, b: Asm, p: int, slot: u64, key: Expr, sc: Scope)
    requires Faithful(v) == true && v.Later(a, b) && Keys(v, a, p, slot, key, sc)
    ensures Keys(v, b, p, slot, key, sc)
  {
    KeepPush(v, a, b, p, slot);
    KeepExpr(v, a, b, p + 9, key, sc);
    KeepOp(v, a, b, p + 9 + ExprSize(key), VM.MIX);
  }

  lemma {:induction false} IndexAt(img: Image, p: int, name: Name, key: Expr, sc: Scope)
    requires PushAt(img, p, MapSlot(sc, name)) && ExprAt(img, p + 9, key, sc) == true
    requires OpAt(img, p + 9 + ExprSize(key), VM.MIX) && OpAt(img, p + 10 + ExprSize(key), VM.SLOAD)
    ensures ExprAt(img, p, Index(name, key), sc) == true
  {
  }

  lemma {:induction false} IndexIsWritten(v: View, a: Asm, b: Asm, p: int, name: Name, key: Expr, sc: Scope)
    requires Faithful(v) == true && v.Later(a, b)
    requires Keys(v, a, p, MapSlot(sc, name), key, sc) && v.Op(b, p + 10 + ExprSize(key), VM.SLOAD)
    ensures v.Expr(b, p, Index(name, key), sc)
  {
    KeyStays(v, a, b, p, MapSlot(sc, name), key, sc);
    assert Open(b);
    forall img | img in Shown(b) ensures ExprAt(img, p, Index(name, key), sc) == true {
      IndexAt(img, p, name, key, sc);
    }
  }

  /* ----- Statements ----- */

  lemma {:induction false} NoExprs(v: View, a: Asm, p: int, sc: Scope)
    requires Faithful(v) == true
    ensures v.Exprs(a, p, [], sc)
  {
    assert Open(a);
  }

  lemma {:induction false} ExprsAreWritten(v: View, a: Asm, b: Asm, p: int, es: seq<Expr>, sc: Scope)
    requires Faithful(v) == true && v.Later(a, b) && es != []
    requires v.Expr(a, p, es[0], sc) && v.Exprs(b, p + ExprSize(es[0]), es[1..], sc)
    ensures v.Exprs(b, p, es, sc)
  {
    KeepExpr(v, a, b, p, es[0], sc);
    assert Open(b);
  }

  /** If the rest is laid out from `q` on, so is the whole list from `p` on. */
  ghost predicate ExprsSoFar(v: View, a: Asm, p: int, es: seq<Expr>, q: int, rest: seq<Expr>, sc: Scope)
  {
    forall b :: v.Later(a, b) && v.Exprs(b, q, rest, sc) ==> v.Exprs(b, p, es, sc)
  }

  lemma {:induction false} NextExpr(v: View, a: Asm, b: Asm, p: int, es: seq<Expr>, q: int, rest: seq<Expr>, sc: Scope)
    requires Faithful(v) == true && v.Later(a, b) && rest != [] && v.Expr(b, q, rest[0], sc)
    requires ExprsSoFar(v, a, p, es, q, rest, sc)
    ensures ExprsSoFar(v, b, p, es, q + ExprSize(rest[0]), rest[1..], sc)
  {
    forall c | v.Later(b, c) && v.Exprs(c, q + ExprSize(rest[0]), rest[1..], sc) ensures v.Exprs(c, p, es, sc) {
      AndThen(v, a, b, c);
      ExprsAreWritten(v, b, c, q, rest, sc);
    }
  }

  lemma {:induction false} LetIsWritten(v: View, a: Asm, b: Asm, p: nat, name: Name, val: Expr, sc: Scope)
    requires Faithful(v) == true && v.Later(a, b) && v.Push(a, p, TargetSlot(sc, name))
    requires v.Expr(b, p + 9, val, TargetScope(sc, name)) && v.Op(b, p + 9 + ExprSize(val), VM.SSTORE)
    ensures v.Stmt(b, p, Let(name, val), sc)
  {
    KeepPush(v, a, b, p, TargetSlot(sc, name));
    assert Open(b);
  }

  lemma {:induction false} StoreAt(img: Image, p: nat, key: Expr, val: Expr, sc: Scope)
    requires ExprAt(img, p, key, sc) == true && ExprAt(img, p + ExprSize(key), val, sc) == true
    requires OpAt(img, p + ExprSize(key) + ExprSize(val), VM.SSTORE)
    ensures StmtAt(img, p, Store(key, val), sc) == true
  {
  }

  lemma {:induction false} StoreShown(shown: iset<Image>, p: nat, key: Expr, val: Expr, sc: Scope)
    requires WritesExpr(shown, p, key, sc) && WritesExpr(shown, p + ExprSize(key), val, sc)
    requires WritesOp(shown, p + ExprSize(key) + ExprSize(val), VM.SSTORE)
    ensures WritesStmt(shown, p, Store(key, val), sc) == true
  {
    forall img | img in shown ensures StmtAt(img, p, Store(key, val), sc) == true {
      StoreAt(img, p, key, val, sc);
    }
  }

  lemma {:induction false} StoreIsWritten(v: View, a: Asm, b: Asm, p: nat, key: Expr, val: Expr, sc: Scope)
    requires Faithful(v) == true && v.Later(a, b)
    requires v.Expr(a, p, key, sc) && v.Expr(a, p + ExprSize(key), val, sc)
    requires v.Op(b, p + ExprSize(key) + ExprSize(val), VM.SSTORE)
    ensures v.Stmt(b, p, Store(key, val), sc)
  {
    KeepExpr(v, a, b, p, key, sc);
    KeepExpr(v, a, b, p + ExprSize(key), val, sc);
    assert Open(b);
    StoreShown(Shown(b), p, key, val, sc);
  }

  lemma {:induction false} IndexStoreAt(img: Image, p: nat, name: Name, key: Expr, val: Expr, sc: Scope)
    requires PushAt(img, p, MapSlot(sc, name)) && ExprAt(img, p + 9, key, sc) == true
             && OpAt(img, p + 9 + ExprSize(key), VM.MIX)
    requires ExprAt(img, p + 10 + ExprSize(key), val, sc) == true
             && OpAt(img, p + 10 + ExprSize(key) + ExprSize(val), VM.SSTORE)
    ensures StmtAt(img, p, IndexStore(name, key, val), sc) == true
  {
  }

  lemma {:induction false} IndexStoreIsWritten(v: View, a: Asm, b: Asm, p: nat, name: Name, key: Expr, val: Expr,
      sc: Scope)
    requires Faithful(v) == true && v.Later(a, b) && Keys(v, a, p, MapSlot(sc, name), key, sc)
    requires v.Expr(b, p + 10 + ExprSize(key), val, sc) && v.Op(b, p + 10 + ExprSize(key) + ExprSize(val), VM.SSTORE)
    ensures v.Stmt(b, p, IndexStore(name, key, val), sc)
  {
    KeyStays(v, a, b, p, MapSlot(sc, name), key, sc);
    assert Open(b);
    forall img | img in Shown(b) ensures StmtAt(img, p, IndexStore(name, key, val), sc) == true {
      IndexStoreAt(img, p, name, key, val, sc);
    }
  }

  lemma {:induction false} EmitIsWritten(v: View, a: Asm, b: Asm, c: Asm, p: nat, args: seq<Expr>, sc: Scope)
    requires Faithful(v) == true && v.Later(a, b) && v.Later(b, c)
    requires v.Exprs(a, p, args, sc) && v.Push(b, p + ExprsSize(args), Wrap(|args|))
             && v.Op(c, p + ExprsSize(args) + 9, VM.LOG)
    ensures v.Stmt(c, p, Emit(args), sc)
  {
    AndThen(v, a, b, c);
    KeepExprs(v, a, c, p, args, sc);
    KeepPush(v, b, c, p + ExprsSize(args), Wrap(|args|));
    assert Open(c);
  }

  lemma {:induction false} ReturnIsWritten(v: View, a: Asm, b: Asm, p: nat, val: Expr, sc: Scope)
    requires Faithful(v) == true && v.Later(a, b) && v.Expr(a, p, val, sc) && v.Op(b, p + ExprSize(val), VM.RETURN)
    ensures v.Stmt(b, p, Return(val), sc)
  {
    KeepExpr(v, a, b, p, val, sc);
    assert Open(b);
  }

  lemma {:induction false} HaltIsWritten(v: View, a: Asm, p: nat, s: Stmt, sc: Scope)
    requires Faithful(v) == true && (s.Stop? || s.Revert?) && v.Op(a, p, if s.Stop? then VM.STOP else VM.REVERT)
    ensures v.Stmt(a, p, s, sc)
  {
    assert Open(a);
  }

  lemma {:induction false} RequireIsWritten(v: View, a: Asm, b: Asm, c: Asm, d: Asm, p: nat, cond: Expr, l: nat,
      sc: Scope)
    requires Faithful(v) == true && v.Later(a, b) && v.Later(b, c) && v.Later(c, d)
    requires v.Expr(a, p, cond, sc) && v.Jump(b, p + ExprSize(cond), l, VM.JUMPI)
    requires v.Op(c, p + ExprSize(cond) + 10, VM.REVERT) && l < |d.labels| && d.labels[l] == p + ExprSize(cond) + 11
    ensures v.Stmt(d, p, Require(cond), sc)
  {
    AndThen(v, b, c, d);
    AndThen(v, a, b, d);
    KeepExpr(v, a, d, p, cond, sc);
    KeepJump(v, b, d, p + ExprSize(cond), l, VM.JUMPI);
    KeepOp(v, c, d, p + ExprSize(cond) + 10, VM.REVERT);
    assert Open(d);
    JumpIsWritten(d, p + ExprSize(cond), l, VM.JUMPI);
  }

  /** A condition and a jump to label `l` when it is false. */
  ghost predicate Tests(v: View, a: Asm, p: int, cond: Expr, sc: Scope, l: int)
  {
    v.Expr(a, p, cond, sc) && v.Op(a, p + ExprSize(cond), VM.ISZERO) && v.Jump(a, p + ExprSize(cond) + 1, l, VM.JUMPI)
  }

  lemma {:induction false} TestStays(v: View, a: Asm, b: Asm, p: int, cond: Expr, sc: Scope, l: int)
    requires Faithful(v) == true && v.Later(a, b) && Tests(v, a, p, cond, sc, l)
    ensures Tests(v, b, p, cond, sc, l)
  {
    KeepExpr(v, a, b, p, cond, sc);
    KeepOp(v, a, b, p + ExprSize(cond), VM.ISZERO);
    KeepJump(v, a, b, p + ExprSize(cond) + 1, l, VM.JUMPI);
  }

  ghost predicate WritesTest(shown: iset<Image>, p: int, cond: Expr, sc: Scope, target: nat)
  {
    forall img :: img in shown ==> TestAt(img, p, cond, sc, target)
  }

  lemma {:induction false} TestAtMark(v: View, a: Asm, p: int, cond: Expr, sc: Scope, l: nat)
    requires Faithful(v) == true && Tests(v, a, p, cond, sc, l) && l < |a.labels| && a.labels[l] >= 0
    ensures WritesTest(Shown(a), p, cond, sc, a.labels[l])
  {
    assert Open(a);
    JumpIsWritten(a, p + ExprSize(cond) + 1, l, VM.JUMPI);
  }

  lemma {:induction false} JumpAtMark(v: View, a: Asm, p: int, l: nat, op: byte)
    requires Faithful(v) == true && v.Jump(a, p, l, op) && l < |a.labels| && a.labels[l] >= 0
    ensures WritesJump(Shown(a), p, a.labels[l], op)
  {
    assert Open(a);
    JumpIsWritten(a, p, l, op);
  }

  lemma {:induction false} IfAt(img: Image, p: nat, cond: Expr, thn: seq<Stmt>, els: seq<Stmt>, sc: Scope, elseAt: nat)
    requires elseAt == p + ExprSize(cond) + 11 + StmtsSize(thn) + 10
    requires TestAt(img, p, cond, sc, elseAt) == true
             && JumpAt(img, elseAt - 10, elseAt + StmtsSize(els), VM.JUMP) == true
    requires StmtsAt(img, p + ExprSize(cond) + 11, thn, sc) == true
             && StmtsAt(img, elseAt, els, ScopeAfterAll(thn, sc)) == true
    ensures StmtAt(img, p, If(cond, thn, els), sc) == true
  {
  }

  lemma {:induction false} IfShown(shown: iset<Image>, p: nat, cond: Expr, thn: seq<Stmt>, els: seq<Stmt>, sc: Scope,
      elseAt: nat)
    requires elseAt == p + ExprSize(cond) + 11 + StmtsSize(thn) + 10
    requires WritesTest(shown, p, cond, sc, elseAt) && WritesJump(shown, elseAt - 10, elseAt + StmtsSize(els), VM.JUMP)
    requires WritesStmts(shown, p + ExprSize(cond) + 11, thn, sc)
             && WritesStmts(shown, elseAt, els, ScopeAfterAll(thn, sc))
    ensures WritesStmt(shown, p, If(cond, thn, els), sc) == true
  {
    forall img | img in shown ensures StmtAt(img, p, If(cond, thn, els), sc) == true {
      IfAt(img, p, cond, thn, els, sc, elseAt);
    }
  }

  lemma {:induction false} IfIsWritten(v: View, a: Asm, p: nat, cond: Expr, thn: seq<Stmt>, els: seq<Stmt>, sc: Scope,
      elseL: nat, endL: nat)
    requires Faithful(v) == true && elseL < |a.labels| && endL < |a.labels| && Tests(v, a, p, cond, sc, elseL)
    requires v.Stmts(a, p + ExprSize(cond) + 11, thn, sc)
             && a.labels[elseL] == p + ExprSize(cond) + 11 + StmtsSize(thn) + 10
    requires v.Jump(a, a.labels[elseL] - 10, endL, VM.JUMP)
    requires v.Stmts(a, a.labels[elseL], els, ScopeAfterAll(thn, sc))
             && a.labels[endL] == a.labels[elseL] + StmtsSize(els)
    ensures v.Stmt(a, p, If(cond, thn, els), sc)
  {
    TestAtMark(v, a, p, cond, sc, elseL);
    JumpAtMark(v, a, a.labels[elseL] - 10, endL, VM.JUMP);
    assert Open(a);
    IfShown(Shown(a), p, cond, thn, els, sc, a.labels[elseL]);
  }

  lemma {:induction false} WhileAt(img: Image, p: nat, cond: Expr, body: seq<Stmt>, sc: Scope, end: nat)
    requires end == p + ExprSize(cond) + 11 + StmtsSize(body) + 10
    requires TestAt(img, p, cond, sc, end) == true && JumpAt(img, end - 10, p, VM.JUMP) == true
    requires StmtsAt(img, p + ExprSize(cond) + 11, body, sc) == true
    ensures StmtAt(img, p, While(cond, body), sc) == true
  {
  }

  lemma {:induction false} WhileShown(shown: iset<Image>, p: nat, cond: Expr, body: seq<Stmt>, sc: Scope, end: nat)
    requires end == p + ExprSize(cond) + 11 + StmtsSize(body) + 10
    requires WritesTest(shown, p, cond, sc, end) && WritesJump(shown, end - 10, p, VM.JUMP)
    requires WritesStmts(shown, p + ExprSize(cond) + 11, body, sc)
    ensures WritesStmt(shown, p, While(cond, body), sc) == true
  {
    forall img | img in shown ensures StmtAt(img, p, While(cond, body), sc) == true {
      WhileAt(img, p, cond, body, sc, end);
    }
  }

  lemma {:induction false} WhileIsWritten(v: View, a: Asm, p: nat, cond: Expr, body: seq<Stmt>, sc: Scope, startL: nat,
      endL: nat)
    requires Faithful(v) == true && startL < |a.labels| && endL < |a.labels| && Tests(v, a, p, cond, sc, endL)
    requires v.Stmts(a, p + ExprSize(cond) + 11, body, sc)
             && a.labels[endL] == p + ExprSize(cond) + 11 + StmtsSize(body) + 10
    requires v.Jump(a, a.labels[endL] - 10, startL, VM.JUMP) && a.labels[startL] == p
    ensures v.Stmt(a, p, While(cond, body), sc)
  {
    TestAtMark(v, a, p, cond, sc, endL);
    JumpAtMark(v, a, a.labels[endL] - 10, startL, VM.JUMP);
    assert Open(a);
    WhileShown(Shown(a), p, cond, body, sc, a.labels[endL]);
  }

  lemma {:induction false} NoStmts(v: View, a: Asm, p: nat, sc: Scope)
    requires Faithful(v) == true
    ensures v.Stmts(a, p, [], sc)
  {
    assert Open(a);
  }

  lemma {:induction false} StmtsAreWritten(v: View, a: Asm, b: Asm, p: nat, ss: seq<Stmt>, sc: Scope)
    requires Faithful(v) == true && v.Later(a, b) && ss != []
    requires v.Stmt(a, p, ss[0], sc) && v.Stmts(b, p + StmtSize(ss[0]), ss[1..], ScopeAfter(ss[0], sc))
    ensures v.Stmts(b, p, ss, sc)
  {
    KeepStmt(v, a, b, p, ss[0], sc);
    assert Open(b);
  }

  ghost predicate StmtsSoFar(v: View, a: Asm, p: nat, ss: seq<Stmt>, sc: Scope, q: nat, rest: seq<Stmt>, sc1: Scope)
  {
    forall b :: v.Later(a, b) && v.Stmts(b, q, rest, sc1) ==> v.Stmts(b, p, ss, sc)
  }

  lemma {:induction false} NextStmt(v: View, a: Asm, b: Asm, p: nat, ss: seq<Stmt>, sc: Scope, q: nat, rest: seq<Stmt>,
      sc1: Scope)
    requires Faithful(v) == true && v.Later(a, b) && rest != [] && v.Stmt(b, q, rest[0], sc1)
    requires StmtsSoFar(v, a, p, ss, sc, q, rest, sc1)
    ensures StmtsSoFar(v, b, p, ss, sc, q + StmtSize(rest[0]), rest[1..], ScopeAfter(rest[0], sc1))
  {
    forall c | v.Later(b, c)
    && v.Stmts(c, q + StmtSize(rest[0]), rest[1..], ScopeAfter(rest[0], sc1)) ensures v.Stmts(c, p, ss, sc) {
      AndThen(v, a, b, c);
      StmtsAreWritten(v, b, c, q, rest, sc1);
    }
  }

  function CheckBranch(cond: Expr, thn: seq<Stmt>, els: seq<Stmt>, sc: Scope): (r: Option<CompileError>)
  {
    Then(CheckExpr(cond, sc), Then(CheckStmts(thn, sc), CheckStmts(els, ScopeAfterAll(thn, sc))))
  }

  ghost predicate TestsBlock(v: View, a: Asm, p: nat, cond: Expr, body: seq<Stmt>, sc: Scope, out: nat, next: nat)
  {
    Tests(v, a, p, cond, sc, out) && v.Stmts(a, p + ExprSize(cond) + 11, body, sc)
    && v.Jump(a, p + ExprSize(cond) + 11 + StmtsSize(body), next, VM.JUMP)
  }

  lemma {:induction false} BlockStays(v: View, a: Asm, b: Asm, p: nat, cond: Expr, body: seq<Stmt>, sc: Scope, out: nat,
      next: nat)
    requires Faithful(v) == true && v.Later(a, b) && TestsBlock(v, a, p, cond, body, sc, out, next)
    ensures TestsBlock(v, b, p, cond, body, sc, out, next)
  {
    TestStays(v, a, b, p, cond, sc, out);
    KeepStmts(v, a, b, p + ExprSize(cond) + 11, body, sc);
    KeepJump(v, a, b, p + ExprSize(cond) + 11 + StmtsSize(body), next, VM.JUMP);
  }

  /** The pieces of an if: the tested block, the mark of its end, the else block, the mark of its end. */
  lemma {:induction false} BranchIsWritten(v: View, a: Asm, b: Asm, c: Asm, d: Asm, p: nat, cond: Expr, thn: seq<Stmt>,
      els: seq<Stmt>, sc: Scope, elseL: nat, endL: nat)
    requires Faithful(v) == true && v.Later(a, b) && v.Later(b, c) && v.Later(c, d)
    requires TestsBlock(v, a, p, cond, thn, sc, elseL, endL)
    requires elseL < |b.labels| && b.labels[elseL] == p + ExprSize(cond) + 11 + StmtsSize(thn) + 10
    requires v.Stmts(c, b.labels[elseL], els, ScopeAfterAll(thn, sc))
    requires endL < |d.labels| && d.labels[endL] == b.labels[elseL] + StmtsSize(els)
    ensures v.Stmt(d, p, If(cond, thn, els), sc)
  {
    AndThen(v, b, c, d);
    AndThen(v, a, b, d);
    BlockStays(v, a, d, p, cond, thn, sc, elseL, endL);
    MarkStays(v, b, d, elseL);
    KeepStmts(v, c, d, b.labels[elseL], els, ScopeAfterAll(thn, sc));
    IfIsWritten(v, d, p, cond, thn, els, sc, elseL, endL);
  }

  class Gen {
    var code: seq<byte>
    var vars: map<Name, u64>
    var next: u64
    var state: map<Name, u64>
    var nextState: u64
    var labels: seq<int>
    var fixups: seq<Fixup>
    ghost const v: View

    function Out(): (a: Asm)
      reads this
    {
      Asm(code, labels, fixups)
    }

    function Names(): (sc: Scope)
      reads this
    {
      Scope(vars, next, state, nextState)
    }

    ghost predicate Ready()
      reads this
    {
      Faithful(v) && v.Sound(Out())
    }

    constructor ()
      ensures Ready() && Out() == Asm([], [], []) && Names() == EMPTY_SCOPE
    {
      v := TheView();
      code, vars, next, state, nextState, labels, fixups := [], map[], LOCAL_BASE, map[], STATE_BASE, [], [];
      new;
      assert Open(Out());
    }

    /* ----- Primitives ----- */

    method Emit(op: byte)
      requires Ready()
      modifies this`code
      ensures Ready() && Out() == WithOp(old(Out()), op)
      ensures v.Advances(old(Out()), Out(), 1, {}) && v.Later(old(Out()), Out()) && v.Op(Out(), old(|code|), op)
    {
      EmitsOp(v, Out(), op);
      code := code + [op];
      Advanced(v, old(Out()), Out(), 1, {});
    }

    method PushU64(w: u64)
      requires Ready()
      modifies this`code
      ensures Ready() && Out() == WithPush(old(Out()), w)
      ensures v.Advances(old(Out()), Out(), 9, {}) && v.Later(old(Out()), Out()) && v.Push(Out(), old(|code|), w)
    {
      EmitsPush(v, Out(), w);
      code := code + [VM.PUSH];
      code := code + U64Bytes(w);
      assert Out() == WithPush(old(Out()), w);
      Advanced(v, old(Out()), Out(), 9, {});
    }

    method NewLabel() returns (l: nat)
      requires Ready()
      modifies this`labels
      ensures Ready() && l == old(|labels|) && Out() == WithLabel(old(Out())) && v.Later(old(Out()), Out())
    {
      NoProgress(v, Out());
      MakesLabel(v, Out(), Out(), 0, {});
      labels := labels + [-1];
      Advanced(v, old(Out()), Out(), 0, {} + {old(|labels|)});
      l := |labels| - 1;
    }

    method Mark(l: nat)
      requires Ready() && l < |labels|
      modifies this`labels
      ensures Ready() && Out() == WithMark(old(Out()), l) && (old(labels[l]) == -1 ==> v.Later(old(Out()), Out()))
    {
      assert Open(Out());
      if labels[l] == -1 { MarkIsLater(Out(), l); }
      labels := labels[l := |code|];
      assert Open(Out());
    }

    method PushLabel(l: nat)
      requires Ready() && l < |labels|
      modifies this`code, this`fixups
      ensures Ready() && Out() == WithPushLabel(old(Out()), l)
      ensures v.Advances(old(Out()), Out(), 9, {}) && v.Later(old(Out()), Out()) && v.Op(Out(), old(|code|), VM.PUSH)
    {
      EmitsPushLabel(v, Out(), l);
      code := code + [VM.PUSH];
      fixups := fixups + [Fixup(|code|, l)];
      code := code + [0, 0, 0, 0, 0, 0, 0, 0];
      assert Out() == WithPushLabel(old(Out()), l);
      Advanced(v, old(Out()), Out(), 9, {});
    }

    method Slot(name: Name) returns (s: u64)
      modifies this`vars, this`next
      ensures Names() == Bind(old(Names()), name) && s == Names().vars[name]
    {
      if name in vars { return vars[name]; }
      s := next;
      next := Wrap(next + 1);
      vars := vars[name := s];
    }

    method DeclState(name: Name) returns (s: u64)
      modifies this`state, this`nextState
      ensures Names() == Declare(old(Names()), name) && s == Names().state[name]
    {
      if name in state { return state[name]; }
      s := nextState;
      nextState := Wrap(nextState + 1);
      state := state[name := s];
    }

    /* ----- Expressions ----- */

    method Operator(op: BinOp)
      requires Ready()
      modifies this`code
      ensures Ready() && v.Advances(old(Out()), Out(), |OpCode(op)|, {}) && v.Later(old(Out()), Out())
      ensures v.Operator(Out(), old(|code|), op)
    {
      match op {
        case Plus => Emit(VM.ADDC);
        case Minus => Emit(VM.SUBC);
        case Times => Emit(VM.MULC);
        case Over => Emit(VM.DIV);
        case Rem => Emit(VM.MOD);
        case Equal => Emit(VM.EQ);
        case Less => Emit(VM.LT);
        case Greater => Emit(VM.GT);
        case Conj => Emit(VM.AND);
        case Disj => Emit(VM.OR);
        case NotEqual => EmitTwo(VM.EQ, VM.ISZERO, op); return;
        case AtMost => EmitTwo(VM.GT, VM.ISZERO, op); return;
        case AtLeast => EmitTwo(VM.LT, VM.ISZERO, op); return;
      }
      ShortOperatorIsWritten(v, Out(), old(|code|), op);
    }

    method EmitTwo(op1: byte, op2: byte, ghost op: BinOp)
      requires Ready() && OpCode(op) == [op1, op2]
      modifies this`code
      ensures Ready() && v.Advances(old(Out()), Out(), 2, {}) && v.Later(old(Out()), Out())
              && v.Operator(Out(), old(|code|), op)
    {
      Emit(op1);
      ghost var a := Out();
      Emit(op2);
      InTurn(v, old(Out()), a, Out(), 1, 1, {});
      AndThen(v, old(Out()), a, Out());
      OperatorIsWritten(v, a, Out(), old(|code|), op);
    }

    method Expr(e: Expr) returns (err: Option<CompileError>)
      requires Ready()
      modifies this`code
      ensures err == CheckExpr(e, Names())
      ensures err.None? ==> Ready() && v.Advances(old(Out()), Out(), ExprSize(e), {}) && v.Later(old(Out()), Out())
      ensures err.None? ==> |code| == old(|code|) + ExprSize(e) && v.Expr(Out(), old(|code|), e, Names())
      decreases e, 2
    {
      match e {
        case Num(w) => PushU64(w);
        case Var(name) => err := Variable(name); return;
        case Index(name, key) => err := MapEntry(name, key); return;
        case Caller => Emit(VM.CALLER);
        case CallValue => Emit(VM.VALUE);
        case Balance => Emit(VM.BAL);
        case SelfId => Emit(VM.SELF);
        case Load(_) => err := Unary(e); return;
        case Arg(_) => err := Unary(e); return;
        case Not(_) => err := Unary(e); return;
        case Binary(op, l, r) => err := Operation(op, l, r); return;
      }
      LeafIsWritten(v, Out(), old(|code|), e, Names());
      err := None;
    }

    method Variable(name: Name) returns (err: Option<CompileError>)
      requires Ready()
      modifies this`code
      ensures err == CheckExpr(Var(name), Names())
      ensures err.None? ==> Ready() && v.Advances(old(Out()), Out(), 10, {}) && v.Later(old(Out()), Out())
      ensures err.None? ==> |code| == old(|code|) + 10 && v.Expr(Out(), old(|code|), Var(name), Names())
    {
      if name !in vars && name !in state { return Some(UndefinedVariable(name)); }
      PushU64(if name in vars then vars[name] else state[name]);
      ghost var a := Out();
      Emit(VM.SLOAD);
      InTurn(v, old(Out()), a, Out(), 9, 1, {});
      AndThen(v, old(Out()), a, Out());
      VarIsWritten(v, a, Out(), old(|code|), name, Names());
      err := None;
    }

    /** PUSH the slot, the index, MIX. */
    method EntryKey(slot: u64, key: Expr) returns (err: Option<CompileError>)
      requires Ready()
      modifies this`code
      ensures err == CheckExpr(key, Names())
      ensures err.None? ==>
                Ready() && v.Advances(old(Out()), Out(), 10 + ExprSize(key), {}) && v.Later(old(Out()), Out())
      ensures err.None? ==>
                |code| == old(|code|) + 10 + ExprSize(key) && Keys(v, Out(), old(|code|), slot, key, Names())
      decreases key, 3
    {
      PushU64(slot);
      ghost var a := Out();
      err := Expr(key);
      if err.Some? { return; }
      ghost var b := Out();
      InTurn(v, old(Out()), a, b, 9, ExprSize(key), {});
      Emit(VM.MIX);
      InTurn(v, old(Out()), b, Out(), 9 + ExprSize(key), 1, {});
      Advanced(v, old(Out()), Out(), 10 + ExprSize(key), {});
      KeyIsWritten(v, a, b, Out(), old(|code|), slot, key, Names());
    }

    method MapEntry(name: Name, key: Expr) returns (err: Option<CompileError>)
      requires Ready()
      modifies this`code
      ensures err == CheckExpr(Index(name, key), Names())
      ensures err.None? ==>
                Ready() && v.Advances(old(Out()), Out(), 11 + ExprSize(key), {}) && v.Later(old(Out()), Out())
      ensures err.None? ==>
                |code| == old(|code|) + 11 + ExprSize(key) && v.Expr(Out(), old(|code|), Index(name, key), Names())
      decreases key, 4
    {
      if name !in state { return Some(NotAMapping(name)); }
      err := EntryKey(state[name], key);
      if err.Some? { return; }
      ghost var a := Out();
      Emit(VM.SLOAD);
      InTurn(v, old(Out()), a, Out(), 10 + ExprSize(key), 1, {});
      AndThen(v, old(Out()), a, Out());
      IndexIsWritten(v, a, Out(), old(|code|), name, key, Names());
    }

    method Unary(e: Expr) returns (err: Option<CompileError>)
      requires Ready() && (e.Load? || e.Arg? || e.Not?)
      modifies this`code
      ensures err == CheckExpr(e, Names())
      ensures err.None? ==> Ready() && v.Advances(old(Out()), Out(), ExprSize(e), {}) && v.Later(old(Out()), Out())
      ensures err.None? ==> |code| == old(|code|) + ExprSize(e) && v.Expr(Out(), old(|code|), e, Names())
      decreases e, 0
    {
      err := Expr(Operand(e));
      if err.Some? { return; }
      ghost var a := Out();
      Emit(Suffix(e));
      InTurn(v, old(Out()), a, Out(), ExprSize(Operand(e)), 1, {});
      AndThen(v, old(Out()), a, Out());
      UnaryIsWritten(v, a, Out(), old(|code|), e, Names());
    }

    method Both(l: Expr, r: Expr, ghost whole: Expr) returns (err: Option<CompileError>)
      requires Ready() && l < whole && r < whole
      modifies this`code
      ensures err == Then(CheckExpr(l, Names()), CheckExpr(r, Names()))
      ensures err.None? ==>
                Ready() && v.Advances(old(Out()), Out(), ExprSize(l) + ExprSize(r), {}) && v.Later(old(Out()), Out())
      ensures err.None? ==> |code| == old(|code|) + ExprSize(l) + ExprSize(r) && v.Expr(Out(), old(|code|), l, Names())
      ensures err.None? ==> v.Expr(Out(), old(|code|) + ExprSize(l), r, Names())
      decreases whole, 0
    {
      err := Expr(l);
      if err.Some? { return; }
      ghost var a := Out();
      err := Expr(r);
      if err.Some? { return; }
      InTurn(v, old(Out()), a, Out(), ExprSize(l), ExprSize(r), {});
      AndThen(v, old(Out()), a, Out());
      KeepExpr(v, a, Out(), old(|code|), l, Names());
    }

    method Operation(op: BinOp, l: Expr, r: Expr) returns (err: Option<CompileError>)
      requires Ready()
      modifies this`code
      ensures err == Then(CheckExpr(l, Names()), CheckExpr(r, Names()))
      ensures err.None? ==>
                Ready() && v.Advances(old(Out()), Out(), ExprSize(l) + ExprSize(r) + |OpCode(op)|, {})
                && v.Later(old(Out()), Out())
      ensures err.None? ==> |code| == old(|code|) + ExprSize(l) + ExprSize(r) + |OpCode(op)|
      ensures err.None? ==> v.Expr(Out(), old(|code|), Binary(op, l, r), Names())
      decreases Binary(op, l, r), 1
    {
      err := Both(l, r, Binary(op, l, r));
      if err.Some? { return; }
      ghost var a := Out();
      Operator(op);
      InTurn(v, old(Out()), a, Out(), ExprSize(l) + ExprSize(r), |OpCode(op)|, {});
      Advanced(v, old(Out()), Out(), ExprSize(l) + ExprSize(r) + |OpCode(op)|, {});
      BinaryIsWritten(v, a, Out(), old(|code|), op, l, r, Names());
    }

    /* ----- Statements ----- */

    method Exprs(es: seq<Expr>) returns (err: Option<CompileError>)
      requires Ready()
      modifies this`code
      ensures err == CheckExprs(es, Names())
      ensures err.None? ==> Ready() && v.Advances(old(Out()), Out(), ExprsSize(es), {}) && v.Later(old(Out()), Out())
      ensures err.None? ==> |code| == old(|code|) + ExprsSize(es) && v.Exprs(Out(), old(|code|), es, Names())
    {
      NoProgress(v, Out());
      Advanced(v, Out(), Out(), 0, {});
      ghost var from := Out();
      ghost var done: nat := 0;
      var i := 0;
      while i < |es|
        invariant 0 <= i <= |es| && Ready() && fixups == old(fixups)
        invariant CheckExprs(es, Names()) == CheckExprs(es[i..], Names())
        invariant ExprsSize(es) == done + ExprsSize(es[i..]) && |code| == |from.code| + done
        invariant v.Advances(from, Out(), done, {}) && v.Later(from, Out())
        invariant ExprsSoFar(v, Out(), |from.code|, es, |code|, es[i..], Names())
      {
        ghost var a, rest := Out(), es[i..];
        err := Expr(es[i]);
        if err.Some? { return; }
        InTurn(v, from, a, Out(), done, ExprSize(es[i]), {});
        AndThen(v, from, a, Out());
        NextExpr(v, a, Out(), |from.code|, es, |a.code|, rest, Names());
        assert es[i + 1..] == rest[1..];
        done, i := done + ExprSize(es[i]), i + 1;
      }
      NoExprs(v, Out(), |code|, Names());
      NoProgress(v, Out());
      Advanced(v, Out(), Out(), 0, {});
      err := None;
    }

    /** PUSH a label and jump to it. */
    method Jump(l: nat, op: byte)
      requires Ready() && l < |labels|
      modifies this`code, this`fixups
      ensures Ready() && v.Advances(old(Out()), Out(), 10, {}) && v.Later(old(Out()), Out())
              && |code| == old(|code|) + 10
      ensures v.Jump(Out(), old(|code|), l, op)
    {
      PushLabel(l);
      ghost var a := Out();
      assert a.fixups[old(|fixups|)] == Fixup(old(|code|) + 1, l);
      Emit(op);
      InTurn(v, old(Out()), a, Out(), 9, 1, {});
      AndThen(v, old(Out()), a, Out());
      JumpIsMade(v, a, Out(), old(|code|), l, op);
    }

    /** A condition, negated. */
    method Inverted(cond: Expr) returns (err: Option<CompileError>)
      requires Ready()
      modifies this`code
      ensures err == CheckExpr(cond, Names())
      ensures err.None? ==>
                Ready() && v.Advances(old(Out()), Out(), ExprSize(cond) + 1, {}) && v.Later(old(Out()), Out())
      ensures err.None? ==> |code| == old(|code|) + ExprSize(cond) + 1
      ensures err.None? ==>
                v.Expr(Out(), old(|code|), cond, Names()) && v.Op(Out(), old(|code|) + ExprSize(cond), VM.ISZERO)
    {
      err := Expr(cond);
      if err.Some? { return; }
      ghost var a := Out();
      Emit(VM.ISZERO);
      InTurn(v, old(Out()), a, Out(), ExprSize(cond), 1, {});
      AndThen(v, old(Out()), a, Out());
      KeepExpr(v, a, Out(), old(|code|), cond, Names());
    }

    /** A condition, and a jump to `l` when it is false. */
    method Test(cond: Expr, l: nat) returns (err: Option<CompileError>)
      requires Ready() && l < |labels|
      modifies this`code, this`fixups
      ensures err == CheckExpr(cond, Names())
      ensures err.None? ==>
                Ready() && v.Advances(old(Out()), Out(), ExprSize(cond) + 11, {}) && v.Later(old(Out()), Out())
      ensures err.None? ==>
                |code| == old(|code|) + ExprSize(cond) + 11 && Tests(v, Out(), old(|code|), cond, Names(), l)
    {
      err := Inverted(cond);
      if err.Some? { return; }
      ghost var a := Out();
      Jump(l, VM.JUMPI);
      InTurn(v, old(Out()), a, Out(), ExprSize(cond) + 1, 10, {});
      AndThen(v, old(Out()), a, Out());
      KeepExpr(v, a, Out(), old(|code|), cond, Names());
      KeepOp(v, a, Out(), old(|code|) + ExprSize(cond), VM.ISZERO);
    }

    method Assign(name: Name, val: Expr) returns (err: Option<CompileError>)
      requires Ready()
      modifies this`code, this`vars, this`next
      ensures err == CheckStmt(Let(name, val), old(Names()))
      ensures err.None? ==> Ready() && Names() == TargetScope(old(Names()), name)
      ensures err.None? ==>
                v.Advances(old(Out()), Out(), 10 + ExprSize(val), {})
                && v.Stmt(Out(), old(|code|), Let(name, val), old(Names()))
    {
      var slot;
      if name in state { slot := state[name]; } else { slot := Slot(name); }
      PushU64(slot);
      ghost var a := Out();
      err := Stored(val);
      if err.Some? { return; }
      InTurn(v, old(Out()), a, Out(), 9, ExprSize(val) + 1, {});
      LetIsWritten(v, a, Out(), old(|code|), name, val, old(Names()));
    }

    method MapStore(name: Name, key: Expr, val: Expr) returns (err: Option<CompileError>)
      requires Ready()
      modifies this`code
      ensures err == if name in state then Then(CheckExpr(key, Names()), CheckExpr(val, Names()))
                     else Some(NotAMapping(name))
      ensures err.None? ==> Ready() && v.Advances(old(Out()), Out(), 11 + ExprSize(key) + ExprSize(val), {})
      ensures err.None? ==> v.Stmt(Out(), old(|code|), IndexStore(name, key, val), Names())
    {
      if name !in state { return Some(NotAMapping(name)); }
      err := EntryKey(state[name], key);
      if err.Some? { return; }
      ghost var a := Out();
      err := Stored(val);
      if err.Some? { return; }
      InTurn(v, old(Out()), a, Out(), 10 + ExprSize(key), ExprSize(val) + 1, {});
      IndexStoreIsWritten(v, a, Out(), old(|code|), name, key, val, Names());
    }

    /** The value, then SSTORE. */
    method Stored(val: Expr) returns (err: Option<CompileError>)
      requires Ready()
      modifies this`code
      ensures err == CheckExpr(val, Names())
      ensures err.None? ==>
                Ready() && v.Advances(old(Out()), Out(), ExprSize(val) + 1, {}) && v.Later(old(Out()), Out())
      ensures err.None? ==>
                v.Expr(Out(), old(|code|), val, Names()) && v.Op(Out(), old(|code|) + ExprSize(val), VM.SSTORE)
    {
      err := Expr(val);
      if err.Some? { return; }
      ghost var a := Out();
      Emit(VM.SSTORE);
      InTurn(v, old(Out()), a, Out(), ExprSize(val), 1, {});
      AndThen(v, old(Out()), a, Out());
      KeepExpr(v, a, Out(), old(|code|), val, Names());
    }

    method RawStore(key: Expr, val: Expr) returns (err: Option<CompileError>)
      requires Ready()
      modifies this`code
      ensures err == Then(CheckExpr(key, Names()), CheckExpr(val, Names()))
      ensures err.None? ==> Ready() && v.Advances(old(Out()), Out(), ExprSize(key) + ExprSize(val) + 1, {})
      ensures err.None? ==> v.Stmt(Out(), old(|code|), Store(key, val), Names())
    {
      err := Both(key, val, Binary(Plus, key, val));
      if err.Some? { return; }
      ghost var a := Out();
      Emit(VM.SSTORE);
      InTurn(v, old(Out()), a, Out(), ExprSize(key) + ExprSize(val), 1, {});
      StoreIsWritten(v, a, Out(), old(|code|), key, val, Names());
    }

    method Event(args: seq<Expr>) returns (err: Option<CompileError>)
      requires Ready()
      modifies this`code
      ensures err == CheckExprs(args, Names())
      ensures err.None? ==> Ready() && v.Advances(old(Out()), Out(), ExprsSize(args) + 10, {})
      ensures err.None? ==> v.Stmt(Out(), old(|code|), Syntax.Emit(args), Names())
    {
      err := Exprs(args);
      if err.Some? { return; }
      ghost var a := Out();
      PushU64(Wrap(|args|));
      ghost var b := Out();
      InTurn(v, old(Out()), a, b, ExprsSize(args), 9, {});
      Emit(VM.LOG);
      InTurn(v, old(Out()), b, Out(), ExprsSize(args) + 9, 1, {});
      EmitIsWritten(v, a, b, Out(), old(|code|), args, Names());
    }

    method Answer(val: Expr) returns (err: Option<CompileError>)
      requires Ready()
      modifies this`code
      ensures err == CheckExpr(val, Names())
      ensures err.None? ==> Ready() && v.Advances(old(Out()), Out(), ExprSize(val) + 1, {})
      ensures err.None? ==> v.Stmt(Out(), old(|code|), Return(val), Names())
    {
      err := Expr(val);
      if err.Some? { return; }
      ghost var a := Out();
      Emit(VM.RETURN);
      InTurn(v, old(Out()), a, Out(), ExprSize(val), 1, {});
      ReturnIsWritten(v, a, Out(), old(|code|), val, Names());
    }

    method Guarded(cond: Expr) returns (err: Option<CompileError>)
      requires Ready()
      modifies this`code, this`labels, this`fixups
      ensures err == CheckExpr(cond, Names())
      ensures err.None? ==> Ready() && v.Advances(old(Out()), Out(), ExprSize(cond) + 11, {})
      ensures err.None? ==> v.Stmt(Out(), old(|code|), Require(cond), Names())
    {
      NoProgress(v, Out());
      MakesLabel(v, Out(), Out(), 0, {});
      var cont := NewLabel();
      ghost var z, s := Out(), {} + {cont};
      err := Expr(cond);
      if err.Some? { return; }
      ghost var a := Out();
      InTurn(v, old(Out()), z, a, 0, ExprSize(cond), s);
      Jump(cont, VM.JUMPI);
      ghost var b := Out();
      InTurn(v, old(Out()), a, b, ExprSize(cond), 10, s);
      Emit(VM.REVERT);
      ghost var c := Out();
      InTurn(v, old(Out()), b, c, ExprSize(cond) + 10, 1, s);
      MarksLabel(v, old(Out()), c, cont, ExprSize(cond) + 11, s);
      Mark(cont);
      assert s - {cont} == {};
      RequireIsWritten(v, a, b, c, Out(), old(|code|), cond, cont, Names());
    }

    method Branch(cond: Expr, thn: seq<Stmt>, els: seq<Stmt>) returns (err: Option<CompileError>)
      requires Ready()
      modifies this
      ensures err == CheckBranch(cond, thn, els, old(Names()))
      ensures err.None? ==> Ready() && Names() == ScopeAfterAll(els, ScopeAfterAll(thn, old(Names())))
      ensures err.None? ==> v.Advances(old(Out()), Out(), ExprSize(cond) + 21 + StmtsSize(thn) + StmtsSize(els), {})
      ensures err.None? ==> v.Stmt(Out(), old(|code|), If(cond, thn, els), old(Names()))
      decreases If(cond, thn, els), 1
    {
      ghost var n, tn, en := ExprSize(cond), StmtsSize(thn), StmtsSize(els);
      var elseL, endL := TwoLabels();
      ghost var z, pending := Out(), {elseL, endL};
      err := TestedBlock(cond, thn, elseL, endL, If(cond, thn, els));
      if err.Some? { return; }
      ghost var a := Out();
      InTurn(v, old(Out()), z, a, 0, n + 21 + tn, pending);
      MarksLabel(v, old(Out()), a, elseL, n + 21 + tn, pending);
      Mark(elseL);
      ghost var b := Out();
      err := Stmts(els);
      if err.Some? { return; }
      ghost var c := Out();
      InTurn(v, old(Out()), b, c, n + 21 + tn, en, pending - {elseL});
      MarksLabel(v, old(Out()), c, endL, n + 21 + tn + en, pending - {elseL});
      Mark(endL);
      assert pending - {elseL} - {endL} == {};
      BranchIsWritten(v, a, b, c, Out(), old(|code|), cond, thn, els, old(Names()), elseL, endL);
    }

    /** A test that jumps to `out` when the condition is false, a block, and a jump to `next`. */
    method TestedBlock(cond: Expr, body: seq<Stmt>, out: nat, next: nat, ghost whole: Stmt)
        returns (err: Option<CompileError>)
      requires Ready() && out < |labels| && next < |labels|
      requires (whole.If? && whole.thn == body) || (whole.While? && whole.body == body)
      modifies this
      ensures err == Then(CheckExpr(cond, old(Names())), CheckStmts(body, old(Names())))
      ensures err.None? ==> Ready() && Names() == ScopeAfterAll(body, old(Names()))
      ensures err.None? ==>
                v.Advances(old(Out()), Out(), ExprSize(cond) + 21 + StmtsSize(body), {}) && v.Later(old(Out()), Out())
      ensures err.None? ==> |code| == old(|code|) + ExprSize(cond) + 21 + StmtsSize(body) && old(labels) <= labels
      ensures err.None? ==> TestsBlock(v, Out(), old(|code|), cond, body, old(Names()), out, next)
      decreases whole, 0
    {
      ghost var n, bn := ExprSize(cond), StmtsSize(body);
      err := Test(cond, out);
      if err.Some? { return; }
      ghost var a := Out();
      err := Stmts(body);
      if err.Some? { return; }
      ghost var b := Out();
      InTurn(v, old(Out()), a, b, n + 11, bn, {});
      Jump(next, VM.JUMP);
      InTurn(v, old(Out()), b, Out(), n + 11 + bn, 10, {});
      Advanced(v, old(Out()), Out(), n + 21 + bn, {});
      AndThen(v, a, b, Out());
      TestStays(v, a, Out(), old(|code|), cond, old(Names()), out);
      KeepStmts(v, b, Out(), |a.code|, body, old(Names()));
    }

    method TwoLabels() returns (l1: nat, l2: nat)
      requires Ready()
      modifies this`labels
      ensures Ready() && l1 == old(|labels|) && l2 == l1 + 1 && labels == old(labels) + [-1, -1]
      ensures v.Advances(old(Out()), Out(), 0, {l1, l2})
    {
      NoProgress(v, Out());
      MakesLabel(v, Out(), Out(), 0, {});
      l1 := NewLabel();
      MakesLabel(v, old(Out()), Out(), 0, {} + {l1});
      l2 := NewLabel();
      assert {} + {l1} + {l2} == {l1, l2};
    }

    method Loop(cond: Expr, body: seq<Stmt>) returns (err: Option<CompileError>)
      requires Ready()
      modifies this
      ensures err == Then(CheckExpr(cond, old(Names())), CheckStmts(body, old(Names())))
      ensures err.None? ==> Ready() && Names() == ScopeAfterAll(body, old(Names()))
      ensures err.None? ==> v.Advances(old(Out()), Out(), ExprSize(cond) + 21 + StmtsSize(body), {})
      ensures err.None? ==> v.Stmt(Out(), old(|code|), While(cond, body), old(Names()))
      decreases While(cond, body), 1
    {
      ghost var n := ExprSize(cond) + 21 + StmtsSize(body);
      var startL, endL := TwoLabels();
      ghost var pending := {startL, endL};
      MarksLabel(v, old(Out()), Out(), startL, 0, pending);
      Mark(startL);
      ghost var z := Out();
      err := TestedBlock(cond, body, endL, startL, While(cond, body));
      if err.Some? { return; }
      ghost var a := Out();
      InTurn(v, old(Out()), z, a, 0, n, pending - {startL});
      MarksLabel(v, old(Out()), a, endL, n, pending - {startL});
      Mark(endL);
      assert pending - {startL} - {endL} == {};
      BlockStays(v, a, Out(), old(|code|), cond, body, old(Names()), endL, startL);
      WhileIsWritten(v, Out(), old(|code|), cond, body, old(Names()), startL, endL);
    }

    method Stmt(s: Stmt) returns (err: Option<CompileError>)
      requires Ready()
      modifies this
      ensures err == CheckStmt(s, old(Names()))
      ensures err.None? ==>
                Ready() && Names() == ScopeAfter(s, old(Names())) && v.Advances(old(Out()), Out(), StmtSize(s), {})
      ensures err.None? ==> v.Stmt(Out(), old(|code|), s, old(Names()))
      decreases s, 2
    {
      match s {
        case Let(name, val) => err := Assign(name, val);
        case IndexStore(name, key, val) => err := MapStore(name, key, val);
        case Store(key, val) => err := RawStore(key, val);
        case Require(cond) => err := Guarded(cond);
        case Revert => Emit(VM.REVERT); HaltIsWritten(v, Out(), old(|code|), s, Names()); err := None;
        case If(cond, thn, els) => err := Branch(cond, thn, els);
        case While(cond, body) => err := Loop(cond, body);
        case Emit(args) => err := Event(args);
        case Return(val) => err := Answer(val);
        case Stop => Emit(VM.STOP); HaltIsWritten(v, Out(), old(|code|), s, Names()); err := None;
      }
    }

    method Stmts(ss: seq<Stmt>) returns (err: Option<CompileError>)
      requires Ready()
      modifies this
      ensures err == CheckStmts(ss, old(Names()))
      ensures err.None? ==> Ready() && Names() == ScopeAfterAll(ss, old(Names()))
      ensures err.None? ==> v.Advances(old(Out()), Out(), StmtsSize(ss), {}) && v.Later(old(Out()), Out())
      ensures err.None? ==> |code| == old(|code|) + StmtsSize(ss) && old(labels) <= labels
      ensures err.None? ==> v.Stmts(Out(), old(|code|), ss, old(Names()))
      decreases ss, 0
    {
      NoProgress(v, Out());
      Advanced(v, Out(), Out(), 0, {});
      ghost var from, sc := Out(), Names();
      ghost var done: nat := 0;
      var i := 0;
      while i < |ss|
        invariant 0 <= i <= |ss| && Ready()
        invariant CheckStmts(ss, sc) == CheckStmts(ss[i..], Names())
        invariant ScopeAfterAll(ss, sc) == ScopeAfterAll(ss[i..], Names())
        invariant StmtsSize(ss) == done + StmtsSize(ss[i..]) && |code| == |from.code| + done
        invariant v.Advances(from, Out(), done, {})
        invariant StmtsSoFar(v, Out(), |from.code|, ss, sc, |code|, ss[i..], Names())
      {
        ghost var a, rest, sc1 := Out(), ss[i..], Names();
        err := Stmt(ss[i]);
        if err.Some? { return; }
        InTurn(v, from, a, Out(), done, StmtSize(ss[i]), {});
        Advanced(v, a, Out(), StmtSize(ss[i]), {});
        NextStmt(v, a, Out(), |from.code|, ss, sc, |a.code|, rest, sc1);
        assert ss[i + 1..] == rest[1..];
        done, i := done + StmtSize(ss[i]), i + 1;
      }
      NoStmts(v, Out(), |code|, Names());
      NoProgress(v, Out());
      Advanced(v, Out(), Out(), 0, {});
      Advanced(v, from, Out(), done, {});
      err := None;
    }
  }
}
