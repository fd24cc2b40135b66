/**
 The bytecode of an SHL program as a layout: how long each piece is, what it costs when run
 straight through, and which bytes it consists of when it starts at address `p`, every jump being
 written as an absolute address. Contracts compare the recursive layout predicates with `true` so
 that the verifier passes them on whole.
 */
module ShlLayout {
  import opened Words
  import opened Shl
  import VM

  /* ----- Sizes and straight-line gas ----- */

  function OpCode(op: BinOp): (c: seq<byte>)
    ensures 1 <= |c| <= 2
  {
    match op
    case Plus => [VM.ADDC]
    case Minus => [VM.SUBC]
    case Times => [VM.MULC]
    case Over => [VM.DIV]
    case Rem => [VM.MOD]
    case Equal => [VM.EQ]
    case Less => [VM.LT]
    case Greater => [VM.GT]
    case Conj => [VM.AND]
    case Disj => [VM.OR]
    case NotEqual => [VM.EQ, VM.ISZERO]
    case AtMost => [VM.GT, VM.ISZERO]
    case AtLeast => [VM.LT, VM.ISZERO]
  }

  function ExprSize(e: Expr): (n: nat)
    ensures n > 0
  {
    match e
    case Num(_) => 9
    case Var(_) => 10
    case Index(_, key) => 11 + ExprSize(key)
    case Load(key) => ExprSize(key) + 1
    case Arg(i) => ExprSize(i) + 1
    case Not(x) => ExprSize(x) + 1
    case Binary(op, l, r) => ExprSize(l) + ExprSize(r) + |OpCode(op)|
    case _ => 1
  }

  /** Expressions run straight through, so their gas is fixed. */
  function ExprGas(e: Expr): (g: nat)
  {
    match e
    case Num(_) => 3
    case Var(_) => 23
    case Index(_, key) => 43 + ExprGas(key)
    case Load(key) => ExprGas(key) + 20
    case Arg(i) => ExprGas(i) + 1
    case Not(x) => ExprGas(x) + 1
    case Binary(op, l, r) => ExprGas(l) + ExprGas(r) + |OpCode(op)|
    case _ => 1
  }

  function ExprsSize(es: seq<Expr>): (n: nat)
  {
    if es == [] then 0 else ExprSize(es[0]) + ExprsSize(es[1..])
  }

  function ExprsGas(es: seq<Expr>): (g: nat)
  {
    if es == [] then 0 else ExprGas(es[0]) + ExprsGas(es[1..])
  }

  function StmtSize(s: Stmt): (n: nat)
    ensures n > 0
    decreases s, 1
  {
    match s
    case Let(_, val) => 10 + ExprSize(val)
    case IndexStore(_, key, val) => 11 + ExprSize(key) + ExprSize(val)
    case Store(key, val) => ExprSize(key) + ExprSize(val) + 1
    case Require(cond) => ExprSize(cond) + 11
    case If(cond, thn, els) => ExprSize(cond) + 21 + StmtsSize(thn) + StmtsSize(els)
    case While(cond, body) => ExprSize(cond) + 21 + StmtsSize(body)
    case Emit(args) => ExprsSize(args) + 10
    case Return(val) => ExprSize(val) + 1
    case Revert => 1
    case Stop => 1
  }

  function StmtsSize(ss: seq<Stmt>): (n: nat)
    decreases ss, 0
  {
    if ss == [] then 0 else StmtSize(ss[0]) + StmtsSize(ss[1..])
  }

  /** The gas of a statement's code if each instruction is executed once. */
  function StmtGas(s: Stmt): (g: nat)
    decreases s, 1
  {
    match s
    case Let(_, val) => 103 + ExprGas(val)
    case IndexStore(_, key, val) => 123 + ExprGas(key) + ExprGas(val)
    case Store(key, val) => ExprGas(key) + ExprGas(val) + 100
    case Require(cond) => ExprGas(cond) + 5
    case If(cond, thn, els) => ExprGas(cond) + 9 + StmtsGas(thn) + StmtsGas(els)
    case While(cond, body) => ExprGas(cond) + 9 + StmtsGas(body)
    case Emit(args) => ExprsGas(args) + 53 + 8 * |args|
    case Return(val) => ExprGas(val) + 1
    case Revert => 1
    case Stop => 1
  }

  function StmtsGas(ss: seq<Stmt>): (g: nat)
    decreases ss, 0
  {
    if ss == [] then 0 else StmtGas(ss[0]) + StmtsGas(ss[1..])
  }

  function FnSize(fn: FnDecl): (n: nat)
  {
    2 + 20 * |fn.params| + StmtsSize(fn.body)
  }

  function FnsSize(fns: seq<FnDecl>): (n: nat)
  {
    if fns == [] then 0 else FnSize(fns[0]) + FnsSize(fns[1..])
  }

  ghost predicate LoopFree(s: Stmt)
    decreases s, 1
  {
    match s
    case If(_, thn, els) => AllLoopFree(thn) && AllLoopFree(els)
    case While(_, _) => false
    case _ => true
  }

  ghost predicate AllLoopFree(ss: seq<Stmt>)
    decreases ss, 0
  {
    ss == [] || (LoopFree(ss[0]) && AllLoopFree(ss[1..]))
  }

  /** Writes and events: nothing that jumps or halts. */
  ghost predicate Straight(s: Stmt)
  {
    s.Let? || s.IndexStore? || s.Store? || s.Emit?
  }

  ghost predicate AllStraight(ss: seq<Stmt>)
  {
    ss == [] || (Straight(ss[0]) && AllStraight(ss[1..]))
  }

  /** What can be said beforehand about the gas of a piece of code. */
  datatype Meter = Exactly(g: nat) | UpTo(g: nat) | Unmetered

  ghost predicate Meets(spent: int, meter: Meter)
  {
    match meter
    case Exactly(g) => spent == g
    case UpTo(g) => 0 <= spent <= g
    case Unmetered => true
  }

  ghost function Together(a: Meter, b: Meter): (r: Meter)
  {
    if a.Unmetered? || b.Unmetered? then Unmetered
    else if a.Exactly? && b.Exactly? then Exactly(a.g + b.g)
    else UpTo(a.g + b.g)
  }

  ghost function StmtMeter(s: Stmt): (r: Meter)
  {
    if Straight(s) then Exactly(StmtGas(s)) else if LoopFree(s) then UpTo(StmtGas(s)) else Unmetered
  }

  ghost function StmtsMeter(ss: seq<Stmt>): (r: Meter)
  {
    if AllStraight(ss) then Exactly(StmtsGas(ss)) else if AllLoopFree(ss) then UpTo(StmtsGas(ss)) else Unmetered
  }

  function FnGas(fn: FnDecl): (g: nat)
  {
    2 + 107 * |fn.params| + StmtsGas(fn.body)
  }

  function FnsGas(fns: seq<FnDecl>): (g: nat)
  {
    if fns == [] then 0 else FnGas(fns[0]) + FnsGas(fns[1..])
  }

  function DispatchSize(fns: seq<FnDecl>): (n: nat)
  {
    12 + 21 * |fns| + FnsSize(fns)
  }

  function ProgramSize(items: seq<Item>): (n: nat)
  {
    StmtsSize(Statements(items)) + (if Functions(items) == [] then 0 else DispatchSize(Functions(items))) + 1
  }

  function ProgramGas(items: seq<Item>): (g: nat)
  {
    var fns := Functions(items);
    StmtsGas(Statements(items)) + (if fns == [] then 0 else 6 + 9 * |fns| + FnsGas(fns)) + 1
  }

  /* ----- The bytes ----- */

  /** What the VM reads at an address: the opcode, and the word of the eight bytes from there on. */
  datatype Image = Image(op: int -> int, word: int -> int)

  function ByteAt(code: seq<byte>, p: int): (r: int)
  {
    if 0 <= p < |code| then code[p] else -1
  }

  function WordAt(code: seq<byte>, p: int): (r: int)
  {
    if 0 <= p && p + 8 <= |code| then BytesU64(code[p..p + 8]) else -1
  }

  function ImageOf(code: seq<byte>): (r: Image)
  {
    Image(p => ByteAt(code, p), p => WordAt(code, p))
  }

  ghost predicate OpAt(img: Image, p: int, op: byte)
  {
    img.op(p) == op
  }

  ghost predicate PushAt(img: Image, p: int, v: u64)
  {
    img.op(p) == VM.PUSH && img.word(p + 1) == v
  }

  ghost predicate JumpAt(img: Image, p: int, target: nat, op: byte)
  {
    PushAt(img, p, Wrap(target)) && OpAt(img, p + 9, op)
  }

  ghost predicate OperatorAt(img: Image, p: int, op: BinOp)
  {
    OpAt(img, p, OpCode(op)[0]) && (|OpCode(op)| == 2 ==> OpAt(img, p + 1, OpCode(op)[1]))
  }

  ghost predicate ExprAt(img: Image, p: int, e: Expr, sc: Scope)
    decreases e
  {
    match e
    case Num(v) => PushAt(img, p, v)
    case Var(name) => PushAt(img, p, ReadSlot(sc, name)) && OpAt(img, p + 9, VM.SLOAD)
    case Index(name, key) =>
      PushAt(img, p, MapSlot(sc, name)) && ExprAt(img, p + 9, key, sc)
      && OpAt(img, p + 9 + ExprSize(key), VM.MIX) && OpAt(img, p + 10 + ExprSize(key), VM.SLOAD)
    case Load(key) => ExprAt(img, p, key, sc) && OpAt(img, p + ExprSize(key), VM.SLOAD)
    case Caller => OpAt(img, p, VM.CALLER)
    case CallValue => OpAt(img, p, VM.VALUE)
    case Balance => OpAt(img, p, VM.BAL)
    case SelfId => OpAt(img, p, VM.SELF)
    case Arg(i) => ExprAt(img, p, i, sc) && OpAt(img, p + ExprSize(i), VM.CDLOAD)
    case Not(x) => ExprAt(img, p, x, sc) && OpAt(img, p + ExprSize(x), VM.ISZERO)
    case Binary(op, l, r) =>
      ExprAt(img, p, l, sc) && ExprAt(img, p + ExprSize(l), r, sc)
      && OperatorAt(img, p + ExprSize(l) + ExprSize(r), op)
  }

  ghost predicate ExprsAt(img: Image, p: int, es: seq<Expr>, sc: Scope)
    decreases es
  {
    es == [] || (ExprAt(img, p, es[0], sc) && ExprsAt(img, p + ExprSize(es[0]), es[1..], sc))
  }

  /** A condition, then a jump to `target` when it is false. */
  ghost predicate TestAt(img: Image, p: int, cond: Expr, sc: Scope, target: nat)
  {
    ExprAt(img, p, cond, sc) && OpAt(img, p + ExprSize(cond), VM.ISZERO)
    && JumpAt(img, p + ExprSize(cond) + 1, target, VM.JUMPI)
  }

  ghost predicate StmtAt(img: Image, p: nat, s: Stmt, sc: Scope)
    decreases s, 1
  {
    match s
    case Let(name, val) =>
      PushAt(img, p, TargetSlot(sc, name)) && ExprAt(img, p + 9, val, TargetScope(sc, name))
      && OpAt(img, p + 9 + ExprSize(val), VM.SSTORE)
    case IndexStore(name, key, val) =>
      PushAt(img, p, MapSlot(sc, name)) && ExprAt(img, p + 9, key, sc) && OpAt(img, p + 9 + ExprSize(key), VM.MIX)
      && ExprAt(img, p + 10 + ExprSize(key), val, sc) && OpAt(img, p + 10 + ExprSize(key) + ExprSize(val), VM.SSTORE)
    case Store(key, val) =>
      ExprAt(img, p, key, sc) && ExprAt(img, p + ExprSize(key), val, sc)
      && OpAt(img, p + ExprSize(key) + ExprSize(val), VM.SSTORE)
    case Require(cond) =>
      ExprAt(img, p, cond, sc) && JumpAt(img, p + ExprSize(cond), p + ExprSize(cond) + 11, VM.JUMPI)
      && OpAt(img, p + ExprSize(cond) + 10, VM.REVERT)
    case Revert => OpAt(img, p, VM.REVERT)
    case If(cond, thn, els) =>
      var thenAt := p + ExprSize(cond) + 11;
      var elseAt := thenAt + StmtsSize(thn) + 10;
      TestAt(img, p, cond, sc, elseAt) && StmtsAt(img, thenAt, thn, sc)
      && JumpAt(img, elseAt - 10, elseAt + StmtsSize(els), VM.JUMP) && StmtsAt(img, elseAt, els, ScopeAfterAll(thn, sc))
    case While(cond, body) =>
      var bodyAt := p + ExprSize(cond) + 11;
      var end := bodyAt + StmtsSize(body) + 10;
      TestAt(img, p, cond, sc, end) && StmtsAt(img, bodyAt, body, sc) && JumpAt(img, end - 10, p, VM.JUMP)
    case Emit(args) =>
      ExprsAt(img, p, args, sc) && PushAt(img, p + ExprsSize(args), Wrap(|args|))
      && OpAt(img, p + ExprsSize(args) + 9, VM.LOG)
    case Return(val) => ExprAt(img, p, val, sc) && OpAt(img, p + ExprSize(val), VM.RETURN)
    case Stop => OpAt(img, p, VM.STOP)
  }

  ghost predicate StmtsAt(img: Image, p: nat, ss: seq<Stmt>, sc: Scope)
    decreases ss, 0
  {
    ss == [] || (StmtAt(img, p, ss[0], sc) && StmtsAt(img, p + StmtSize(ss[0]), ss[1..], ScopeAfter(ss[0], sc)))
  }

  ghost predicate ParamsAt(img: Image, p: nat, params: seq<Name>, i: nat, sc: Scope)
    decreases params
  {
    params == []
    || (var sc1 := Bind(sc, params[0]);
        PushAt(img, p, sc1.vars[params[0]]) && PushAt(img, p + 9, Wrap(i + 1))
        && OpAt(img, p + 18, VM.CDLOAD) && OpAt(img, p + 19, VM.SSTORE)
        && ParamsAt(img, p + 20, params[1..], i + 1, sc1))
  }

  ghost predicate FnAt(img: Image, p: nat, fn: FnDecl, sc: Scope)
  {
    var body := p + 1 + 20 * |fn.params|;
    OpAt(img, p, VM.POP) && ParamsAt(img, p + 1, fn.params, 0, FreshLocals(sc))
    && StmtsAt(img, body, fn.body, BindAll(FreshLocals(sc), fn.params)) && OpAt(img, body + StmtsSize(fn.body), VM.STOP)
  }

  ghost predicate FnsAt(img: Image, p: nat, fns: seq<FnDecl>, sc: Scope)
    decreases fns
  {
    fns == [] || (FnAt(img, p, fns[0], sc) && FnsAt(img, p + FnSize(fns[0]), fns[1..], sc))
  }

  ghost predicate RoutesAt(img: Image, p: nat, digest: seq<byte> -> u64, fns: seq<FnDecl>, target: nat)
    decreases fns
  {
    fns == []
    || (OpAt(img, p, VM.DUP) && PushAt(img, p + 1, digest(fns[0].name)) && OpAt(img, p + 10, VM.EQ)
        && JumpAt(img, p + 11, target, VM.JUMPI) && RoutesAt(img, p + 21, digest, fns[1..], target + FnSize(fns[0])))
  }

  ghost predicate DispatchAt(img: Image, p: nat, digest: seq<byte> -> u64, fns: seq<FnDecl>, sc: Scope)
  {
    var bodies := p + 12 + 21 * |fns|;
    PushAt(img, p, 0) && OpAt(img, p + 9, VM.CDLOAD) && RoutesAt(img, p + 10, digest, fns, bodies)
    && OpAt(img, bodies - 2, VM.POP) && OpAt(img, bodies - 1, VM.REVERT) && FnsAt(img, bodies, fns, sc)
  }

  ghost predicate ProgramAt(code: seq<byte>, digest: seq<byte> -> u64, items: seq<Item>)
  {
    var img := ImageOf(code);
    var sc := DeclareAll(EMPTY_SCOPE, items);
    var flat, fns := Statements(items), Functions(items);
    StmtsAt(img, 0, flat, sc)
    && (fns == [] || DispatchAt(img, StmtsSize(flat), digest, fns, sc))
    && |code| == ProgramSize(items) && OpAt(img, |code| - 1, VM.STOP)
  }
}
