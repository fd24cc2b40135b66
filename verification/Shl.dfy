/** The SHL language: its syntax tree, the compiler's scoping rules, and a direct interpreter. */
module Shl {
  import opened Words
  import VM

  /** Go strings are byte strings. */
  type Name = seq<byte>

  datatype BinOp = Plus | Minus | Times | Over | Rem | Equal | Less | Greater | Conj | Disj | NotEqual | AtMost
      | AtLeast

  datatype Expr =
    | Num(v: u64)
    | Var(name: Name)
    | Index(name: Name, key: Expr)
    | Load(key: Expr)
    | Caller | CallValue | Balance | SelfId
    | Arg(index: Expr)
    | Not(x: Expr)
    | Binary(op: BinOp, l: Expr, r: Expr)

  datatype Stmt =
    | Let(name: Name, val: Expr)
    | IndexStore(name: Name, key: Expr, val: Expr)
    | Store(key: Expr, val: Expr)
    | Require(cond: Expr)
    | Revert
    | If(cond: Expr, thn: seq<Stmt>, els: seq<Stmt>)
    | While(cond: Expr, body: seq<Stmt>)
    | Emit(args: seq<Expr>)
    | Return(val: Expr)
    | Stop

  datatype FnDecl = FnDecl(name: Name, params: seq<Name>, body: seq<Stmt>)

  datatype Item = StateItem(name: Name) | FnItem(fn: FnDecl) | StmtItem(stmt: Stmt)

  datatype CompileError = UndefinedVariable(name: Name) | NotAMapping(name: Name)

  /* ----- Scopes: where a name lives ----- */

  const LOCAL_BASE: u64 := 0xFFFF_FFFF_0000_0000
  const STATE_BASE: u64 := 0xFFFF_FFF0_0000_0000

  datatype Scope = Scope(vars: map<Name, u64>, next: u64, state: map<Name, u64>, nextState: u64)

  const EMPTY_SCOPE := Scope(map[], LOCAL_BASE, map[], STATE_BASE)

  /** The scope after `slot(name)`, which allocates on first use. */
  function Bind(sc: Scope, name: Name): (r: Scope)
  {
    if name in sc.vars then sc else sc.(vars := sc.vars[name := sc.next], next := Wrap(sc.next + 1))
  }

  function Declare(sc: Scope, name: Name): (r: Scope)
  {
    if name in sc.state then sc
    else sc.(state := sc.state[name := sc.nextState], nextState := Wrap(sc.nextState + 1))
  }

  function BindAll(sc: Scope, names: seq<Name>): (r: Scope)
    decreases names
  {
    if names == [] then sc else BindAll(Bind(sc, names[0]), names[1..])
  }

  /** Each function starts with no locals; state variables are shared. */
  function FreshLocals(sc: Scope): (r: Scope)
  {
    sc.(vars := map[], next := LOCAL_BASE)
  }

  function DeclareAll(sc: Scope, items: seq<Item>): (r: Scope)
    decreases items
  {
    if items == [] then sc
    else DeclareAll(if items[0].StateItem? then Declare(sc, items[0].name) else sc, items[1..])
  }

  function Functions(items: seq<Item>): (r: seq<FnDecl>)
  {
    if items == [] then []
    else (if items[0].FnItem? then [items[0].fn] else []) + Functions(items[1..])
  }

  function Statements(items: seq<Item>): (r: seq<Stmt>)
  {
    if items == [] then []
    else (if items[0].StmtItem? then [items[0].stmt] else []) + Statements(items[1..])
  }

  /** Assignment looks for a state name first. */
  function TargetScope(sc: Scope, name: Name): (r: Scope)
    ensures name in r.state || name in r.vars
  {
    if name in sc.state then sc else Bind(sc, name)
  }

  function TargetSlot(sc: Scope, name: Name): (r: u64)
  {
    if name in sc.state then sc.state[name]
    else if name in sc.vars then sc.vars[name] else sc.next
  }

  /** Reading looks for a local first. */
  function ReadSlot(sc: Scope, name: Name): (r: u64)
  {
    if name in sc.vars then sc.vars[name] else if name in sc.state then sc.state[name] else 0
  }

  function MapSlot(sc: Scope, name: Name): (r: u64)
  {
    if name in sc.state then sc.state[name] else 0
  }

  /** The scope the compiler is in once it has generated a statement (in textual order). */
  function ScopeAfter(s: Stmt, sc: Scope): (r: Scope)
    decreases s, 1
  {
    match s
    case Let(name, _) => TargetScope(sc, name)
    case If(_, thn, els) => ScopeAfterAll(els, ScopeAfterAll(thn, sc))
    case While(_, body) => ScopeAfterAll(body, sc)
    case _ => sc
  }

  function ScopeAfterAll(ss: seq<Stmt>, sc: Scope): (r: Scope)
    decreases ss, 0
  {
    if ss == [] then sc else ScopeAfterAll(ss[1..], ScopeAfter(ss[0], sc))
  }

  /* ----- What the compiler refuses: the first error, in the order it meets them ----- */

  function Then(a: Option<CompileError>, b: Option<CompileError>): (r: Option<CompileError>)
  {
    if a.Some? then a else b
  }

  function CheckExpr(e: Expr, sc: Scope): (r: Option<CompileError>)
  {
    match e
    case Var(name) =>
      if name in sc.vars || name in sc.state then None else Some(UndefinedVariable(name))
    case Index(name, key) => if name in sc.state then CheckExpr(key, sc) else Some(NotAMapping(name))
    case Load(key) => CheckExpr(key, sc)
    case Arg(i) => CheckExpr(i, sc)
    case Not(x) => CheckExpr(x, sc)
    case Binary(_, l, r) => Then(CheckExpr(l, sc), CheckExpr(r, sc))
    case _ => None
  }

  function CheckExprs(es: seq<Expr>, sc: Scope): (r: Option<CompileError>)
  {
    if es == [] then None else Then(CheckExpr(es[0], sc), CheckExprs(es[1..], sc))
  }

  function CheckStmt(s: Stmt, sc: Scope): (r: Option<CompileError>)
    decreases s, 1
  {
    match s
    case Let(name, val) => CheckExpr(val, TargetScope(sc, name))
    case IndexStore(name, key, val) =>
      if name in sc.state then Then(CheckExpr(key, sc), CheckExpr(val, sc)) else Some(NotAMapping(name))
    case Store(key, val) => Then(CheckExpr(key, sc), CheckExpr(val, sc))
    case Require(cond) => CheckExpr(cond, sc)
    case If(cond, thn, els) =>
      Then(CheckExpr(cond, sc), Then(CheckStmts(thn, sc), CheckStmts(els, ScopeAfterAll(thn, sc))))
    case While(cond, body) => Then(CheckExpr(cond, sc), CheckStmts(body, sc))
    case Emit(args) => CheckExprs(args, sc)
    case Return(val) => CheckExpr(val, sc)
    case _ => None
  }

  function CheckStmts(ss: seq<Stmt>, sc: Scope): (r: Option<CompileError>)
    decreases ss, 0
  {
    if ss == [] then None else Then(CheckStmt(ss[0], sc), CheckStmts(ss[1..], ScopeAfter(ss[0], sc)))
  }

  function CheckFns(fns: seq<FnDecl>, sc: Scope): (r: Option<CompileError>)
  {
    if fns == [] then None
    else Then(CheckStmts(fns[0].body, BindAll(FreshLocals(sc), fns[0].params)), CheckFns(fns[1..], sc))
  }

  function CheckProgram(items: seq<Item>): (r: Option<CompileError>)
  {
    var sc := DeclareAll(EMPTY_SCOPE, items);
    Then(CheckStmts(Statements(items), sc), CheckFns(Functions(items), sc))
  }

  /* ----- The interpreter ----- */

  /** What a program sees of one call. */
  datatype Env = Env(ctx: VM.Context, input: seq<byte>, digest: seq<byte> -> u64)

  datatype Eval = Value(v: u64) | Error(err: VM.Error)

  /** Storage and the events so far. */
  datatype Memory = Memory(store: map<u64, u64>, logs: seq<seq<u64>>)

  datatype Result =
    | Normal(mem: Memory)
    | Returned(ret: u64, mem: Memory)
    | Stopped(mem: Memory)
    | Failed(err: VM.Error)
    | OutOfFuel

  function Mix(env: Env, base: u64, key: u64): (r: u64)
  {
    env.digest(U64Bytes(base) + U64Bytes(key))
  }

  function Exact(x: int): (r: Eval)
  {
    if 0 <= x < TWO64 then Value(x) else Error(VM.Overflow)
  }

  function Quotient(a: u64, b: u64): (r: Eval)
  {
    if b == 0 then Error(VM.DivZero) else Value(VM.Quotient(a, b).value)
  }

  function Remainder(a: u64, b: u64): (r: Eval)
  {
    if b == 0 then Error(VM.DivZero) else Value(a % b)
  }

  /** `+ - *` on the integers, refused when the result is not a word; `&&` and `||` are bitwise. */
  function Apply(op: BinOp, a: u64, b: u64): (r: Eval)
  {
    match op
    case Plus => Exact(a + b)
    case Minus => Exact(a - b)
    case Times => Exact(a * b)
    case Over => Quotient(a, b)
    case Rem => Remainder(a, b)
    case Equal => Value(B2U(a == b))
    case Less => Value(B2U(a < b))
    case Greater => Value(B2U(a > b))
    case Conj => Value(And64(a, b))
    case Disj => Value(Or64(a, b))
    case NotEqual => Value(B2U(a != b))
    case AtMost => Value(B2U(a <= b))
    case AtLeast => Value(B2U(a >= b))
  }

  /** The left operand is evaluated first, so its error is the one reported. */
  function Combine(op: BinOp, a: Eval, b: Eval): (r: Eval)
  {
    if a.Error? then a else if b.Error? then b else Apply(op, a.v, b.v)
  }

  function ArgValue(env: Env, i: u64): (r: Eval)
  {
    match VM.Word(env.input, i)
    case None => Error(VM.Panic)
    case Some(v) => Value(v)
  }

  function Calldata(env: Env, i: Eval): (r: Eval)
  {
    if i.Error? then i else ArgValue(env, i.v)
  }

  function Fetch(store: map<u64, u64>, k: Eval): (r: Eval)
  {
    if k.Error? then k else Value(VM.Get(store, k.v))
  }

  /** The storage key of a mapping entry. */
  function MapKey(env: Env, slot: u64, k: Eval): (r: Eval)
  {
    if k.Error? then k else Value(Mix(env, slot, k.v))
  }

  function Negate(a: Eval): (r: Eval)
  {
    if a.Error? then a else Value(B2U(a.v == 0))
  }

  function EvalExpr(env: Env, sc: Scope, e: Expr, store: map<u64, u64>): (r: Eval)
  {
    match e
    case Num(v) => Value(v)
    case Var(name) => Value(VM.Get(store, ReadSlot(sc, name)))
    case Index(name, key) => Fetch(store, MapKey(env, MapSlot(sc, name), EvalExpr(env, sc, key, store)))
    case Load(key) => Fetch(store, EvalExpr(env, sc, key, store))
    case Caller => Value(env.ctx.caller)
    case CallValue => Value(env.ctx.value)
    case Balance => Value(env.ctx.balance)
    case SelfId => Value(env.ctx.self)
    case Arg(i) => Calldata(env, EvalExpr(env, sc, i, store))
    case Not(x) => Negate(EvalExpr(env, sc, x, store))
    case Binary(op, l, r) => Combine(op, EvalExpr(env, sc, l, store), EvalExpr(env, sc, r, store))
  }

  datatype Evals = Values(vs: seq<u64>) | ErrorIn(err: VM.Error)

  function EvalExprs(env: Env, sc: Scope, es: seq<Expr>, store: map<u64, u64>): (r: Evals)
    ensures r.Values? ==> |r.vs| == |es|
  {
    if es == [] then Values([])
    else
      var v := EvalExpr(env, sc, es[0], store);
      if v.Error? then ErrorIn(v.err)
      else
        var vs := EvalExprs(env, sc, es[1..], store);
        if vs.ErrorIn? then vs else Values([v.v] + vs.vs)
  }

  function WriteTo(mem: Memory, k: Eval, v: Eval): (r: Result)
  {
    if k.Error? then Failed(k.err)
    else if v.Error? then Failed(v.err)
    else Normal(mem.(store := mem.store[k.v := v.v]))
  }

  function Guard(mem: Memory, c: Eval): (r: Result)
  {
    if c.Error? then Failed(c.err) else if c.v == 0 then Failed(VM.Reverted) else Normal(mem)
  }

  function Log(mem: Memory, vs: Evals): (r: Result)
  {
    if vs.ErrorIn? then Failed(vs.err)
    else if |vs.vs| > VM.MAX_LOG_TOPICS then Failed(VM.BadCode)
    else Normal(mem.(logs := mem.logs + [vs.vs]))
  }

  function Answer(mem: Memory, v: Eval): (r: Result)
  {
    if v.Error? then Failed(v.err) else Returned(v.v, mem)
  }

  /** `fuel` bounds the loop tests still allowed; running out of it is its own result. */
  function ExecStmt(env: Env, sc: Scope, s: Stmt, mem: Memory, fuel: nat): (r: Result)
    decreases fuel, s, 1
  {
    match s
    case Let(name, val) =>
      WriteTo(mem, Value(TargetSlot(sc, name)), EvalExpr(env, TargetScope(sc, name), val, mem.store))
    case IndexStore(name, key, val) =>
      WriteTo(mem, MapKey(env, MapSlot(sc, name), EvalExpr(env, sc, key, mem.store)), EvalExpr(env, sc, val, mem.store))
    case Store(key, val) =>
      WriteTo(mem, EvalExpr(env, sc, key, mem.store), EvalExpr(env, sc, val, mem.store))
    case Require(cond) => Guard(mem, EvalExpr(env, sc, cond, mem.store))
    case Revert => Failed(VM.Reverted)
    case If(cond, thn, els) =>
      var c := EvalExpr(env, sc, cond, mem.store);
      if c.Error? then Failed(c.err)
      else if c.v != 0 then ExecStmts(env, sc, thn, mem, fuel)
      else ExecStmts(env, ScopeAfterAll(thn, sc), els, mem, fuel)
    case While(cond, body) =>
      if fuel == 0 then OutOfFuel
      else
        var c := EvalExpr(env, sc, cond, mem.store);
        if c.Error? then Failed(c.err)
        else if c.v == 0 then Normal(mem)
        else
          var r := ExecStmts(env, sc, body, mem, fuel);
          if r.Normal? then ExecStmt(env, sc, s, r.mem, fuel - 1) else r
    case Emit(args) => Log(mem, EvalExprs(env, sc, args, mem.store))
    case Return(val) => Answer(mem, EvalExpr(env, sc, val, mem.store))
    case Stop => Stopped(mem)
  }

  function ExecStmts(env: Env, sc: Scope, ss: seq<Stmt>, mem: Memory, fuel: nat): (r: Result)
    decreases fuel, ss, 0
  {
    if ss == [] then Normal(mem)
    else
      var r := ExecStmt(env, sc, ss[0], mem, fuel);
      if r.Normal? then ExecStmts(env, ScopeAfter(ss[0], sc), ss[1..], r.mem, fuel) else r
  }

  function Selector(env: Env, name: Name): (r: u64)
  {
    env.digest(name)
  }

  /** Parameter i is calldata word i+1, stored in its slot; `i` parameters are already bound. */
  function BindParams(env: Env, sc: Scope, params: seq<Name>, i: nat, mem: Memory): (r: Result)
    decreases params
  {
    if params == [] then Normal(mem)
    else
      var sc1 := Bind(sc, params[0]);
      var r := WriteTo(mem, Value(sc1.vars[params[0]]), ArgValue(env, Wrap(i + 1)));
      if r.Normal? then BindParams(env, sc1, params[1..], i + 1, r.mem) else r
  }

  /** Running off the end is a stop. */
  function Ended(r: Result): (r': Result)
  {
    if r.Normal? then Stopped(r.mem) else r
  }

  /** A function is called with its parameters bound. */
  function CallFn(env: Env, sc: Scope, fn: FnDecl, mem: Memory, fuel: nat): (r: Result)
  {
    var p := BindParams(env, FreshLocals(sc), fn.params, 0, mem);
    if p.Normal? then Ended(ExecStmts(env, BindAll(FreshLocals(sc), fn.params), fn.body, p.mem, fuel)) else p
  }

  /** The first function with the called selector runs; an unknown selector reverts. */
  function Route(env: Env, sc: Scope, fns: seq<FnDecl>, sel: u64, mem: Memory, fuel: nat): (r: Result)
  {
    if fns == [] then Failed(VM.Reverted)
    else if Selector(env, fns[0].name) == sel then CallFn(env, sc, fns[0], mem, fuel)
    else Route(env, sc, fns[1..], sel, mem, fuel)
  }

  /** The call itself: the function that calldata word 0 selects. */
  function Call(env: Env, sc: Scope, fns: seq<FnDecl>, mem: Memory, fuel: nat): (r: Result)
  {
    var sel := ArgValue(env, 0);
    if sel.Error? then Failed(sel.err) else Route(env, sc, fns, sel.v, mem, fuel)
  }

  /** Top-level statements first, then the called function, if there are functions. */
  function ExecProgram(env: Env, items: seq<Item>, store: map<u64, u64>, fuel: nat): (r: Result)
  {
    var sc := DeclareAll(EMPTY_SCOPE, items);
    var r := ExecStmts(env, sc, Statements(items), Memory(store, []), fuel);
    if r.Normal? && Functions(items) != [] then Call(env, sc, Functions(items), r.mem, fuel) else Ended(r)
  }
}
