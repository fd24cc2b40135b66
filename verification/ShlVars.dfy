/**
 Named variables: an interpreter in which locals, state scalars, the entries of each mapping and raw
 storage keys are separate variables, and the conditions under which slots in one storage behave so.
 */
module ShlVars {
  import opened Words
  import opened Shl
  import VM

  datatype Loc = Local(name: Name) | Scalar(name: Name) | Entry(name: Name, key: u64) | Raw(key: u64)

  type Vars = Loc -> u64

  function Assign(vars: Vars, l: Loc, v: u64): (r: Vars)
  {
    (x: Loc) => if x == l then v else vars(x)
  }

  datatype VMem = VMem(vars: Vars, logs: seq<seq<u64>>)

  datatype VResult = VNormal(m: VMem) | VReturned(ret: u64, m: VMem) | VStopped(m: VMem) | VFailed(err: VM.Error)
      | VOutOfFuel

  /* ----- The interpreter on named variables ----- */

  /** Reading finds a local first, assignment a state variable. */
  function ReadLoc(sc: Scope, name: Name): (l: Loc)
  {
    if name in sc.vars then Local(name) else Scalar(name)
  }

  function TargetLoc(sc: Scope, name: Name): (l: Loc)
  {
    if name in sc.state then Scalar(name) else Local(name)
  }

  function VEval(env: Env, sc: Scope, e: Expr, vars: Vars): (r: Eval)
  {
    match e
    case Num(v) => Value(v)
    case Var(name) => Value(vars(ReadLoc(sc, name)))
    case Index(name, key) =>
      var k := VEval(env, sc, key, vars);
      if k.Error? then k else Value(vars(Entry(name, k.v)))
    case Load(key) =>
      var k := VEval(env, sc, key, vars);
      if k.Error? then k else Value(vars(Raw(k.v)))
    case Caller => Value(env.ctx.caller)
    case CallValue => Value(env.ctx.value)
    case Balance => Value(env.ctx.balance)
    case SelfId => Value(env.ctx.self)
    case Arg(i) => Calldata(env, VEval(env, sc, i, vars))
    case Not(x) => Negate(VEval(env, sc, x, vars))
    case Binary(op, l, r) => Combine(op, VEval(env, sc, l, vars), VEval(env, sc, r, vars))
  }

  function VEvals(env: Env, sc: Scope, es: seq<Expr>, vars: Vars): (r: Evals)
  {
    if es == [] then Values([])
    else
      var v := VEval(env, sc, es[0], vars);
      if v.Error? then ErrorIn(v.err)
      else
        var vs := VEvals(env, sc, es[1..], vars);
        if vs.ErrorIn? then vs else Values([v.v] + vs.vs)
  }

  function Put(m: VMem, l: Loc, v: Eval): (r: VResult)
  {
    if v.Error? then VFailed(v.err) else VNormal(m.(vars := Assign(m.vars, l, v.v)))
  }

  function VSimple(env: Env, sc: Scope, s: Stmt, m: VMem): (r: VResult)
    requires !s.If? && !s.While?
  {
    match s
    case Let(name, val) => Put(m, TargetLoc(sc, name), VEval(env, TargetScope(sc, name), val, m.vars))
    case IndexStore(name, key, val) =>
      var k := VEval(env, sc, key, m.vars);
      if k.Error? then VFailed(k.err) else Put(m, Entry(name, k.v), VEval(env, sc, val, m.vars))
    case Store(key, val) =>
      var k := VEval(env, sc, key, m.vars);
      if k.Error? then VFailed(k.err) else Put(m, Raw(k.v), VEval(env, sc, val, m.vars))
    case Require(cond) =>
      var c := VEval(env, sc, cond, m.vars);
      if c.Error? then VFailed(c.err) else if c.v == 0 then VFailed(VM.Reverted) else VNormal(m)
    case Revert => VFailed(VM.Reverted)
    case Emit(args) =>
      var vs := VEvals(env, sc, args, m.vars);
      if vs.ErrorIn? then VFailed(vs.err)
      else if |vs.vs| > VM.MAX_LOG_TOPICS then VFailed(VM.BadCode)
      else VNormal(m.(logs := m.logs + [vs.vs]))
    case Return(val) =>
      var v := VEval(env, sc, val, m.vars);
      if v.Error? then VFailed(v.err) else VReturned(v.v, m)
    case Stop => VStopped(m)
  }

  function VExec(env: Env, sc: Scope, s: Stmt, m: VMem, fuel: nat): (r: VResult)
    decreases fuel, s, 1
  {
    match s
    case If(cond, thn, els) =>
      var c := VEval(env, sc, cond, m.vars);
      if c.Error? then VFailed(c.err)
      else if c.v != 0 then VExecs(env, sc, thn, m, fuel)
      else VExecs(env, ScopeAfterAll(thn, sc), els, m, fuel)
    case While(cond, body) =>
      if fuel == 0 then VOutOfFuel
      else
        var c := VEval(env, sc, cond, m.vars);
        if c.Error? then VFailed(c.err)
        else if c.v == 0 then VNormal(m)
        else
          var r := VExecs(env, sc, body, m, fuel);
          if r.VNormal? then VExec(env, sc, s, r.m, fuel - 1) else r
    case _ => VSimple(env, sc, s, m)
  }

  function VExecs(env: Env, sc: Scope, ss: seq<Stmt>, m: VMem, fuel: nat): (r: VResult)
    decreases fuel, ss, 0
  {
    if ss == [] then VNormal(m)
    else
      var r := VExec(env, sc, ss[0], m, fuel);
      if r.VNormal? then VExecs(env, ScopeAfter(ss[0], sc), ss[1..], r.m, fuel) else r
  }

  /* ----- The variables a run uses ----- */

  function ExprUses(env: Env, sc: Scope, e: Expr, vars: Vars): (u: set<Loc>)
  {
    match e
    case Var(name) => {ReadLoc(sc, name)}
    case Index(name, key) =>
      var k := VEval(env, sc, key, vars);
      ExprUses(env, sc, key, vars) + (if k.Error? then {} else {Entry(name, k.v)})
    case Load(key) =>
      var k := VEval(env, sc, key, vars);
      ExprUses(env, sc, key, vars) + (if k.Error? then {} else {Raw(k.v)})
    case Arg(i) => ExprUses(env, sc, i, vars)
    case Not(x) => ExprUses(env, sc, x, vars)
    case Binary(_, l, r) => ExprUses(env, sc, l, vars) + ExprUses(env, sc, r, vars)
    case _ => {}
  }

  function ExprsUse(env: Env, sc: Scope, es: seq<Expr>, vars: Vars): (u: set<Loc>)
  {
    if es == [] then {} else ExprUses(env, sc, es[0], vars) + ExprsUse(env, sc, es[1..], vars)
  }

  function SimpleUses(env: Env, sc: Scope, s: Stmt, m: VMem): (u: set<Loc>)
    requires !s.If? && !s.While?
  {
    match s
    case Let(name, val) => {TargetLoc(sc, name)} + ExprUses(env, TargetScope(sc, name), val, m.vars)
    case IndexStore(name, key, val) =>
      var k := VEval(env, sc, key, m.vars);
      ExprUses(env, sc, key, m.vars) + ExprUses(env, sc, val, m.vars) + (if k.Error? then {} else {Entry(name, k.v)})
    case Store(key, val) =>
      var k := VEval(env, sc, key, m.vars);
      ExprUses(env, sc, key, m.vars) + ExprUses(env, sc, val, m.vars) + (if k.Error? then {} else {Raw(k.v)})
    case Require(cond) => ExprUses(env, sc, cond, m.vars)
    case Emit(args) => ExprsUse(env, sc, args, m.vars)
    case Return(val) => ExprUses(env, sc, val, m.vars)
    case _ => {}
  }

  function Uses(env: Env, sc: Scope, s: Stmt, m: VMem, fuel: nat): (u: set<Loc>)
    decreases fuel, s, 1
  {
    match s
    case If(cond, thn, els) =>
      var c := VEval(env, sc, cond, m.vars);
      ExprUses(env, sc, cond, m.vars)
      + (if c.Error? then {}
         else if c.v != 0 then AllUses(env, sc, thn, m, fuel)
         else AllUses(env, ScopeAfterAll(thn, sc), els, m, fuel))
    case While(cond, body) =>
      if fuel == 0 then {}
      else
        var c := VEval(env, sc, cond, m.vars);
        ExprUses(env, sc, cond, m.vars)
        + (if c.Error? || c.v == 0 then {}
           else
             var r := VExecs(env, sc, body, m, fuel);
             AllUses(env, sc, body, m, fuel) + (if r.VNormal? then Uses(env, sc, s, r.m, fuel - 1) else {}))
    case _ => SimpleUses(env, sc, s, m)
  }

  function AllUses(env: Env, sc: Scope, ss: seq<Stmt>, m: VMem, fuel: nat): (u: set<Loc>)
    decreases fuel, ss, 0
  {
    if ss == [] then {}
    else
      var r := VExec(env, sc, ss[0], m, fuel);
      Uses(env, sc, ss[0], m, fuel) + (if r.VNormal? then AllUses(env, ScopeAfter(ss[0], sc), ss[1..], r.m, fuel)
                                       else {})
  }

  /* ----- Slots ----- */

  /** Where a variable lives in the storage of a program whose names are those of `top`. */
  function SlotOf(env: Env, top: Scope, l: Loc): (k: u64)
  {
    match l
    case Local(name) => if name in top.vars then top.vars[name] else 0
    case Scalar(name) => MapSlot(top, name)
    case Entry(name, key) => Mix(env, MapSlot(top, name), key)
    case Raw(key) => key
  }

  /** No two of the variables share a slot. */
  ghost predicate Apart(env: Env, top: Scope, used: set<Loc>)
  {
    forall a, b :: a in used && b in used && SlotOf(env, top, a) == SlotOf(env, top, b) ==> a == b
  }

  /** The variables' values are those in their slots. */
  ghost predicate Reflects(env: Env, top: Scope, used: set<Loc>, vars: Vars, store: map<u64, u64>)
  {
    forall l :: l in used ==> vars(l) == VM.Get(store, SlotOf(env, top, l))
  }

  /** The names of `sc` have the slots they have in `top`. */
  ghost predicate Under(sc: Scope, top: Scope)
  {
    sc.state == top.state && forall n :: n in sc.vars ==> n in top.vars && top.vars[n] == sc.vars[n]
  }

  lemma {:induction false} SameValue(env: Env, sc: Scope, top: Scope, e: Expr, vars: Vars, store: map<u64, u64>,
      used: set<Loc>)
    requires Under(sc, top) && CheckExpr(e, sc).None? && ExprUses(env, sc, e, vars) <= used
             && Reflects(env, top, used, vars, store)
    ensures VEval(env, sc, e, vars) == EvalExpr(env, sc, e, store)
    decreases e
  {
    match e
    case Var(name) => assert ReadLoc(sc, name) in used;
    case Index(name, key) =>
      SameValue(env, sc, top, key, vars, store, used);
      var k := VEval(env, sc, key, vars);
      if k.Value? { assert Entry(name, k.v) in used; }
    case Load(key) =>
      SameValue(env, sc, top, key, vars, store, used);
      var k := VEval(env, sc, key, vars);
      if k.Value? { assert Raw(k.v) in used; }
    case Arg(i) => SameValue(env, sc, top, i, vars, store, used);
    case Not(x) => SameValue(env, sc, top, x, vars, store, used);
    case Binary(op, l, r) =>
      SameValue(env, sc, top, l, vars, store, used);
      SameValue(env, sc, top, r, vars, store, used);
    case _ =>
  }

  lemma {:induction false} SameValues(env: Env, sc: Scope, top: Scope, es: seq<Expr>, vars: Vars, store: map<u64, u64>,
      used: set<Loc>)
    requires Under(sc, top) && CheckExprs(es, sc).None? && ExprsUse(env, sc, es, vars) <= used
             && Reflects(env, top, used, vars, store)
    ensures VEvals(env, sc, es, vars) == EvalExprs(env, sc, es, store)
    decreases es
  {
    if es != [] {
      SameValue(env, sc, top, es[0], vars, store, used);
      SameValues(env, sc, top, es[1..], vars, store, used);
    }
  }

  /** Writing a variable is writing its slot, when slots are apart. */
  lemma SameWrite(env: Env, top: Scope, used: set<Loc>, vars: Vars, store: map<u64, u64>, l: Loc, v: u64)
    requires Apart(env, top, used) && l in used && Reflects(env, top, used, vars, store)
    ensures Reflects(env, top, used, Assign(vars, l, v), store[SlotOf(env, top, l) := v])
  {
  }

  /* ----- Scopes only grow ----- */

  lemma UnderTransitive(a: Scope, b: Scope, c: Scope)
    requires Under(a, b) && Under(b, c)
    ensures Under(a, c)
  {
  }

  lemma {:induction false} ScopeGrows(s: Stmt, sc: Scope)
    ensures Under(sc, ScopeAfter(s, sc))
    decreases s, 1
  {
    match s
    case If(_, thn, els) =>
      ScopeGrowsAll(thn, sc);
      ScopeGrowsAll(els, ScopeAfterAll(thn, sc));
      UnderTransitive(sc, ScopeAfterAll(thn, sc), ScopeAfter(s, sc));
    case While(_, body) => ScopeGrowsAll(body, sc);
    case _ =>
  }

  lemma {:induction false} ScopeGrowsAll(ss: seq<Stmt>, sc: Scope)
    ensures Under(sc, ScopeAfterAll(ss, sc))
    decreases ss, 0
  {
    if ss != [] {
      ScopeGrows(ss[0], sc);
      ScopeGrowsAll(ss[1..], ScopeAfter(ss[0], sc));
      UnderTransitive(sc, ScopeAfter(ss[0], sc), ScopeAfterAll(ss, sc));
    }
  }

  /* ----- Statements ----- */

  ghost predicate Agree(env: Env, top: Scope, used: set<Loc>, m: VMem, mem: Memory)
  {
    m.logs == mem.logs && Reflects(env, top, used, m.vars, mem.store)
  }

  ghost predicate Same(env: Env, top: Scope, used: set<Loc>, v: VResult, r: Result)
  {
    match v
    case VNormal(m) => r.Normal? && Agree(env, top, used, m, r.mem)
    case VReturned(ret, m) => r.Returned? && r.ret == ret && Agree(env, top, used, m, r.mem)
    case VStopped(m) => r.Stopped? && Agree(env, top, used, m, r.mem)
    case VFailed(e) => r == Failed(e)
    case VOutOfFuel => r == OutOfFuel
  }

  lemma SamePut(env: Env, top: Scope, used: set<Loc>, m: VMem, mem: Memory, l: Loc, v: Eval)
    requires Apart(env, top, used) && l in used && Agree(env, top, used, m, mem)
    ensures Same(env, top, used, Put(m, l, v), WriteTo(mem, Value(SlotOf(env, top, l)), v)) == true
  {
    if v.Value? { SameWrite(env, top, used, m.vars, mem.store, l, v.v); }
  }

  lemma {:induction false} SameLet(env: Env, sc: Scope, top: Scope, name: Name, val: Expr, m: VMem, mem: Memory,
      fuel: nat, used: set<Loc>)
    requires Apart(env, top, used) && Agree(env, top, used, m, mem) && Under(TargetScope(sc, name), top)
    requires CheckStmt(Let(name, val), sc).None? && SimpleUses(env, sc, Let(name, val), m) <= used
    ensures Same(env, top, used, VSimple(env, sc, Let(name, val), m),
                 ExecStmt(env, sc, Let(name, val), mem, fuel)) == true
  {
    var sc1, l := TargetScope(sc, name), TargetLoc(sc, name);
    SameValue(env, sc1, top, val, m.vars, mem.store, used);
    assert SlotOf(env, top, l) == TargetSlot(sc, name);
    SamePut(env, top, used, m, mem, l, EvalExpr(env, sc1, val, mem.store));
  }

  lemma {:induction false} SameSimple(env: Env, sc: Scope, top: Scope, s: Stmt, m: VMem, mem: Memory, fuel: nat,
      used: set<Loc>)
    requires !s.If? && !s.While? && Apart(env, top, used) && Agree(env, top, used, m, mem)
             && Under(ScopeAfter(s, sc), top)
    requires CheckStmt(s, sc).None? && SimpleUses(env, sc, s, m) <= used
    ensures Same(env, top, used, VSimple(env, sc, s, m), ExecStmt(env, sc, s, mem, fuel)) == true
  {
    match s
    case Let(name, val) => SameLet(env, sc, top, name, val, m, mem, fuel, used);
    case IndexStore(name, key, val) =>
      SameValue(env, sc, top, key, m.vars, mem.store, used);
      SameValue(env, sc, top, val, m.vars, mem.store, used);
      var k := VEval(env, sc, key, m.vars);
      if k.Value? { SamePut(env, top, used, m, mem, Entry(name, k.v), VEval(env, sc, val, m.vars)); }
    case Store(key, val) =>
      SameValue(env, sc, top, key, m.vars, mem.store, used);
      SameValue(env, sc, top, val, m.vars, mem.store, used);
      var k := VEval(env, sc, key, m.vars);
      if k.Value? { SamePut(env, top, used, m, mem, Raw(k.v), VEval(env, sc, val, m.vars)); }
    case Require(cond) => SameValue(env, sc, top, cond, m.vars, mem.store, used);
    case Emit(args) => SameValues(env, sc, top, args, m.vars, mem.store, used);
    case Return(val) => SameValue(env, sc, top, val, m.vars, mem.store, used);
    case _ =>
  }

  lemma {:induction false} SameStmt(env: Env, sc: Scope, top: Scope, s: Stmt, m: VMem, mem: Memory, fuel: nat,
      used: set<Loc>)
    requires Apart(env, top, used) && Agree(env, top, used, m, mem) && Under(ScopeAfter(s, sc), top)
    requires CheckStmt(s, sc).None? && Uses(env, sc, s, m, fuel) <= used
    ensures Same(env, top, used, VExec(env, sc, s, m, fuel), ExecStmt(env, sc, s, mem, fuel)) == true
    decreases fuel, s, 1
  {
    ScopeGrows(s, sc);
    UnderTransitive(sc, ScopeAfter(s, sc), top);
    match s
    case If(cond, thn, els) =>
      SameValue(env, sc, top, cond, m.vars, mem.store, used);
      ScopeGrowsAll(els, ScopeAfterAll(thn, sc));
      UnderTransitive(ScopeAfterAll(thn, sc), ScopeAfter(s, sc), top);
      var c := VEval(env, sc, cond, m.vars);
      if c.Value? && c.v != 0 {
        SameBlock(env, sc, top, thn, m, mem, fuel, used);
      } else if c.Value? {
        SameBlock(env, ScopeAfterAll(thn, sc), top, els, m, mem, fuel, used);
      }
    case While(cond, body) =>
      if fuel > 0 {
        SameValue(env, sc, top, cond, m.vars, mem.store, used);
        var c := VEval(env, sc, cond, m.vars);
        if c.Value? && c.v != 0 {
          SameBlock(env, sc, top, body, m, mem, fuel, used);
          var v, r := VExecs(env, sc, body, m, fuel), ExecStmts(env, sc, body, mem, fuel);
          if v.VNormal? { SameStmt(env, sc, top, s, v.m, r.mem, fuel - 1, used); }
        }
      }
    case _ => SameSimple(env, sc, top, s, m, mem, fuel, used);
  }

  lemma {:induction false} SameBlock(env: Env, sc: Scope, top: Scope, ss: seq<Stmt>, m: VMem, mem: Memory, fuel: nat,
      used: set<Loc>)
    requires Apart(env, top, used) && Agree(env, top, used, m, mem) && Under(ScopeAfterAll(ss, sc), top)
    requires CheckStmts(ss, sc).None? && AllUses(env, sc, ss, m, fuel) <= used
    ensures Same(env, top, used, VExecs(env, sc, ss, m, fuel), ExecStmts(env, sc, ss, mem, fuel)) == true
    decreases fuel, ss, 0
  {
    if ss != [] {
      ScopeGrowsAll(ss[1..], ScopeAfter(ss[0], sc));
      UnderTransitive(ScopeAfter(ss[0], sc), ScopeAfterAll(ss, sc), top);
      SameStmt(env, sc, top, ss[0], m, mem, fuel, used);
      var v, r := VExec(env, sc, ss[0], m, fuel), ExecStmt(env, sc, ss[0], mem, fuel);
      if v.VNormal? { SameBlock(env, ScopeAfter(ss[0], sc), top, ss[1..], v.m, r.mem, fuel, used); }
    }
  }
}
