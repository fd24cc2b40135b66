/** Slot allocation keeps variables apart, so compiled programs behave as if they were separate. */
module ShlSlots {
  import opened Words
  import opened Shl
  import opened ShlVars
  import opened Sets
  import VM

  /* ----- Allocation ----- */

  ghost predicate Packed(slots: map<Name, u64>, base: int, next: int)
  {
    next == base + |slots| && (forall n :: n in slots ==> base <= slots[n] < next)
    && forall m, n :: m in slots && n in slots && slots[m] == slots[n] ==> m == n
  }

  /** Slots are handed out one after the other, locals and state variables each in their own range. */
  ghost predicate Allocated(sc: Scope)
  {
    Packed(sc.vars, LOCAL_BASE, sc.next) && Packed(sc.state, STATE_BASE, sc.nextState) && sc.nextState <= LOCAL_BASE
  }

  /** Fewer than 2^32 locals and no more than 15 * 2^32 state variables. */
  ghost predicate Roomy(sc: Scope)
  {
    |sc.vars| < TWO64 - LOCAL_BASE && |sc.state| <= LOCAL_BASE - STATE_BASE
  }

  lemma PackedGrows(slots: map<Name, u64>, base: int, next: u64, name: Name)
    requires Packed(slots, base, next) && name !in slots
    ensures Packed(slots[name := next], base, next + 1)
  {
    assert slots[name := next].Keys == slots.Keys + {name};
    assert |slots[name := next]| == |slots| + 1;
  }

  lemma BindAllocates(sc: Scope, name: Name)
    requires Allocated(sc) && Roomy(Bind(sc, name))
    ensures Allocated(Bind(sc, name))
  {
    if name !in sc.vars { PackedGrows(sc.vars, LOCAL_BASE, sc.next, name); }
  }

  lemma DeclareAllocates(sc: Scope, name: Name)
    requires Allocated(sc) && Roomy(Declare(sc, name))
    ensures Allocated(Declare(sc, name))
  {
    if name !in sc.state { PackedGrows(sc.state, STATE_BASE, sc.nextState, name); }
  }

  lemma RoomyUnder(sc: Scope, top: Scope)
    requires Under(sc, top) && Roomy(top)
    ensures Roomy(sc)
  {
    assert sc.vars.Keys <= top.vars.Keys;
    SubsetSize(sc.vars.Keys, top.vars.Keys);
    assert |sc.vars| == |sc.vars.Keys| && |top.vars| == |top.vars.Keys|;
  }

  lemma {:induction false} StmtAllocates(s: Stmt, sc: Scope)
    requires Allocated(sc) && Roomy(ScopeAfter(s, sc))
    ensures Allocated(ScopeAfter(s, sc))
    decreases s, 1
  {
    match s
    case Let(name, _) => if name !in sc.state { BindAllocates(sc, name); }
    case If(_, thn, els) =>
      ScopeGrowsAll(els, ScopeAfterAll(thn, sc));
      RoomyUnder(ScopeAfterAll(thn, sc), ScopeAfter(s, sc));
      BlockAllocates(thn, sc);
      BlockAllocates(els, ScopeAfterAll(thn, sc));
    case While(_, body) => BlockAllocates(body, sc);
    case _ =>
  }

  lemma {:induction false} BlockAllocates(ss: seq<Stmt>, sc: Scope)
    requires Allocated(sc) && Roomy(ScopeAfterAll(ss, sc))
    ensures Allocated(ScopeAfterAll(ss, sc))
    decreases ss, 0
  {
    if ss != [] {
      ScopeGrowsAll(ss[1..], ScopeAfter(ss[0], sc));
      RoomyUnder(ScopeAfter(ss[0], sc), ScopeAfterAll(ss, sc));
      StmtAllocates(ss[0], sc);
      BlockAllocates(ss[1..], ScopeAfter(ss[0], sc));
    }
  }

  lemma {:induction false} ParamsGrow(sc: Scope, params: seq<Name>)
    ensures Under(sc, BindAll(sc, params))
    decreases params
  {
    if params != [] {
      ParamsGrow(Bind(sc, params[0]), params[1..]);
      UnderTransitive(sc, Bind(sc, params[0]), BindAll(sc, params));
    }
  }

  lemma {:induction false} ParamsAllocate(sc: Scope, params: seq<Name>)
    requires Allocated(sc) && Roomy(BindAll(sc, params))
    ensures Allocated(BindAll(sc, params))
    decreases params
  {
    if params != [] {
      ParamsGrow(Bind(sc, params[0]), params[1..]);
      RoomyUnder(Bind(sc, params[0]), BindAll(sc, params));
      BindAllocates(sc, params[0]);
      ParamsAllocate(Bind(sc, params[0]), params[1..]);
    }
  }

  lemma {:induction false} StateAllocates(sc: Scope, items: seq<Item>)
    requires Allocated(sc) && Roomy(DeclareAll(sc, items))
    ensures Allocated(DeclareAll(sc, items)) && DeclareAll(sc, items).vars == sc.vars
            && sc.state.Keys <= DeclareAll(sc, items).state.Keys
    decreases items
  {
    if items != [] {
      var sc1 := if items[0].StateItem? then Declare(sc, items[0].name) else sc;
      StateGrows(sc1, items[1..]);
      SubsetSize(sc1.state.Keys, DeclareAll(sc, items).state.Keys);
      assert |sc1.state| == |sc1.state.Keys|;
      if items[0].StateItem? { DeclareAllocates(sc, items[0].name); }
      StateAllocates(sc1, items[1..]);
    }
  }

  lemma {:induction false} StateGrows(sc: Scope, items: seq<Item>)
    ensures DeclareAll(sc, items).vars == sc.vars && sc.state.Keys <= DeclareAll(sc, items).state.Keys
    decreases items
  {
    if items != [] { StateGrows(if items[0].StateItem? then Declare(sc, items[0].name) else sc, items[1..]); }
  }

  lemma EmptyIsAllocated()
    ensures Allocated(EMPTY_SCOPE)
  {
  }

  /* ----- The variables of a program ----- */

  /** A name the program declares. */
  ghost predicate Known(top: Scope, l: Loc)
  {
    match l
    case Local(name) => name in top.vars
    case Scalar(name) => name in top.state
    case Entry(name, _) => name in top.state
    case Raw(_) => true
  }

  ghost predicate AllKnown(top: Scope, used: set<Loc>)
  {
    forall l :: l in used ==> Known(top, l)
  }

  lemma {:induction false} ExprKnown(env: Env, sc: Scope, top: Scope, e: Expr, vars: Vars)
    requires Under(sc, top) && CheckExpr(e, sc).None?
    ensures AllKnown(top, ExprUses(env, sc, e, vars))
    decreases e
  {
    match e
    case Index(_, key) => ExprKnown(env, sc, top, key, vars);
    case Load(key) => ExprKnown(env, sc, top, key, vars);
    case Arg(i) => ExprKnown(env, sc, top, i, vars);
    case Not(x) => ExprKnown(env, sc, top, x, vars);
    case Binary(_, l, r) =>
      ExprKnown(env, sc, top, l, vars);
      ExprKnown(env, sc, top, r, vars);
    case _ =>
  }

  lemma {:induction false} ExprsKnown(env: Env, sc: Scope, top: Scope, es: seq<Expr>, vars: Vars)
    requires Under(sc, top) && CheckExprs(es, sc).None?
    ensures AllKnown(top, ExprsUse(env, sc, es, vars))
    decreases es
  {
    if es != [] {
      ExprKnown(env, sc, top, es[0], vars);
      ExprsKnown(env, sc, top, es[1..], vars);
    }
  }

  lemma {:induction false} SimpleKnown(env: Env, sc: Scope, top: Scope, s: Stmt, m: VMem)
    requires !s.If? && !s.While? && Under(ScopeAfter(s, sc), top) && Under(sc, top) && CheckStmt(s, sc).None?
    ensures AllKnown(top, SimpleUses(env, sc, s, m))
  {
    match s
    case Let(name, val) => ExprKnown(env, TargetScope(sc, name), top, val, m.vars);
    case IndexStore(_, key, val) => ExprKnown(env, sc, top, key, m.vars); ExprKnown(env, sc, top, val, m.vars);
    case Store(key, val) => ExprKnown(env, sc, top, key, m.vars); ExprKnown(env, sc, top, val, m.vars);
    case Require(cond) => ExprKnown(env, sc, top, cond, m.vars);
    case Emit(args) => ExprsKnown(env, sc, top, args, m.vars);
    case Return(val) => ExprKnown(env, sc, top, val, m.vars);
    case _ =>
  }

  lemma {:induction false} StmtKnown(env: Env, sc: Scope, top: Scope, s: Stmt, m: VMem, fuel: nat)
    requires Under(ScopeAfter(s, sc), top) && CheckStmt(s, sc).None?
    ensures AllKnown(top, Uses(env, sc, s, m, fuel))
    decreases fuel, s, 1
  {
    ScopeGrows(s, sc);
    UnderTransitive(sc, ScopeAfter(s, sc), top);
    match s
    case If(cond, thn, els) =>
      ExprKnown(env, sc, top, cond, m.vars);
      ScopeGrowsAll(els, ScopeAfterAll(thn, sc));
      UnderTransitive(ScopeAfterAll(thn, sc), ScopeAfter(s, sc), top);
      BlockKnown(env, sc, top, thn, m, fuel);
      BlockKnown(env, ScopeAfterAll(thn, sc), top, els, m, fuel);
    case While(cond, body) =>
      if fuel > 0 {
        ExprKnown(env, sc, top, cond, m.vars);
        BlockKnown(env, sc, top, body, m, fuel);
        var r := VExecs(env, sc, body, m, fuel);
        if r.VNormal? { StmtKnown(env, sc, top, s, r.m, fuel - 1); }
      }
    case _ => SimpleKnown(env, sc, top, s, m);
  }

  lemma {:induction false} BlockKnown(env: Env, sc: Scope, top: Scope, ss: seq<Stmt>, m: VMem, fuel: nat)
    requires Under(ScopeAfterAll(ss, sc), top) && CheckStmts(ss, sc).None?
    ensures AllKnown(top, AllUses(env, sc, ss, m, fuel))
    decreases fuel, ss, 0
  {
    if ss != [] {
      ScopeGrowsAll(ss[1..], ScopeAfter(ss[0], sc));
      UnderTransitive(ScopeAfter(ss[0], sc), ScopeAfterAll(ss, sc), top);
      StmtKnown(env, sc, top, ss[0], m, fuel);
      var r := VExec(env, sc, ss[0], m, fuel);
      if r.VNormal? { BlockKnown(env, ScopeAfter(ss[0], sc), top, ss[1..], r.m, fuel); }
    }
  }

  /** Mapping entries and raw keys stay out of the reserved slots and out of each other's way. */
  ghost predicate Clear(env: Env, top: Scope, used: set<Loc>)
  {
    (forall l :: l in used && (l.Entry? || l.Raw?) ==> SlotOf(env, top, l) < STATE_BASE)
    && (forall a, b :: a in used && b in used && (a.Entry? || a.Raw?) && (b.Entry? || b.Raw?)
                       && SlotOf(env, top, a) == SlotOf(env, top, b)
          ==> a == b)
  }

  /** Locals and state variables never share a slot; what could collide is hashed and raw keys alone. */
  lemma AllocationKeepsApart(env: Env, top: Scope, used: set<Loc>)
    requires Allocated(top) && AllKnown(top, used) && Clear(env, top, used)
    ensures Apart(env, top, used)
  {
    forall a, b | a in used && b in used && SlotOf(env, top, a) == SlotOf(env, top, b) ensures a == b {
      assert Known(top, a) && Known(top, b);
    }
  }

  /** Each variable with the value in its slot. */
  ghost function ViewOf(env: Env, top: Scope, store: map<u64, u64>): (vars: Vars)
  {
    (l: Loc) => VM.Get(store, SlotOf(env, top, l))
  }

  /**
   Variable independence. Statements that compile, run on any storage, do what they do when locals,
   state variables, the entries of each mapping and raw keys are separate variables, provided that the
   hashed and raw keys the run uses stay out of the reserved ranges and out of each other's way.
   */
  lemma {:induction false} VariablesAreIndependent(env: Env, sc: Scope, ss: seq<Stmt>, mem: Memory, fuel: nat)
    requires Allocated(sc) && CheckStmts(ss, sc).None? && Roomy(ScopeAfterAll(ss, sc))
    requires var top := ScopeAfterAll(ss, sc);
             Clear(env, top, AllUses(env, sc, ss, VMem(ViewOf(env, top, mem.store), mem.logs), fuel))
    ensures var top := ScopeAfterAll(ss, sc); var m := VMem(ViewOf(env, top, mem.store), mem.logs);
            Same(env, top, AllUses(env, sc, ss, m, fuel), VExecs(env, sc, ss, m, fuel),
                 ExecStmts(env, sc, ss, mem, fuel))
  {
    var top := ScopeAfterAll(ss, sc);
    var m := VMem(ViewOf(env, top, mem.store), mem.logs);
    var used := AllUses(env, sc, ss, m, fuel);
    BlockAllocates(ss, sc);
    BlockKnown(env, sc, top, ss, m, fuel);
    AllocationKeepsApart(env, top, used);
    SameBlock(env, sc, top, ss, m, mem, fuel, used);
  }

  /** The scopes a program's statements and functions are compiled in are such scopes. */
  lemma {:induction false} ProgramsAllocate(items: seq<Item>, params: seq<Name>)
    requires Roomy(DeclareAll(EMPTY_SCOPE, items))
             && Roomy(BindAll(FreshLocals(DeclareAll(EMPTY_SCOPE, items)), params))
    ensures Allocated(DeclareAll(EMPTY_SCOPE, items))
            && Allocated(BindAll(FreshLocals(DeclareAll(EMPTY_SCOPE, items)), params))
  {
    EmptyIsAllocated();
    StateAllocates(EMPTY_SCOPE, items);
    ParamsAllocate(FreshLocals(DeclareAll(EMPTY_SCOPE, items)), params);
  }
}
