/** Whole programs on named variables, and what the VM's runs of compiled programs have to do with them. */
module ShlNamed {
  import opened Words
  import opened Shl
  import opened ShlLayout
  import opened ShlView
  import opened ShlCorrect
  import opened ShlProgram
  import opened ShlVars
  import opened ShlSlots
  import VM

  /* ----- Programs on named variables ----- */

  /** Parameter i is calldata word i+1. */
  function VBind(env: Env, params: seq<Name>, i: nat, m: VMem): (r: VResult)
    decreases params
  {
    if params == [] then VNormal(m)
    else
      var r := Put(m, Local(params[0]), ArgValue(env, Wrap(i + 1)));
      if r.VNormal? then VBind(env, params[1..], i + 1, r.m) else r
  }

  function VEnded(r: VResult): (r': VResult)
  {
    if r.VNormal? then VStopped(r.m) else r
  }

  function VCall(env: Env, sc: Scope, fn: FnDecl, m: VMem, fuel: nat): (r: VResult)
  {
    var p := VBind(env, fn.params, 0, m);
    if p.VNormal? then VEnded(VExecs(env, Inner(sc, fn), fn.body, p.m, fuel)) else p
  }

  /** The scope of a function's body: its parameters and nothing else. */
  function Inner(sc: Scope, fn: FnDecl): (r: Scope)
  {
    BindAll(FreshLocals(sc), fn.params)
  }

  /** The first function with this selector. */
  function Selected(env: Env, fns: seq<FnDecl>, sel: u64): (r: Option<FnDecl>)
  {
    if fns == [] then None
    else if Selector(env, fns[0].name) == sel then Some(fns[0])
    else Selected(env, fns[1..], sel)
  }

  /** The function the calldata selects, if the program has functions and this is one of them. */
  function Called(env: Env, items: seq<Item>): (r: Option<FnDecl>)
  {
    var sel := ArgValue(env, 0);
    if sel.Error? then None else Selected(env, Functions(items), sel.v)
  }

  /** State variables, mapping entries and raw keys go on; a function's locals start as `stale`. */
  function Restart(vars: Vars, stale: Name -> u64): (r: Vars)
  {
    (l: Loc) => if l.Local? then stale(l.name) else vars(l)
  }

  function VDispatch(env: Env, items: seq<Item>, m: VMem, stale: Name -> u64, fuel: nat): (r: VResult)
  {
    var sel := ArgValue(env, 0);
    if sel.Error? then VFailed(sel.err)
    else
      match Called(env, items)
      case None => VFailed(VM.Reverted)
      case Some(fn) => VCall(env, DeclareAll(EMPTY_SCOPE, items), fn, m.(vars := Restart(m.vars, stale)), fuel)
  }

  /** Top-level statements first, then the called function, if there are functions. */
  function VProgram(env: Env, items: seq<Item>, vars: Vars, stale: Name -> u64, fuel: nat): (r: VResult)
  {
    var r := VExecs(env, DeclareAll(EMPTY_SCOPE, items), Statements(items), VMem(vars, []), fuel);
    if r.VNormal? && Functions(items) != [] then VDispatch(env, items, r.m, stale, fuel) else VEnded(r)
  }

  /* ----- The variables a program uses ----- */

  function ParamLocs(params: seq<Name>): (u: set<Loc>)
  {
    set n | n in params :: Local(n)
  }

  function CallUses(env: Env, sc: Scope, fn: FnDecl, m: VMem, fuel: nat): (u: set<Loc>)
  {
    var p := VBind(env, fn.params, 0, m);
    ParamLocs(fn.params) + (if p.VNormal? then AllUses(env, Inner(sc, fn), fn.body, p.m, fuel) else {})
  }

  function PreludeUses(env: Env, items: seq<Item>, vars: Vars, fuel: nat): (u: set<Loc>)
  {
    AllUses(env, DeclareAll(EMPTY_SCOPE, items), Statements(items), VMem(vars, []), fuel)
  }

  /** What the called function uses, once the prelude has run. */
  function FunctionUses(env: Env, items: seq<Item>, vars: Vars, stale: Name -> u64, fuel: nat): (u: set<Loc>)
  {
    var sc := DeclareAll(EMPTY_SCOPE, items);
    var r := VExecs(env, sc, Statements(items), VMem(vars, []), fuel);
    if !r.VNormal? || Called(env, items).None? then {}
    else CallUses(env, sc, Called(env, items).value, r.m.(vars := Restart(r.m.vars, stale)), fuel)
  }

  /** The state variables, mapping entries and raw keys among some variables. */
  function Lasting(u: set<Loc>): (r: set<Loc>)
  {
    set l | l in u && !l.Local?
  }

  function ProgramUses(env: Env, items: seq<Item>, vars: Vars, stale: Name -> u64, fuel: nat): (u: set<Loc>)
  {
    Lasting(PreludeUses(env, items, vars, fuel) + FunctionUses(env, items, vars, stale, fuel))
  }

  /* ----- Dispatch ----- */

  lemma {:induction false} RouteSelects(env: Env, sc: Scope, fns: seq<FnDecl>, sel: u64, mem: Memory, fuel: nat)
    ensures Route(env, sc, fns, sel, mem, fuel)
            == match Selected(env, fns, sel)
               case None => Failed(VM.Reverted)
               case Some(fn) => CallFn(env, sc, fn, mem, fuel)
  {
    if fns != [] { RouteSelects(env, sc, fns[1..], sel, mem, fuel); }
  }

  lemma {:induction false} SelectedIsThere(env: Env, fns: seq<FnDecl>, sel: u64, sc: Scope)
    requires CheckFns(fns, sc).None? && FnsRoomy(fns, sc) && Selected(env, fns, sel).Some?
    ensures var fn := Selected(env, fns, sel).value;
            CheckStmts(fn.body, Inner(sc, fn)).None? && Roomy(ScopeAfterAll(fn.body, Inner(sc, fn)))
  {
    if Selector(env, fns[0].name) != sel { SelectedIsThere(env, fns[1..], sel, sc); }
  }

  /** Every function has fewer than 2^32 locals. */
  ghost predicate FnsRoomy(fns: seq<FnDecl>, sc: Scope)
  {
    fns == [] || (Roomy(ScopeAfterAll(fns[0].body, Inner(sc, fns[0]))) && FnsRoomy(fns[1..], sc))
  }

  ghost predicate ProgramRoomy(items: seq<Item>)
  {
    var sc := DeclareAll(EMPTY_SCOPE, items);
    Roomy(ScopeAfterAll(Statements(items), sc)) && FnsRoomy(Functions(items), sc)
  }

  /* ----- Parameters ----- */

  lemma {:induction false} SameBind(env: Env, sc: Scope, top: Scope, params: seq<Name>, i: nat, m: VMem, mem: Memory,
      used: set<Loc>)
    requires Apart(env, top, used) && Agree(env, top, used, m, mem) && Under(BindAll(sc, params), top)
    requires ParamLocs(params) <= used
    ensures Same(env, top, used, VBind(env, params, i, m), BindParams(env, sc, params, i, mem)) == true
    decreases params
  {
    if params != [] {
      var p, sc1, v := params[0], Bind(sc, params[0]), ArgValue(env, Wrap(i + 1));
      ParamsGrow(sc1, params[1..]);
      UnderTransitive(sc1, BindAll(sc, params), top);
      assert Local(p) in ParamLocs(params);
      SamePut(env, top, used, m, mem, Local(p), v);
      assert SlotOf(env, top, Local(p)) == sc1.vars[p];
      if v.Value? {
        forall l | l in ParamLocs(params[1..]) ensures l in ParamLocs(params) {
          assert l.name in params[1..];
        }
        SameBind(env, sc1, top, params[1..], i + 1, Put(m, Local(p), v).m, WriteTo(mem, Value(sc1.vars[p]), v).mem,
                 used);
      }
    }
  }

  lemma {:induction false} SameCall(env: Env, sc: Scope, fn: FnDecl, m: VMem, mem: Memory, fuel: nat, used: set<Loc>)
    requires var top := ScopeAfterAll(fn.body, Inner(sc, fn)); Apart(env, top, used) && Agree(env, top, used, m, mem)
    requires CheckStmts(fn.body, Inner(sc, fn)).None? && CallUses(env, sc, fn, m, fuel) <= used
    ensures Same(env, ScopeAfterAll(fn.body, Inner(sc, fn)), used, VCall(env, sc, fn, m, fuel),
                 CallFn(env, sc, fn, mem, fuel)) == true
  {
    var top := ScopeAfterAll(fn.body, Inner(sc, fn));
    ScopeGrowsAll(fn.body, Inner(sc, fn));
    SameBind(env, FreshLocals(sc), top, fn.params, 0, m, mem, used);
    var v, p := VBind(env, fn.params, 0, m), BindParams(env, FreshLocals(sc), fn.params, 0, mem);
    if v.VNormal? { SameBlock(env, Inner(sc, fn), top, fn.body, v.m, p.mem, fuel, used); }
  }

  lemma {:induction false} ParamsAreBound(sc: Scope, params: seq<Name>, n: Name)
    requires n in params
    ensures n in BindAll(sc, params).vars
    decreases params
  {
    if n == params[0] {
      ParamsGrow(Bind(sc, n), params[1..]);
    } else {
      ParamsAreBound(Bind(sc, params[0]), params[1..], n);
    }
  }

  lemma {:induction false} CallKnown(env: Env, sc: Scope, fn: FnDecl, m: VMem, fuel: nat)
    requires CheckStmts(fn.body, Inner(sc, fn)).None?
    ensures AllKnown(ScopeAfterAll(fn.body, Inner(sc, fn)), CallUses(env, sc, fn, m, fuel))
  {
    var top := ScopeAfterAll(fn.body, Inner(sc, fn));
    ScopeGrowsAll(fn.body, Inner(sc, fn));
    forall l | l in ParamLocs(fn.params) ensures Known(top, l) { ParamsAreBound(FreshLocals(sc), fn.params, l.name); }
    var p := VBind(env, fn.params, 0, m);
    if p.VNormal? { BlockKnown(env, Inner(sc, fn), top, fn.body, p.m, fuel); }
  }

  /* ----- What lasts from the prelude to the function ----- */

  /** The two scopes give the same slots to everything but locals. */
  ghost predicate SameState(a: Scope, b: Scope) { a.state == b.state }

  lemma ClearElsewhere(env: Env, a: Scope, b: Scope, used: set<Loc>)
    requires SameState(a, b) && Clear(env, a, used)
    ensures Clear(env, b, used)
  {
    forall l | l in used && (l.Entry? || l.Raw?) ensures SlotOf(env, b, l) == SlotOf(env, a, l) { }
  }

  lemma SameLasting(env: Env, top: Scope, sc: Scope, used: set<Loc>, lasting: set<Loc>, v: VResult, r: Result)
    requires SameState(top, sc) && lasting <= used && Lasting(lasting) == lasting && Same(env, top, used, v, r)
    ensures Same(env, sc, lasting, v, r)
  {
    forall l | l in lasting ensures l in used && SlotOf(env, sc, l) == SlotOf(env, top, l) {
      assert l in Lasting(lasting);
    }
  }

  lemma {:induction false} StateStays(ss: seq<Stmt>, sc: Scope)
    ensures ScopeAfterAll(ss, sc).state == sc.state
  {
    ScopeGrowsAll(ss, sc);
  }

  lemma {:induction false} InnerState(sc: Scope, fn: FnDecl)
    ensures ScopeAfterAll(fn.body, Inner(sc, fn)).state == sc.state
  {
    ScopeGrowsAll(fn.body, Inner(sc, fn));
    ParamsGrow(FreshLocals(sc), fn.params);
  }

  /** Variables apart: some of them, and lasting ones that another part of the program uses. */
  lemma ApartWith(env: Env, top: Scope, sc: Scope, own: set<Loc>, lasting: set<Loc>)
    requires Allocated(top) && SameState(top, sc) && AllKnown(top, own) && AllKnown(top, lasting)
    requires Lasting(own) <= lasting && Lasting(lasting) == lasting && Clear(env, sc, lasting)
    ensures Apart(env, top, own + lasting)
  {
    ClearElsewhere(env, sc, top, lasting);
    forall l | l in own + lasting && (l.Entry? || l.Raw?) ensures l in lasting {
      if l in own { assert l in Lasting(own); }
    }
    AllocationKeepsApart(env, top, own + lasting);
  }

  /* ----- The theorem ----- */

  /** The values a function's locals find in their slots. */
  ghost function StaleIn(env: Env, top: Scope, store: map<u64, u64>): (stale: Name -> u64)
  {
    (n: Name) => VM.Get(store, SlotOf(env, top, Local(n)))
  }

  /** The locals of the called function, in the storage the prelude leaves. */
  ghost function StaleLocals(env: Env, items: seq<Item>, store: map<u64, u64>, fuel: nat): (stale: Name -> u64)
  {
    var sc := DeclareAll(EMPTY_SCOPE, items);
    var r := ExecStmts(env, sc, Statements(items), Memory(store, []), fuel);
    if r.Normal? && Called(env, items).Some? then
      var fn := Called(env, items).value;
      StaleIn(env, ScopeAfterAll(fn.body, Inner(sc, fn)), r.mem.store)
    else (n: Name) => 0
  }

  ghost function FirstView(env: Env, items: seq<Item>, store: map<u64, u64>): (vars: Vars)
  {
    ViewOf(env, ScopeAfterAll(Statements(items), DeclareAll(EMPTY_SCOPE, items)), store)
  }

  /** The prelude, with lasting variables of the function along. */
  lemma {:induction false} SamePrelude(env: Env, items: seq<Item>, store: map<u64, u64>, fuel: nat, lasting: set<Loc>)
    requires CheckProgram(items).None? && ProgramRoomy(items)
    requires Lasting(lasting) == lasting && AllKnown(DeclareAll(EMPTY_SCOPE, items), lasting)
             && Clear(env, DeclareAll(EMPTY_SCOPE, items), lasting)
    requires Lasting(PreludeUses(env, items, FirstView(env, items, store), fuel)) <= lasting
    ensures var sc, vars := DeclareAll(EMPTY_SCOPE, items), FirstView(env, items, store);
            Same(env, sc, lasting, VExecs(env, sc, Statements(items), VMem(vars, []), fuel),
                 ExecStmts(env, sc, Statements(items), Memory(store, []), fuel))
  {
    var sc, flat, vars := DeclareAll(EMPTY_SCOPE, items), Statements(items), FirstView(env, items, store);
    var top, own := ScopeAfterAll(flat, sc), PreludeUses(env, items, vars, fuel);
    StateStays(flat, sc);
    ScopeGrowsAll(flat, sc);
    RoomyUnder(sc, top);
    EmptyIsAllocated();
    StateAllocates(EMPTY_SCOPE, items);
    BlockAllocates(flat, sc);
    BlockKnown(env, sc, top, flat, VMem(vars, []), fuel);
    LastingKnown(sc, top, lasting);
    ApartWith(env, top, sc, own, lasting);
    SameBlock(env, sc, top, flat, VMem(vars, []), Memory(store, []), fuel, own + lasting);
    SameLasting(env, top, sc, own + lasting, lasting, VExecs(env, sc, flat, VMem(vars, []), fuel),
                ExecStmts(env, sc, flat, Memory(store, []), fuel));
  }

  lemma LastingKnown(sc: Scope, top: Scope, lasting: set<Loc>)
    requires SameState(top, sc) && AllKnown(sc, lasting) && Lasting(lasting) == lasting
    ensures AllKnown(top, lasting)
  {
    forall l | l in lasting ensures Known(top, l) { assert l in Lasting(lasting) && Known(sc, l); }
  }

  /** What the variables hold when the function starts. */
  lemma RestartReflects(env: Env, top: Scope, sc: Scope, m: VMem, mem: Memory, own: set<Loc>, lasting: set<Loc>)
    requires SameState(top, sc) && Lasting(own) <= lasting && Lasting(lasting) == lasting
             && Agree(env, sc, lasting, m, mem)
    ensures Agree(env, top, own + lasting, m.(vars := Restart(m.vars, StaleIn(env, top, mem.store))), mem)
  {
    var vars := Restart(m.vars, StaleIn(env, top, mem.store));
    forall l | l in own + lasting ensures vars(l) == VM.Get(mem.store, SlotOf(env, top, l)) {
      if !l.Local? {
        if l in own { assert l in Lasting(own); }
        assert SlotOf(env, top, l) == SlotOf(env, sc, l);
      }
    }
  }

  lemma {:induction false} FunctionApart(env: Env, sc: Scope, fn: FnDecl, top: Scope, m: VMem, fuel: nat,
      lasting: set<Loc>)
    requires top == ScopeAfterAll(fn.body, Inner(sc, fn))
    requires Allocated(sc) && CheckStmts(fn.body, Inner(sc, fn)).None? && Roomy(top)
    requires Lasting(lasting) == lasting && AllKnown(sc, lasting) && Clear(env, sc, lasting)
    requires Lasting(CallUses(env, sc, fn, m, fuel)) <= lasting
    ensures SameState(top, sc) && Apart(env, top, CallUses(env, sc, fn, m, fuel) + lasting)
  {
    InnerState(sc, fn);
    FunctionAllocates(sc, fn);
    CallKnown(env, sc, fn, m, fuel);
    LastingKnown(sc, top, lasting);
    ApartWith(env, top, sc, CallUses(env, sc, fn, m, fuel), lasting);
  }

  /** The function, on what the prelude left. */
  lemma {:induction false} SameFunction(env: Env, sc: Scope, fn: FnDecl, top: Scope, m: VMem, m1: VMem, mem: Memory,
      fuel: nat, lasting: set<Loc>)
    requires top == ScopeAfterAll(fn.body, Inner(sc, fn))
    requires m1 == m.(vars := Restart(m.vars, StaleIn(env, top, mem.store)))
    requires Allocated(sc) && CheckStmts(fn.body, Inner(sc, fn)).None? && Roomy(top)
    requires Lasting(lasting) == lasting && AllKnown(sc, lasting) && Clear(env, sc, lasting)
             && Agree(env, sc, lasting, m, mem)
    requires Lasting(CallUses(env, sc, fn, m1, fuel)) <= lasting
    ensures Same(env, sc, lasting, VCall(env, sc, fn, m1, fuel), CallFn(env, sc, fn, mem, fuel)) == true
  {
    var used := CallUses(env, sc, fn, m1, fuel) + lasting;
    FunctionApart(env, sc, fn, top, m1, fuel, lasting);
    RestartReflects(env, top, sc, m, mem, CallUses(env, sc, fn, m1, fuel), lasting);
    SameCall(env, sc, fn, m1, mem, fuel, used);
    SameLasting(env, top, sc, used, lasting, VCall(env, sc, fn, m1, fuel), CallFn(env, sc, fn, mem, fuel));
  }

  lemma {:induction false} FunctionAllocates(sc: Scope, fn: FnDecl)
    requires Allocated(sc) && Roomy(ScopeAfterAll(fn.body, Inner(sc, fn)))
    ensures Allocated(ScopeAfterAll(fn.body, Inner(sc, fn)))
  {
    ScopeGrowsAll(fn.body, Inner(sc, fn));
    RoomyUnder(Inner(sc, fn), ScopeAfterAll(fn.body, Inner(sc, fn)));
    ParamsAllocate(FreshLocals(sc), fn.params);
    BlockAllocates(fn.body, Inner(sc, fn));
  }

  lemma {:induction false} UsesKnown(env: Env, items: seq<Item>, vars: Vars, stale: Name -> u64, fuel: nat)
    requires CheckProgram(items).None? && ProgramRoomy(items)
    ensures AllKnown(DeclareAll(EMPTY_SCOPE, items), ProgramUses(env, items, vars, stale, fuel))
  {
    var sc, flat := DeclareAll(EMPTY_SCOPE, items), Statements(items);
    StateStays(flat, sc);
    BlockKnown(env, sc, ScopeAfterAll(flat, sc), flat, VMem(vars, []), fuel);
    var r, called := VExecs(env, sc, flat, VMem(vars, []), fuel), Called(env, items);
    if r.VNormal? && called.Some? {
      var fn := called.value;
      SelectedIsThere(env, Functions(items), ArgValue(env, 0).v, sc);
      InnerState(sc, fn);
      CallKnown(env, sc, fn, r.m.(vars := Restart(r.m.vars, stale)), fuel);
    }
    forall l | l in ProgramUses(env, items, vars, stale, fuel) ensures Known(sc, l) { }
  }

  /** The scope of the state variables is packed. */
  lemma {:induction false} StateIsAllocated(items: seq<Item>)
    requires ProgramRoomy(items)
    ensures Allocated(DeclareAll(EMPTY_SCOPE, items))
  {
    var sc, flat := DeclareAll(EMPTY_SCOPE, items), Statements(items);
    ScopeGrowsAll(flat, sc);
    RoomyUnder(sc, ScopeAfterAll(flat, sc));
    EmptyIsAllocated();
    StateAllocates(EMPTY_SCOPE, items);
  }

  /** The dispatched call, on what the prelude left; `stale` is what the function's locals find. */
  lemma {:induction false} SameDispatch(env: Env, items: seq<Item>, sc: Scope, m: VMem, mem: Memory, stale: Name -> u64,
      fuel: nat, lasting: set<Loc>)
    requires CheckProgram(items).None? && ProgramRoomy(items) && sc == DeclareAll(EMPTY_SCOPE, items)
    requires Lasting(lasting) == lasting && AllKnown(sc, lasting) && Clear(env, sc, lasting)
             && Agree(env, sc, lasting, m, mem)
    requires Called(env, items).Some? ==>
               var fn := Called(env, items).value;
               stale == StaleIn(env, ScopeAfterAll(fn.body, Inner(sc, fn)), mem.store)
               && Lasting(CallUses(env, sc, fn, m.(vars := Restart(m.vars, stale)), fuel)) <= lasting
    ensures Same(env, sc, lasting, VDispatch(env, items, m, stale, fuel),
                 Call(env, sc, Functions(items), mem, fuel)) == true
  {
    var sel := ArgValue(env, 0);
    if sel.Value? {
      RouteSelects(env, sc, Functions(items), sel.v, mem, fuel);
      if Called(env, items).Some? {
        var fn := Called(env, items).value;
        SelectedIsThere(env, Functions(items), sel.v, sc);
        StateIsAllocated(items);
        SameFunction(env, sc, fn, ScopeAfterAll(fn.body, Inner(sc, fn)), m, m.(vars := Restart(m.vars, stale)), mem,
                     fuel, lasting);
      }
    }
  }

  /**
   Variable independence of programs. A program that compiles, run on any storage, gives the results,
   events and errors it gives when locals, state variables, the entries of each mapping and raw keys
   are separate variables, and leaves their values in their slots, provided that the hashed and raw
   keys the run uses stay out of the reserved ranges and out of each other's way. A function's locals
   start with what their slots hold.
   */
  lemma {:induction false} ProgramVariablesAreIndependent(env: Env, items: seq<Item>, store: map<u64, u64>, fuel: nat)
    requires CheckProgram(items).None? && ProgramRoomy(items)
    requires Clear(env, DeclareAll(EMPTY_SCOPE, items),
                   ProgramUses(env, items, FirstView(env, items, store), StaleLocals(env, items, store, fuel), fuel))
    ensures var vars, stale := FirstView(env, items, store), StaleLocals(env, items, store, fuel);
            Same(env, DeclareAll(EMPTY_SCOPE, items), ProgramUses(env, items, vars, stale, fuel),
                 VProgram(env, items, vars, stale, fuel), ExecProgram(env, items, store, fuel)) == true
  {
    var sc, vars, stale := DeclareAll(EMPTY_SCOPE, items), FirstView(env, items, store), StaleLocals(env, items, store,
        fuel);
    var lasting := ProgramUses(env, items, vars, stale, fuel);
    UsesKnown(env, items, vars, stale, fuel);
    SamePrelude(env, items, store, fuel, lasting);
    var v := VExecs(env, sc, Statements(items), VMem(vars, []), fuel);
    var r := ExecStmts(env, sc, Statements(items), Memory(store, []), fuel);
    if v.VNormal? && Functions(items) != [] {
      SameDispatch(env, items, sc, v.m, r.mem, stale, fuel, lasting);
    }
  }

  /* ----- Compiled programs ----- */

  /** The VM's outcome is the result on named variables; each has its value in its slot. */
  ghost predicate RunsAs<W>(o: VM.Outcome<W>, v: VResult, env: Env, sc: Scope, used: set<Loc>)
  {
    match v
    case VNormal(_) => false
    case VReturned(ret, m) => o.Success? && o.ret == ret && o.m.logs == m.logs
    && Reflects(env, sc, used, m.vars, o.m.work)
    case VStopped(m) => o.Success? && o.ret == 0 && o.m.logs == m.logs && Reflects(env, sc, used, m.vars, o.m.work)
    case VFailed(e) => o.Failure? && o.err == e
    case VOutOfFuel => false
  }

  /**
   The same of compiled code: the VM, run on it, does what the program does on separate variables, or
   hits a limit.
   */
  lemma {:induction false} CompiledVariablesAreIndependent<W>(f: VM.Frame<W>, w: W, items: seq<Item>, store: map<u64,
      u64>, blobs: map<u64, seq<byte>>)
    requires ProgramAt(f.code, f.digest, items) && |f.code| < TWO63 && CheckProgram(items).None? && ProgramRoomy(items)
    requires Clear(EnvOf(f), DeclareAll(EMPTY_SCOPE, items),
                   ProgramUses(EnvOf(f), items, FirstView(EnvOf(f), items, store),
                               StaleLocals(EnvOf(f), items, store, VM.MAX_STEPS), VM.MAX_STEPS))
    ensures var env, o := EnvOf(f), VM.Run(f, w, VM.Start(store, blobs));
            var vars, stale := FirstView(env, items, store), StaleLocals(env, items, store, VM.MAX_STEPS);
            Limited(o)
            || RunsAs(o, VProgram(env, items, vars, stale, VM.MAX_STEPS), env, DeclareAll(EMPTY_SCOPE, items),
                      ProgramUses(env, items, vars, stale, VM.MAX_STEPS))
  {
    CompiledCodeIsCorrect(f, w, items, store, blobs, VM.MAX_STEPS);
    ProgramVariablesAreIndependent(EnvOf(f), items, store, VM.MAX_STEPS);
  }
}
