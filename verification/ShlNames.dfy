/**
 Which programs compile. A program is read as the names that stand in it, from left to right: no scopes, only
 what was declared, and what was assigned before.
 */
module ShlNames {
  import opened Words
  import opened Shl
  import ShlCompile

  /** A name where it stands: read as a scalar, indexed (read or written), or assigned. */
  datatype Mention = Reads(name: Name) | Indexes(name: Name) | Assigns(name: Name)

  /* ----- The names of a program, in textual order ----- */

  function InExpr(e: Expr): (ms: seq<Mention>)
  {
    match e
    case Var(name) => [Reads(name)]
    case Index(name, key) => [Indexes(name)] + InExpr(key)
    case Load(key) => InExpr(key)
    case Arg(i) => InExpr(i)
    case Not(x) => InExpr(x)
    case Binary(_, l, r) => InExpr(l) + InExpr(r)
    case _ => []
  }

  function InExprs(es: seq<Expr>): (ms: seq<Mention>)
  {
    if es == [] then [] else InExpr(es[0]) + InExprs(es[1..])
  }

  function InStmt(s: Stmt): (ms: seq<Mention>)
    decreases s, 1
  {
    match s
    case Let(name, val) => [Assigns(name)] + InExpr(val)
    case IndexStore(name, key, val) => [Indexes(name)] + InExpr(key) + InExpr(val)
    case Store(key, val) => InExpr(key) + InExpr(val)
    case Require(cond) => InExpr(cond)
    case If(cond, thn, els) => InExpr(cond) + InStmts(thn) + InStmts(els)
    case While(cond, body) => InExpr(cond) + InStmts(body)
    case Emit(args) => InExprs(args)
    case Return(val) => InExpr(val)
    case _ => []
  }

  function InStmts(ss: seq<Stmt>): (ms: seq<Mention>)
    decreases ss, 0
  {
    if ss == [] then [] else InStmt(ss[0]) + InStmts(ss[1..])
  }

  /** The names that stand in the statements outside functions. */
  function InPrelude(items: seq<Item>): (ms: seq<Mention>)
  {
    if items == [] then []
    else (if items[0].StmtItem? then InStmt(items[0].stmt) else []) + InPrelude(items[1..])
  }

  /** The names declared as state, anywhere in the program. */
  function States(items: seq<Item>): (names: set<Name>)
  {
    set i | 0 <= i < |items| && items[i].StateItem? :: items[i].name
  }

  function Params(fn: FnDecl): (names: set<Name>)
  {
    set p | p in fn.params
  }

  /* ----- Names that are used well ----- */

  /** The name at place `i` is used well: state is declared, and a scalar is state, a parameter or assigned before. */
  ghost predicate Fine(ms: seq<Mention>, states: set<Name>, params: set<Name>, i: nat)
    requires i < |ms|
  {
    match ms[i]
    case Reads(name) => name in states || name in params || Assigns(name) in ms[..i]
    case Indexes(name) => name in states
    case Assigns(_) => true
  }

  ghost predicate AllFine(ms: seq<Mention>, states: set<Name>, params: set<Name>)
  {
    forall i :: 0 <= i < |ms| ==> Fine(ms, states, params, i)
  }

  /** The first name that is not used well stands at place `i`, and the error names it. */
  ghost predicate WrongAt(ms: seq<Mention>, states: set<Name>, params: set<Name>, i: nat, e: CompileError)
    requires i < |ms|
  {
    && !Fine(ms, states, params, i) && (forall j :: 0 <= j < i ==> Fine(ms, states, params, j))
    && e == (if ms[i].Reads? then UndefinedVariable(ms[i].name) else NotAMapping(ms[i].name))
  }

  ghost predicate FirstWrong(ms: seq<Mention>, states: set<Name>, params: set<Name>, e: CompileError)
  {
    exists i :: 0 <= i < |ms| && WrongAt(ms, states, params, i, e)
  }

  /** Every name in the program is used well. */
  ghost predicate WellNamed(items: seq<Item>)
  {
    && AllFine(InPrelude(items), States(items), {})
    && forall i :: 0 <= i < |items| && items[i].FnItem? ==> FnFine(items, items[i].fn)
  }

  ghost predicate FnFine(items: seq<Item>, fn: FnDecl)
  {
    AllFine(InStmts(fn.body), States(items), Params(fn))
  }

  /** The error names the first wrong name of the prelude, or else of the first function that has one. */
  ghost predicate Blames(items: seq<Item>, e: CompileError)
  {
    if AllFine(InPrelude(items), States(items), {}) then
      exists i :: 0 <= i < |items| && items[i].FnItem? && FnBlames(items, 0, i, e)
    else FirstWrong(InPrelude(items), States(items), {}, e)
  }

  /** Item `i` is the first function, from item `n` on, with a wrong name, and the error names its first. */
  ghost predicate FnBlames(items: seq<Item>, n: nat, i: nat, e: CompileError)
    requires i < |items| && items[i].FnItem?
  {
    && FirstWrong(InStmts(items[i].fn.body), States(items), Params(items[i].fn), e) && !FnFine(items, items[i].fn)
    && forall j :: n <= j < i && items[j].FnItem? ==> FnFine(items, items[j].fn)
  }

  /* ----- Reading names one by one ----- */

  function Known(known: set<Name>, ms: seq<Mention>): (r: set<Name>)
    decreases ms
  {
    if ms == [] then known else Known(if ms[0].Assigns? then known + {ms[0].name} else known, ms[1..])
  }

  function Blame(m: Mention, states: set<Name>, known: set<Name>): (e: Option<CompileError>)
  {
    match m
    case Reads(name) => if name in states || name in known then None else Some(UndefinedVariable(name))
    case Indexes(name) => if name in states then None else Some(NotAMapping(name))
    case Assigns(_) => None
  }

  function Scan(ms: seq<Mention>, states: set<Name>, known: set<Name>): (e: Option<CompileError>)
  {
    if ms == [] then None
    else Then(Blame(ms[0], states, known),
              Scan(ms[1..], states, if ms[0].Assigns? then known + {ms[0].name} else known))
  }

  lemma {:induction false} ScanInTurn(xs: seq<Mention>, ys: seq<Mention>, states: set<Name>, known: set<Name>)
    ensures Known(known, xs + ys) == Known(Known(known, xs), ys)
    ensures Scan(xs + ys, states, known) == Then(Scan(xs, states, known), Scan(ys, states, Known(known, xs)))
    decreases xs
  {
    if xs == [] {
      assert xs + ys == ys;
    } else {
      assert (xs + ys)[1..] == xs[1..] + ys;
      ScanInTurn(xs[1..], ys, states, if xs[0].Assigns? then known + {xs[0].name} else known);
    }
  }

  /** The compiler's scope after these names. */
  ghost predicate Agrees(sc: Scope, states: set<Name>, known: set<Name>)
  {
    sc.state.Keys == states && sc.vars.Keys <= known <= sc.vars.Keys + states
  }

  lemma {:induction false} ExprScans(e: Expr, sc: Scope, states: set<Name>, known: set<Name>)
    requires Agrees(sc, states, known)
    ensures CheckExpr(e, sc) == Scan(InExpr(e), states, known) && Known(known, InExpr(e)) == known
  {
    match e
    case Var(name) => assert InExpr(e)[1..] == [];
    case Index(name, key) =>
      ExprScans(key, sc, states, known);
      ScanInTurn([Indexes(name)], InExpr(key), states, known);
    case Load(key) => ExprScans(key, sc, states, known);
    case Arg(i) => ExprScans(i, sc, states, known);
    case Not(x) => ExprScans(x, sc, states, known);
    case Binary(_, l, r) =>
      ExprScans(l, sc, states, known);
      ExprScans(r, sc, states, known);
      ScanInTurn(InExpr(l), InExpr(r), states, known);
    case _ =>
  }

  lemma {:induction false} ExprsScan(es: seq<Expr>, sc: Scope, states: set<Name>, known: set<Name>)
    requires Agrees(sc, states, known)
    ensures CheckExprs(es, sc) == Scan(InExprs(es), states, known) && Known(known, InExprs(es)) == known
  {
    if es != [] {
      ExprScans(es[0], sc, states, known);
      ExprsScan(es[1..], sc, states, known);
      ScanInTurn(InExpr(es[0]), InExprs(es[1..]), states, known);
    }
  }

  /** A statement's check is the scan of its names, and the scope after it agrees with what is then known. */
  ghost predicate Scans(err: Option<CompileError>, after: Scope, ms: seq<Mention>, states: set<Name>, known: set<Name>)
  {
    err == Scan(ms, states, known) && Agrees(after, states, Known(known, ms))
  }

  /** One part after another. */
  lemma {:induction false} InSequence(a: Option<CompileError>, b: Option<CompileError>, mid: Scope, after: Scope,
      xs: seq<Mention>, ys: seq<Mention>, states: set<Name>, known: set<Name>)
    requires Scans(a, mid, xs, states, known) && Scans(b, after, ys, states, Known(known, xs))
    ensures Scans(Then(a, b), after, xs + ys, states, known)
  {
    ScanInTurn(xs, ys, states, known);
  }

  lemma {:induction false} ExprInScope(e: Expr, sc: Scope, states: set<Name>, known: set<Name>)
    requires Agrees(sc, states, known)
    ensures Scans(CheckExpr(e, sc), sc, InExpr(e), states, known)
  {
    ExprScans(e, sc, states, known);
  }

  lemma {:induction false} TargetAgrees(name: Name, sc: Scope, states: set<Name>, known: set<Name>)
    requires Agrees(sc, states, known)
    ensures Scans(None, TargetScope(sc, name), [Assigns(name)], states, known)
  {
    assert [Assigns(name)][1..] == [];
  }

  lemma {:induction false} StmtScans(s: Stmt, sc: Scope, states: set<Name>, known: set<Name>)
    requires Agrees(sc, states, known)
    ensures Scans(CheckStmt(s, sc), ScopeAfter(s, sc), InStmt(s), states, known) == true
    decreases s, 2
  {
    match s
    case Let(name, val) =>
      TargetAgrees(name, sc, states, known);
      var at := TargetScope(sc, name);
      ExprInScope(val, at, states, Known(known, [Assigns(name)]));
      InSequence(None, CheckExpr(val, at), at, at, [Assigns(name)], InExpr(val), states, known);
    case IndexStore(name, key, val) => IndexStoreScans(name, key, val, sc, states, known);
    case Store(key, val) =>
      ExprInScope(key, sc, states, known);
      ExprInScope(val, sc, states, Known(known, InExpr(key)));
      InSequence(CheckExpr(key, sc), CheckExpr(val, sc), sc, sc, InExpr(key), InExpr(val), states, known);
    case Require(cond) => ExprInScope(cond, sc, states, known);
    case If(cond, thn, els) => IfScans(cond, thn, els, sc, states, known);
    case While(cond, body) =>
      ExprInScope(cond, sc, states, known);
      StmtsScan(body, sc, states, Known(known, InExpr(cond)));
      InSequence(CheckExpr(cond, sc), CheckStmts(body, sc), sc, ScopeAfterAll(body, sc), InExpr(cond), InStmts(body),
                 states, known);
    case Emit(args) => ExprsScan(args, sc, states, known);
    case Return(val) => ExprInScope(val, sc, states, known);
    case _ =>
  }

  lemma {:induction false} IndexStoreScans(name: Name, key: Expr, val: Expr, sc: Scope, states: set<Name>,
      known: set<Name>)
    requires Agrees(sc, states, known)
    ensures var s := IndexStore(name, key, val); Scans(CheckStmt(s, sc), sc, InStmt(s), states, known)
  {
    ExprInScope(key, sc, states, known);
    ExprInScope(val, sc, states, Known(known, InExpr(key)));
    InSequence(CheckExpr(key, sc), CheckExpr(val, sc), sc, sc, InExpr(key), InExpr(val), states, known);
    ScanInTurn([Indexes(name)], InExpr(key) + InExpr(val), states, known);
    assert [Indexes(name)] + InExpr(key) + InExpr(val) == [Indexes(name)] + (InExpr(key) + InExpr(val));
    assert [Indexes(name)][1..] == [];
  }

  lemma {:induction false} IfScans(cond: Expr, thn: seq<Stmt>, els: seq<Stmt>, sc: Scope, states: set<Name>,
      known: set<Name>)
    requires Agrees(sc, states, known)
    ensures var s := If(cond, thn, els);
            Scans(CheckStmt(s, sc), ScopeAfter(s, sc), InStmt(s), states, known) == true
    decreases If(cond, thn, els), 1
  {
    ExprInScope(cond, sc, states, known);
    var branches, after := BranchesScan(If(cond, thn, els), sc, states, Known(known, InExpr(cond)));
    InSequence(CheckExpr(cond, sc), branches, sc, after, InExpr(cond), InStmts(thn) + InStmts(els), states, known);
    assert InExpr(cond) + InStmts(thn) + InStmts(els) == InExpr(cond) + (InStmts(thn) + InStmts(els));
  }

  lemma {:induction false} BranchesScan(s: Stmt, sc: Scope, states: set<Name>, known: set<Name>)
      returns (err: Option<CompileError>, after: Scope)
    requires s.If? && Agrees(sc, states, known)
    ensures err == Then(CheckStmts(s.thn, sc), CheckStmts(s.els, ScopeAfterAll(s.thn, sc)))
    ensures after == ScopeAfterAll(s.els, ScopeAfterAll(s.thn, sc))
    ensures Scans(err, after, InStmts(s.thn) + InStmts(s.els), states, known) == true
    decreases s, 0
  {
    var mid := ScopeAfterAll(s.thn, sc);
    var a, b := CheckStmts(s.thn, sc), CheckStmts(s.els, mid);
    err, after := Then(a, b), ScopeAfterAll(s.els, mid);
    StmtsScan(s.thn, sc, states, known);
    StmtsScan(s.els, mid, states, Known(known, InStmts(s.thn)));
    InSequence(a, b, mid, after, InStmts(s.thn), InStmts(s.els), states, known);
  }

  lemma {:induction false} StmtsScan(ss: seq<Stmt>, sc: Scope, states: set<Name>, known: set<Name>)
    requires Agrees(sc, states, known)
    ensures Scans(CheckStmts(ss, sc), ScopeAfterAll(ss, sc), InStmts(ss), states, known) == true
    decreases ss, 0
  {
    if ss != [] {
      var mid := ScopeAfter(ss[0], sc);
      StmtScans(ss[0], sc, states, known);
      StmtsScan(ss[1..], mid, states, Known(known, InStmt(ss[0])));
      InSequence(CheckStmt(ss[0], sc), CheckStmts(ss[1..], mid), mid, ScopeAfterAll(ss, sc), InStmt(ss[0]),
                 InStmts(ss[1..]), states, known);
    }
  }

  /* ----- What the scan finds ----- */

  lemma {:induction false} KnownAre(known: set<Name>, ms: seq<Mention>, name: Name)
    ensures name in Known(known, ms) <==> name in known || Assigns(name) in ms
    decreases ms
  {
    if ms != [] {
      KnownAre(if ms[0].Assigns? then known + {ms[0].name} else known, ms[1..], name);
      assert ms == [ms[0]] + ms[1..];
    }
  }

  lemma {:induction false} OneMore(ms: seq<Mention>, states: set<Name>, params: set<Name>, n: nat)
    requires n < |ms|
    ensures Scan(ms[..n + 1], states, params) ==
            Then(Scan(ms[..n], states, params), Blame(ms[n], states, Known(params, ms[..n])))
  {
    assert ms[..n + 1] == ms[..n] + [ms[n]];
    ScanInTurn(ms[..n], [ms[n]], states, params);
    assert [ms[n]][1..] == [];
  }

  lemma {:induction false} BlameIsFair(ms: seq<Mention>, states: set<Name>, params: set<Name>, n: nat)
    requires n < |ms|
    ensures Blame(ms[n], states, Known(params, ms[..n])) ==
            if Fine(ms, states, params, n) then None
            else Some(if ms[n].Reads? then UndefinedVariable(ms[n].name) else NotAMapping(ms[n].name))
  {
    KnownAre(params, ms[..n], ms[n].name);
  }

  lemma {:induction false} ScanFinds(ms: seq<Mention>, states: set<Name>, params: set<Name>, n: nat)
    requires n <= |ms|
    ensures match Scan(ms[..n], states, params)
            case None => forall i :: 0 <= i < n ==> Fine(ms, states, params, i)
            case Some(e) => exists i :: 0 <= i < n && WrongAt(ms, states, params, i, e)
  {
    if n > 0 {
      ScanFinds(ms, states, params, n - 1);
      OneMore(ms, states, params, n - 1);
      BlameIsFair(ms, states, params, n - 1);
      var before, now := Scan(ms[..n - 1], states, params), Scan(ms[..n], states, params);
      if before.None? && now.Some? {
        assert WrongAt(ms, states, params, n - 1, now.value);
      }
    }
  }

  lemma {:induction false} ScanDecides(ms: seq<Mention>, states: set<Name>, params: set<Name>)
    ensures match Scan(ms, states, params)
            case None => AllFine(ms, states, params)
            case Some(e) => !AllFine(ms, states, params) && FirstWrong(ms, states, params, e)
  {
    ScanFinds(ms, states, params, |ms|);
    assert ms[..|ms|] == ms;
  }

  lemma {:induction false} FirstIsUnique(ms: seq<Mention>, states: set<Name>, params: set<Name>, e: CompileError,
      e': CompileError)
    requires FirstWrong(ms, states, params, e) && FirstWrong(ms, states, params, e')
    ensures e == e'
  {
    var i :| 0 <= i < |ms| && WrongAt(ms, states, params, i, e);
    var j :| 0 <= j < |ms| && WrongAt(ms, states, params, j, e');
    assert i == j;
  }

  /* ----- Programs ----- */

  lemma {:induction false} PreludeIs(items: seq<Item>)
    ensures InStmts(Statements(items)) == InPrelude(items)
  {
    if items != [] {
      PreludeIs(items[1..]);
      if items[0].StmtItem? {
        var rest := Statements(items[1..]);
        assert Statements(items) == [items[0].stmt] + rest;
        assert ([items[0].stmt] + rest)[1..] == rest;
      } else {
        assert Statements(items) == Statements(items[1..]);
      }
    }
  }

  lemma {:induction false} DeclaredAre(sc: Scope, items: seq<Item>)
    ensures DeclareAll(sc, items).state.Keys == sc.state.Keys + States(items) && DeclareAll(sc, items).vars == sc.vars
    decreases items
  {
    if items != [] {
      var sc1 := if items[0].StateItem? then Declare(sc, items[0].name) else sc;
      DeclaredAre(sc1, items[1..]);
      FirstDeclared(items);
    }
  }

  lemma FirstDeclared(items: seq<Item>)
    requires items != []
    ensures States(items) == (if items[0].StateItem? then {items[0].name} else {}) + States(items[1..])
  {
    forall name | name in States(items)
      ensures name in (if items[0].StateItem? then {items[0].name} else {}) + States(items[1..])
    {
      var i :| 0 <= i < |items| && items[i].StateItem? && items[i].name == name;
      if i > 0 { assert items[1..][i - 1] == items[i]; }
    }
    forall name | name in States(items[1..]) ensures name in States(items) {
      var i :| 0 <= i < |items[1..]| && items[1..][i].StateItem? && items[1..][i].name == name;
      assert items[i + 1].name == name;
    }
  }

  lemma {:induction false} BoundAre(sc: Scope, names: seq<Name>)
    ensures BindAll(sc, names).vars.Keys == sc.vars.Keys + (set p | p in names) && BindAll(sc, names).state == sc.state
    decreases names
  {
    if names != [] {
      BoundAre(Bind(sc, names[0]), names[1..]);
      assert names == [names[0]] + names[1..];
    }
  }

  lemma {:induction false} FnIsChecked(items: seq<Item>, fn: FnDecl, sc: Scope)
    requires sc.state.Keys == States(items)
    ensures match CheckStmts(fn.body, BindAll(FreshLocals(sc), fn.params))
            case None => FnFine(items, fn)
            case Some(e) => !FnFine(items, fn) && FirstWrong(InStmts(fn.body), States(items), Params(fn), e)
  {
    var at := BindAll(FreshLocals(sc), fn.params);
    BoundAre(FreshLocals(sc), fn.params);
    StmtsScan(fn.body, at, States(items), Params(fn));
    ScanDecides(InStmts(fn.body), States(items), Params(fn));
  }

  /** What is found in the functions from item `n` on. */
  ghost predicate Found(items: seq<Item>, n: nat, r: Option<CompileError>)
  {
    match r
    case None => forall i :: n <= i < |items| && items[i].FnItem? ==> FnFine(items, items[i].fn)
    case Some(e) => exists i :: n <= i < |items| && items[i].FnItem? && FnBlames(items, n, i, e)
  }

  /** What is found in one function. */
  ghost predicate FoundIn(items: seq<Item>, fn: FnDecl, r: Option<CompileError>)
  {
    match r
    case None => FnFine(items, fn)
    case Some(e) => !FnFine(items, fn) && FirstWrong(InStmts(fn.body), States(items), Params(fn), e)
  }

  lemma {:induction false} FoundNext(items: seq<Item>, n: nat, a: Option<CompileError>, b: Option<CompileError>)
    requires n < |items| && Found(items, n + 1, b)
    requires if items[n].FnItem? then FoundIn(items, items[n].fn, a) else a.None?
    ensures Found(items, n, Then(a, b))
  {
    if a.Some? {
      assert FnBlames(items, n, n, a.value);
    } else if b.Some? {
      var i :| n + 1 <= i < |items| && items[i].FnItem? && FnBlames(items, n + 1, i, b.value);
      assert FnBlames(items, n, i, b.value);
    }
  }

  lemma {:induction false} FnsAreChecked(items: seq<Item>, n: nat, sc: Scope)
    requires sc.state.Keys == States(items) && n <= |items|
    ensures Found(items, n, CheckFns(Functions(items[n..]), sc)) == true
    decreases |items| - n
  {
    if n < |items| {
      FnsAreChecked(items, n + 1, sc);
      assert items[n..][1..] == items[n + 1..];
      var b := CheckFns(Functions(items[n + 1..]), sc);
      if items[n].FnItem? {
        var fn := items[n].fn;
        FnIsChecked(items, fn, sc);
        FnFirst(fn, Functions(items[n + 1..]), Functions(items[n..]), sc);
        FoundNext(items, n, CheckStmts(fn.body, BindAll(FreshLocals(sc), fn.params)), b);
      } else {
        assert [] + Functions(items[n + 1..]) == Functions(items[n + 1..]);
        FoundNext(items, n, None, b);
      }
    }
  }

  lemma {:induction false} FnFirst(fn: FnDecl, rest: seq<FnDecl>, all: seq<FnDecl>, sc: Scope)
    requires all == [fn] + rest
    ensures CheckFns(all, sc) == Then(CheckStmts(fn.body, BindAll(FreshLocals(sc), fn.params)), CheckFns(rest, sc))
  {
    assert all[1..] == rest;
  }

  /** What is found in the whole program. */
  ghost predicate Judged(items: seq<Item>, r: Option<CompileError>)
  {
    match r
    case None => WellNamed(items)
    case Some(e) => !WellNamed(items) && Blames(items, e)
  }

  lemma {:induction false} ProgramIsChecked(items: seq<Item>)
    ensures Judged(items, CheckProgram(items)) == true
  {
    var sc := DeclareAll(EMPTY_SCOPE, items);
    DeclaredAre(EMPTY_SCOPE, items);
    PreludeIs(items);
    StmtsScan(Statements(items), sc, States(items), {});
    ScanDecides(InPrelude(items), States(items), {});
    FnsAreChecked(items, 0, sc);
    assert items[0..] == items;
    Judge(items, CheckStmts(Statements(items), sc), CheckFns(Functions(items), sc));
  }

  lemma {:induction false} Judge(items: seq<Item>, a: Option<CompileError>, b: Option<CompileError>)
    requires match a
             case None => AllFine(InPrelude(items), States(items), {})
             case Some(e) => !AllFine(InPrelude(items), States(items), {})
                             && FirstWrong(InPrelude(items), States(items), {}, e)
    requires Found(items, 0, b)
    ensures Judged(items, Then(a, b))
  {
  }

  lemma {:induction false} BlamesOne(items: seq<Item>, e: CompileError, e': CompileError)
    requires Blames(items, e) && Blames(items, e')
    ensures e == e'
  {
    if AllFine(InPrelude(items), States(items), {}) {
      var i :| 0 <= i < |items| && items[i].FnItem? && FnBlames(items, 0, i, e);
      var j :| 0 <= j < |items| && items[j].FnItem? && FnBlames(items, 0, j, e');
      assert i == j;
      FirstIsUnique(InStmts(items[i].fn.body), States(items), Params(items[i].fn), e, e');
    } else {
      FirstIsUnique(InPrelude(items), States(items), {}, e, e');
    }
  }

  /**
   Which programs compile, and what is reported of the others. A program compiles just when every indexed name is
   declared as state somewhere, and every name that is read is state, a parameter, or assigned at an earlier place of
   the same function or of the prelude. Otherwise the error names the first name of which that is not true: that of
   the prelude, or else that of the first function that has one.
   */
  method CompileByNames(items: seq<Item>, digest: seq<byte> -> u64) returns (r: ShlCompile.Compiled)
    ensures r.Code? <==> WellNamed(items)
    ensures forall e :: r == ShlCompile.Refused(e) <==> !WellNamed(items) && Blames(items, e)
  {
    r := ShlCompile.Compile(items, digest);
    ProgramIsChecked(items);
    if r.Refused? {
      forall e | Blames(items, e) ensures e == r.err { BlamesOne(items, e, r.err); }
    }
  }
}
