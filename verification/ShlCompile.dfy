/** The compiler: dispatcher, functions and back-patching; its output is the layout of ShlLayout. */
module ShlCompile {
  import opened Words
  import opened Shl
  import opened ShlLayout
  import opened ShlAsm
  import opened ShlGen
  import VM

  /* ----- Back-patching ----- */

  function Patched(code: seq<byte>, pos: nat, target: u64): (r: seq<byte>)
    requires pos + 8 <= |code|
    ensures |r| == |code| && forall i :: 0 <= i < |code| && !(pos <= i < pos + 8) ==> r[i] == code[i]
  {
    code[..pos] + U64Bytes(target) + code[pos + 8..]
  }

  lemma {:induction false} PatchedWord(code: seq<byte>, pos: nat, target: u64)
    requires pos + 8 <= |code|
    ensures WordAt(Patched(code, pos, target), pos) == target
  {
    assert Patched(code, pos, target)[pos..pos + 8] == U64Bytes(target);
    U64RoundTrip(target);
  }

  lemma {:induction false} EarlierWord(code: seq<byte>, pos: nat, target: u64, q: nat)
    requires pos + 8 <= |code| && q + 8 <= pos
    ensures WordAt(Patched(code, pos, target), q) == WordAt(code, q)
  {
    assert Patched(code, pos, target)[q..q + 8] == code[q..q + 8];
  }

  ghost predicate Untouched(a: Asm, code: seq<byte>)
  {
    |code| == |a.code| && forall i :: 0 <= i < |code| && !Hole(a, i) ==> code[i] == a.code[i]
  }

  /** The first `k` holes hold the positions of their labels. */
  ghost predicate Filled(a: Asm, code: seq<byte>, k: nat)
    requires Sound(a) && k <= |a.fixups|
  {
    forall j :: 0 <= j < k ==> WordAt(code, a.fixups[j].pos) == Wrap(a.labels[a.fixups[j].target])
  }

  /** Filling one hole disturbs neither the code around it nor the holes filled before. */
  lemma {:induction false} FillsOne(a: Asm, code: seq<byte>, k: nat)
    requires Sound(a) && Untouched(a, code) && k < |a.fixups| && Filled(a, code, k)
    ensures var f := a.fixups[k]; var r := Patched(code, f.pos, Wrap(a.labels[f.target]));
            Untouched(a, r) && Filled(a, r, k + 1)
  {
    var f := a.fixups[k];
    var w := Wrap(a.labels[f.target]);
    var r := Patched(code, f.pos, w);
    assert f in a.fixups;
    forall i | f.pos <= i < f.pos + 8 ensures Hole(a, i) { }
    PatchedWord(code, f.pos, w);
    forall j | 0 <= j < k ensures WordAt(r, a.fixups[j].pos) == WordAt(code, a.fixups[j].pos) {
      EarlierWord(code, f.pos, w, a.fixups[j].pos);
    }
  }

  lemma {:induction false} WordIsShown(a: Asm, code: seq<byte>, p: int)
    requires Untouched(a, code) && 0 <= p <= |a.code| - 8 && forall i :: p <= i < p + 8 ==> !Hole(a, i)
    ensures WordAt(code, p) == WordAt(a.code, p)
  {
    assert code[p..p + 8] == a.code[p..p + 8];
  }

  lemma {:induction false} HoleIsShown(a: Asm, code: seq<byte>, f: Fixup)
    requires Sound(a) && Untouched(a, code) && Filled(a, code, |a.fixups|) && f in a.fixups
    ensures 0 <= f.target < |a.labels| && WordAt(code, f.pos) == Wrap(a.labels[f.target])
  {
    var j :| 0 <= j < |a.fixups| && a.fixups[j] == f;
  }

  lemma {:induction false} FilledIsShown(a: Asm, code: seq<byte>)
    requires Sound(a) && Untouched(a, code) && Filled(a, code, |a.fixups|)
    ensures ImageOf(code) in Shown(a)
  {
    var img := ImageOf(code);
    forall p | 0 <= p <= |a.code| - 8
    && (forall i :: p <= i < p + 8 ==> !Hole(a, i)) ensures img.word(p) == WordAt(a.code, p) {
      WordIsShown(a, code, p);
    }
    forall f | f in a.fixups && 0 <= f.target < |a.labels| && a.labels[f.target] != -1
      ensures img.word(f.pos) == Wrap(a.labels[f.target])
    {
      HoleIsShown(a, code, f);
    }
  }

  /** Every hole gets the position of its label. */
  method Resolve(g: Gen)
    requires Sound(g.Out())
    modifies g`code
    ensures Untouched(old(g.Out()), g.code) && Filled(old(g.Out()), g.code, |g.fixups|)
  {
    ghost var a := g.Out();
    var k := 0;
    while k < |g.fixups|
      invariant 0 <= k <= |g.fixups| && Untouched(a, g.code) && Filled(a, g.code, k)
    {
      var f := g.fixups[k];
      FillsOne(a, g.code, k);
      g.code := Patched(g.code, f.pos, Wrap(g.labels[f.target]));
      k := k + 1;
    }
  }

  /* ----- Functions ----- */

  ghost predicate ParamsOut(v: View, a: Asm, p: nat, params: seq<Name>, i: nat, sc: Scope)
    decreases params
  {
    params == []
    || (var sc1 := Bind(sc, params[0]);
        v.Push(a, p, sc1.vars[params[0]]) && v.Push(a, p + 9, Wrap(i + 1))
        && v.Op(a, p + 18, VM.CDLOAD) && v.Op(a, p + 19, VM.SSTORE)
        && ParamsOut(v, a, p + 20, params[1..], i + 1, sc1))
  }

  ghost predicate FnOut(v: View, a: Asm, p: nat, fn: FnDecl, sc: Scope)
  {
    var body := p + 1 + 20 * |fn.params|;
    v.Op(a, p, VM.POP) && ParamsOut(v, a, p + 1, fn.params, 0, FreshLocals(sc))
    && v.Stmts(a, body, fn.body, BindAll(FreshLocals(sc), fn.params)) && v.Op(a, body + StmtsSize(fn.body), VM.STOP)
  }

  /** Functions in order from `p` on, the first at label `l`, the next at `l + 1`, ... */
  ghost predicate FnsOut(v: View, a: Asm, p: nat, fns: seq<FnDecl>, sc: Scope, l: nat)
    decreases fns
  {
    fns == []
    || (l < |a.labels| && a.labels[l] == p && FnOut(v, a, p, fns[0], sc)
        && FnsOut(v, a, p + FnSize(fns[0]), fns[1..], sc, l + 1))
  }

  ghost predicate RouteOut(v: View, a: Asm, p: nat, selector: u64, l: nat)
  {
    v.Op(a, p, VM.DUP) && v.Push(a, p + 1, selector) && v.Op(a, p + 10, VM.EQ) && v.Jump(a, p + 11, l, VM.JUMPI)
  }

  ghost predicate RoutesOut(v: View, a: Asm, p: nat, digest: seq<byte> -> u64, fns: seq<FnDecl>, l: nat)
    decreases fns
  {
    fns == [] || (RouteOut(v, a, p, digest(fns[0].name), l) && RoutesOut(v, a, p + 21, digest, fns[1..], l + 1))
  }

  lemma {:induction false} ParamsStay(v: View, a: Asm, b: Asm, p: nat, params: seq<Name>, i: nat, sc: Scope)
    requires Faithful(v) == true && v.Later(a, b) && ParamsOut(v, a, p, params, i, sc)
    ensures ParamsOut(v, b, p, params, i, sc)
    decreases params
  {
    if params != [] {
      var sc1 := Bind(sc, params[0]);
      KeepPush(v, a, b, p, sc1.vars[params[0]]);
      KeepPush(v, a, b, p + 9, Wrap(i + 1));
      KeepOp(v, a, b, p + 18, VM.CDLOAD);
      KeepOp(v, a, b, p + 19, VM.SSTORE);
      ParamsStay(v, a, b, p + 20, params[1..], i + 1, sc1);
    }
  }

  lemma {:induction false} FnStays(v: View, a: Asm, b: Asm, p: nat, fn: FnDecl, sc: Scope)
    requires Faithful(v) == true && v.Later(a, b) && FnOut(v, a, p, fn, sc)
    ensures FnOut(v, b, p, fn, sc)
  {
    var body := p + 1 + 20 * |fn.params|;
    KeepOp(v, a, b, p, VM.POP);
    ParamsStay(v, a, b, p + 1, fn.params, 0, FreshLocals(sc));
    KeepStmts(v, a, b, body, fn.body, BindAll(FreshLocals(sc), fn.params));
    KeepOp(v, a, b, body + StmtsSize(fn.body), VM.STOP);
  }

  lemma {:induction false} RouteStays(v: View, a: Asm, b: Asm, p: nat, selector: u64, l: nat)
    requires Faithful(v) == true && v.Later(a, b) && RouteOut(v, a, p, selector, l)
    ensures RouteOut(v, b, p, selector, l)
  {
    KeepOp(v, a, b, p, VM.DUP);
    KeepPush(v, a, b, p + 1, selector);
    KeepOp(v, a, b, p + 10, VM.EQ);
    KeepJump(v, a, b, p + 11, l, VM.JUMPI);
  }

  lemma {:induction false} RoutesStay(v: View, a: Asm, b: Asm, p: nat, digest: seq<byte> -> u64, fns: seq<FnDecl>,
      l: nat)
    requires Faithful(v) == true && v.Later(a, b) && RoutesOut(v, a, p, digest, fns, l)
    ensures RoutesOut(v, b, p, digest, fns, l)
    decreases fns
  {
    if fns != [] {
      RouteStays(v, a, b, p, digest(fns[0].name), l);
      RoutesStay(v, a, b, p + 21, digest, fns[1..], l + 1);
    }
  }

  /* ----- From the output to the layout ----- */

  lemma {:induction false} ParamsLaidOut(v: View, a: Asm, img: Image, p: nat, params: seq<Name>, i: nat, sc: Scope)
    requires Faithful(v) == true && img in Shown(a) && ParamsOut(v, a, p, params, i, sc)
    ensures ParamsAt(img, p, params, i, sc)
    decreases params
  {
    assert Open(a);
    if params != [] {
      ParamsLaidOut(v, a, img, p + 20, params[1..], i + 1, Bind(sc, params[0]));
    }
  }

  lemma {:induction false} FnLaidOut(v: View, a: Asm, img: Image, p: nat, fn: FnDecl, sc: Scope)
    requires Faithful(v) == true && img in Shown(a) && FnOut(v, a, p, fn, sc)
    ensures FnAt(img, p, fn, sc) == true
  {
    ParamsLaidOut(v, a, img, p + 1, fn.params, 0, FreshLocals(sc));
    assert Open(a);
  }

  lemma {:induction false} FnsLaidOut(v: View, a: Asm, img: Image, p: nat, fns: seq<FnDecl>, sc: Scope, l: nat)
    requires Faithful(v) == true && img in Shown(a) && FnsOut(v, a, p, fns, sc, l)
    ensures FnsAt(img, p, fns, sc)
    decreases fns
  {
    if fns != [] {
      FnLaidOut(v, a, img, p, fns[0], sc);
      FnsLaidOut(v, a, img, p + FnSize(fns[0]), fns[1..], sc, l + 1);
    }
  }

  lemma {:induction false} RouteLaidOut(v: View, a: Asm, img: Image, p: nat, selector: u64, l: nat)
    requires Faithful(v) == true && img in Shown(a) && RouteOut(v, a, p, selector, l) && l < |a.labels|
             && a.labels[l] >= 0
    ensures OpAt(img, p, VM.DUP) && PushAt(img, p + 1, selector) && OpAt(img, p + 10, VM.EQ)
            && JumpAt(img, p + 11, a.labels[l], VM.JUMPI)
  {
    JumpAtMark(v, a, p + 11, l, VM.JUMPI);
    assert Open(a);
  }

  lemma {:induction false} RoutesLaidOut(v: View, a: Asm, img: Image, p: nat, digest: seq<byte> -> u64,
      fns: seq<FnDecl>, l: nat, target: nat, sc: Scope)
    requires Faithful(v) == true && img in Shown(a) && RoutesOut(v, a, p, digest, fns, l)
             && FnsOut(v, a, target, fns, sc, l)
    ensures RoutesAt(img, p, digest, fns, target)
    decreases fns
  {
    if fns != [] {
      RouteLaidOut(v, a, img, p, digest(fns[0].name), l);
      RoutesLaidOut(v, a, img, p + 21, digest, fns[1..], l + 1, target + FnSize(fns[0]), sc);
    }
  }

  /* ----- Emitting functions and the router ----- */

  method Params(g: Gen, params: seq<Name>)
    requires g.Ready()
    modifies g`code, g`vars, g`next
    ensures g.Ready() && g.Names() == BindAll(old(g.Names()), params)
    ensures g.v.Advances(old(g.Out()), g.Out(), 20 * |params|, {}) && g.v.Later(old(g.Out()), g.Out())
    ensures ParamsOut(g.v, g.Out(), old(|g.code|), params, 0, old(g.Names()))
  {
    NoProgress(g.v, g.Out());
    Advanced(g.v, g.Out(), g.Out(), 0, {});
    ghost var from, sc := g.Out(), g.Names();
    var i := 0;
    while i < |params|
      invariant 0 <= i <= |params| && g.Ready() && g.fixups == from.fixups
      invariant BindAll(sc, params) == BindAll(g.Names(), params[i..])
      invariant g.v.Advances(from, g.Out(), 20 * i, {}) && |g.code| == |from.code| + 20 * i
      invariant ParamsSoFar(g.v, g.Out(), |from.code|, params, sc, |g.code|, params[i..], i, g.Names())
    {
      ghost var a, rest, sc1 := g.Out(), params[i..], g.Names();
      Param(g, params[i], i);
      InTurn(g.v, from, a, g.Out(), 20 * i, 20, {});
      NextParam(g.v, a, g.Out(), |from.code|, params, sc, |a.code|, rest, i, sc1);
      assert params[i + 1..] == rest[1..];
      i := i + 1;
    }
    NoProgress(g.v, g.Out());
    Advanced(g.v, g.Out(), g.Out(), 0, {});
    Advanced(g.v, from, g.Out(), 20 * i, {});
  }

  ghost predicate ParamOut(v: View, a: Asm, p: nat, slot: u64, i: nat)
  {
    v.Push(a, p, slot) && v.Push(a, p + 9, Wrap(i + 1)) && v.Op(a, p + 18, VM.CDLOAD) && v.Op(a, p + 19, VM.SSTORE)
  }

  lemma {:induction false} ParamStays(v: View, a: Asm, b: Asm, p: nat, slot: u64, i: nat)
    requires Faithful(v) == true && v.Later(a, b) && ParamOut(v, a, p, slot, i)
    ensures ParamOut(v, b, p, slot, i)
  {
    KeepPush(v, a, b, p, slot);
    KeepPush(v, a, b, p + 9, Wrap(i + 1));
    KeepOp(v, a, b, p + 18, VM.CDLOAD);
    KeepOp(v, a, b, p + 19, VM.SSTORE);
  }

  /** Storing calldata word `i + 1` in the parameter's slot. */
  method Param(g: Gen, name: Name, i: nat)
    requires g.Ready()
    modifies g`code, g`vars, g`next
    ensures g.Ready() && g.Names() == Bind(old(g.Names()), name)
    ensures g.v.Advances(old(g.Out()), g.Out(), 20, {}) && g.v.Later(old(g.Out()), g.Out())
            && |g.code| == old(|g.code|) + 20
    ensures ParamOut(g.v, g.Out(), old(|g.code|), g.vars[name], i)
  {
    var slot := g.Slot(name);
    g.PushU64(slot);
    ghost var a := g.Out();
    g.PushU64(Wrap(i + 1));
    ghost var b := g.Out();
    InTurn(g.v, old(g.Out()), a, b, 9, 9, {});
    g.Emit(VM.CDLOAD);
    ghost var c := g.Out();
    InTurn(g.v, old(g.Out()), b, c, 18, 1, {});
    g.Emit(VM.SSTORE);
    InTurn(g.v, old(g.Out()), c, g.Out(), 19, 1, {});
    Advanced(g.v, old(g.Out()), g.Out(), 20, {});
    AndThen(g.v, b, c, g.Out());
    AndThen(g.v, a, b, g.Out());
    KeepPush(g.v, a, g.Out(), old(|g.code|), slot);
    KeepPush(g.v, b, g.Out(), old(|g.code|) + 9, Wrap(i + 1));
    KeepOp(g.v, c, g.Out(), old(|g.code|) + 18, VM.CDLOAD);
  }

  ghost predicate ParamsSoFar(v: View, a: Asm, p: nat, params: seq<Name>, sc: Scope, q: nat, rest: seq<Name>, i: nat,
      sc1: Scope)
  {
    forall b :: v.Later(a, b) && ParamsOut(v, b, q, rest, i, sc1) ==> ParamsOut(v, b, p, params, 0, sc)
  }

  lemma {:induction false} NextParam(v: View, a: Asm, b: Asm, p: nat, params: seq<Name>, sc: Scope, q: nat,
      rest: seq<Name>, i: nat, sc1: Scope)
    requires Faithful(v) == true && v.Later(a, b) && rest != []
    requires ParamsSoFar(v, a, p, params, sc, q, rest, i, sc1) && ParamOut(v, b, q, Bind(sc1, rest[0]).vars[rest[0]], i)
    ensures ParamsSoFar(v, b, p, params, sc, q + 20, rest[1..], i + 1, Bind(sc1, rest[0]))
  {
    forall c | v.Later(b, c)
    && ParamsOut(v, c, q + 20, rest[1..], i + 1, Bind(sc1, rest[0])) ensures ParamsOut(v, c, p, params, 0, sc) {
      AndThen(v, a, b, c);
      ParamStays(v, b, c, q, Bind(sc1, rest[0]).vars[rest[0]], i);
    }
  }

  /** One function: drop the selector, bind the parameters in a fresh scope, the body, STOP. */
  method FnCode(g: Gen, fn: FnDecl) returns (err: Option<CompileError>)
    requires g.Ready()
    modifies g
    ensures err == CheckStmts(fn.body, BindAll(FreshLocals(old(g.Names())), fn.params))
    ensures err.None? ==> g.Ready() && FreshLocals(g.Names()) == FreshLocals(old(g.Names()))
    ensures err.None? ==> g.v.Advances(old(g.Out()), g.Out(), FnSize(fn), {})
    ensures err.None? ==> FnOut(g.v, g.Out(), old(|g.code|), fn, old(g.Names()))
  {
    ghost var n, bn := 20 * |fn.params|, StmtsSize(fn.body);
    g.Emit(VM.POP);
    ghost var a := g.Out();
    g.vars, g.next := map[], LOCAL_BASE;
    Params(g, fn.params);
    ghost var b, inner := g.Out(), g.Names();
    InTurn(g.v, old(g.Out()), a, b, 1, n, {});
    Advanced(g.v, a, b, n, {});
    err := g.Stmts(fn.body);
    if err.Some? { return; }
    ghost var c := g.Out();
    InTurn(g.v, old(g.Out()), b, c, 1 + n, bn, {});
    g.Emit(VM.STOP);
    InTurn(g.v, old(g.Out()), c, g.Out(), 1 + n + bn, 1, {});
    AndThen(g.v, b, c, g.Out());
    AndThen(g.v, a, b, g.Out());
    KeepOp(g.v, a, g.Out(), old(|g.code|), VM.POP);
    ParamsStay(g.v, b, g.Out(), |a.code|, fn.params, 0, FreshLocals(old(g.Names())));
    KeepStmts(g.v, c, g.Out(), |b.code|, fn.body, inner);
    StateIsFixed(fn.params, FreshLocals(old(g.Names())));
    LocalsOnlyAll(fn.body, inner);
  }

  /** Parameters and statements allocate locals and nothing else. */
  lemma {:induction false} StateIsFixed(names: seq<Name>, sc: Scope)
    ensures FreshLocals(BindAll(sc, names)) == FreshLocals(sc)
    decreases names
  {
    if names != [] { StateIsFixed(names[1..], Bind(sc, names[0])); }
  }

  lemma {:induction false} LocalsOnly(s: Stmt, sc: Scope)
    ensures FreshLocals(ScopeAfter(s, sc)) == FreshLocals(sc)
    decreases s, 1
  {
    match s
    case If(_, thn, els) =>
      LocalsOnlyAll(thn, sc);
      LocalsOnlyAll(els, ScopeAfterAll(thn, sc));
    case While(_, body) => LocalsOnlyAll(body, sc);
    case _ =>
  }

  lemma {:induction false} LocalsOnlyAll(ss: seq<Stmt>, sc: Scope)
    ensures FreshLocals(ScopeAfterAll(ss, sc)) == FreshLocals(sc)
    decreases ss, 0
  {
    if ss != [] {
      LocalsOnly(ss[0], sc);
      LocalsOnlyAll(ss[1..], ScopeAfter(ss[0], sc));
    }
  }

  /** One comparison of the router. */
  method Route(g: Gen, selector: u64, l: nat)
    requires g.Ready() && l < |g.labels|
    modifies g`code, g`fixups
    ensures g.Ready() && g.v.Advances(old(g.Out()), g.Out(), 21, {}) && |g.code| == old(|g.code|) + 21
    ensures RouteOut(g.v, g.Out(), old(|g.code|), selector, l)
  {
    g.Emit(VM.DUP);
    ghost var a := g.Out();
    g.PushU64(selector);
    ghost var b := g.Out();
    InTurn(g.v, old(g.Out()), a, b, 1, 9, {});
    g.Emit(VM.EQ);
    ghost var c := g.Out();
    InTurn(g.v, old(g.Out()), b, c, 10, 1, {});
    g.Jump(l, VM.JUMPI);
    InTurn(g.v, old(g.Out()), c, g.Out(), 11, 10, {});
    AndThen(g.v, b, c, g.Out());
    AndThen(g.v, a, b, g.Out());
    KeepOp(g.v, a, g.Out(), old(|g.code|), VM.DUP);
    KeepPush(g.v, b, g.Out(), old(|g.code|) + 1, selector);
    KeepOp(g.v, c, g.Out(), old(|g.code|) + 10, VM.EQ);
  }

  /* ----- The dispatcher ----- */

  ghost predicate RoutesSoFar(v: View, a: Asm, p: nat, digest: seq<byte> -> u64, fns: seq<FnDecl>, l: nat, q: nat,
      rest: seq<FnDecl>, l1: nat)
  {
    forall b :: v.Later(a, b) && RoutesOut(v, b, q, digest, rest, l1) ==> RoutesOut(v, b, p, digest, fns, l)
  }

  lemma {:induction false} NextRoute(v: View, a: Asm, b: Asm, p: nat, digest: seq<byte> -> u64, fns: seq<FnDecl>,
      l: nat, q: nat, rest: seq<FnDecl>, l1: nat)
    requires Faithful(v) == true && v.Later(a, b) && rest != []
    requires RoutesSoFar(v, a, p, digest, fns, l, q, rest, l1) && RouteOut(v, b, q, digest(rest[0].name), l1)
    ensures RoutesSoFar(v, b, p, digest, fns, l, q + 21, rest[1..], l1 + 1)
  {
    forall c | v.Later(b, c)
    && RoutesOut(v, c, q + 21, digest, rest[1..], l1 + 1) ensures RoutesOut(v, c, p, digest, fns, l) {
      AndThen(v, a, b, c);
      RouteStays(v, b, c, q, digest(rest[0].name), l1);
    }
  }

  ghost function Range(lo: int, hi: int): (s: set<int>)
    decreases hi - lo
  {
    if hi <= lo then {} else {lo} + Range(lo + 1, hi)
  }

  lemma {:induction false} RangeHolds(lo: int, hi: int, x: int)
    ensures x in Range(lo, hi) <==> lo <= x < hi
    decreases hi - lo
  {
    if lo < hi { RangeHolds(lo + 1, hi, x); }
  }

  lemma {:induction false} RangeGrows(lo: int, hi: int)
    requires lo <= hi
    ensures Range(lo, hi) + {hi} == Range(lo, hi + 1)
    decreases hi - lo
  {
    if lo < hi { RangeGrows(lo + 1, hi); }
  }

  lemma {:induction false} RangeShrinks(lo: int, hi: int)
    requires lo < hi
    ensures Range(lo, hi) - {lo} == Range(lo + 1, hi)
  {
    RangeHolds(lo + 1, hi, lo);
  }

  /** The router: one label per function, compared with the selector in turn. */
  method Routes(g: Gen, digest: seq<byte> -> u64, fns: seq<FnDecl>) returns (fnLabels: seq<nat>)
    requires g.Ready()
    modifies g`code, g`labels, g`fixups
    ensures g.Ready() && |fnLabels| == |fns| && |g.labels| == old(|g.labels|) + |fns|
    ensures forall i :: 0 <= i < |fns| ==> fnLabels[i] == old(|g.labels|) + i
    ensures forall x :: old(|g.labels|) <= x < |g.labels| ==> g.labels[x] == -1
    ensures g.v.Advances(old(g.Out()), g.Out(), 21 * |fns|, Range(old(|g.labels|), old(|g.labels|) + |fns|))
    ensures RoutesOut(g.v, g.Out(), old(|g.code|), digest, fns, old(|g.labels|))
  {
    NoProgress(g.v, g.Out());
    ghost var from, l := g.Out(), |g.labels|;
    assert Range(l, l) == {};
    fnLabels := [];
    var i := 0;
    while i < |fns|
      invariant 0 <= i <= |fns| && g.Ready() && |fnLabels| == i && g.labels == from.labels + seq(i, j => -1)
      invariant forall j :: 0 <= j < i ==> fnLabels[j] == l + j
      invariant g.v.Advances(from, g.Out(), 21 * i, Range(l, l + i)) && |g.code| == |from.code| + 21 * i
      invariant RoutesSoFar(g.v, g.Out(), |from.code|, digest, fns, l, |g.code|, fns[i..], l + i)
    {
      ghost var a, rest := g.Out(), fns[i..];
      MakesLabel(g.v, from, a, 21 * i, Range(l, l + i));
      RangeGrows(l, l + i);
      var fl := g.NewLabel();
      fnLabels := fnLabels + [fl];
      ghost var b := g.Out();
      Route(g, digest(fns[i].name), fl);
      InTurn(g.v, from, b, g.Out(), 21 * i, 21, Range(l, l + i + 1));
      Advanced(g.v, b, g.Out(), 21, {});
      AndThen(g.v, a, b, g.Out());
      NextRoute(g.v, a, g.Out(), |from.code|, digest, fns, l, |a.code|, rest, l + i);
      assert fns[i + 1..] == rest[1..];
      i := i + 1;
    }
    NoProgress(g.v, g.Out());
    Advanced(g.v, g.Out(), g.Out(), 0, {});
  }

  ghost predicate FnsSoFar(v: View, a: Asm, p: nat, fns: seq<FnDecl>, sc: Scope, l: nat, q: nat, rest: seq<FnDecl>,
      l1: nat)
  {
    forall b :: v.Later(a, b) && FnsOut(v, b, q, rest, sc, l1) ==> FnsOut(v, b, p, fns, sc, l)
  }

  lemma {:induction false} NextFn(v: View, a: Asm, b: Asm, p: nat, fns: seq<FnDecl>, sc: Scope, l: nat, q: nat,
      rest: seq<FnDecl>, l1: nat)
    requires Faithful(v) == true && v.Later(a, b) && rest != [] && l1 < |b.labels| && b.labels[l1] == q
    requires FnsSoFar(v, a, p, fns, sc, l, q, rest, l1) && FnOut(v, b, q, rest[0], sc)
    ensures FnsSoFar(v, b, p, fns, sc, l, q + FnSize(rest[0]), rest[1..], l1 + 1)
  {
    forall c | v.Later(b, c)
    && FnsOut(v, c, q + FnSize(rest[0]), rest[1..], sc, l1 + 1) ensures FnsOut(v, c, p, fns, sc, l) {
      AndThen(v, a, b, c);
      FnStays(v, b, c, q, rest[0], sc);
      MarkStays(v, b, c, l1);
    }
  }

  lemma {:induction false} FreshAgain(sc: Scope, sc1: Scope, fn: FnDecl, v: View, a: Asm, p: nat)
    requires FreshLocals(sc) == FreshLocals(sc1)
    ensures FnOut(v, a, p, fn, sc) == FnOut(v, a, p, fn, sc1)
  {
  }

  lemma {:induction false} CheckFnsAgain(fns: seq<FnDecl>, sc: Scope, sc1: Scope)
    requires FreshLocals(sc) == FreshLocals(sc1)
    ensures CheckFns(fns, sc) == CheckFns(fns, sc1)
    decreases fns
  {
    if fns != [] { CheckFnsAgain(fns[1..], sc, sc1); }
  }

  /** One function at its label; labels up to `hi` are still to be marked. */
  method Body(g: Gen, fn: FnDecl, fl: nat, ghost from: Asm, ghost n: nat, ghost hi: nat, ghost sc: Scope)
      returns (err: Option<CompileError>)
    requires g.Ready() && |from.labels| <= fl < hi <= |g.labels| && g.labels[fl] == -1
             && FreshLocals(g.Names()) == FreshLocals(sc)
    requires g.v.Advances(from, g.Out(), n, Range(fl, hi))
    modifies g
    ensures err == CheckStmts(fn.body, BindAll(FreshLocals(sc), fn.params))
    ensures err.None? ==>
              g.Ready() && FreshLocals(g.Names()) == FreshLocals(sc) && |g.code| == old(|g.code|) + FnSize(fn)
    ensures err.None? ==>
              g.v.Advances(from, g.Out(), n + FnSize(fn), Range(fl + 1, hi)) && g.v.Later(old(g.Out()), g.Out())
    ensures err.None? ==>
              |g.labels| >= old(|g.labels|) && g.labels[..old(|g.labels|)] == old(g.labels)[fl := old(|g.code|)]
    ensures err.None? ==> FnOut(g.v, g.Out(), old(|g.code|), fn, sc) == true
  {
    ghost var a, sc1 := g.Out(), g.Names();
    MarksLabel(g.v, from, a, fl, n, Range(fl, hi));
    RangeShrinks(fl, hi);
    g.Mark(fl);
    ghost var b := g.Out();
    err := FnCode(g, fn);
    if err.Some? { return; }
    InTurn(g.v, from, b, g.Out(), n, FnSize(fn), Range(fl + 1, hi));
    Advanced(g.v, b, g.Out(), FnSize(fn), {});
    AndThen(g.v, a, b, g.Out());
    FreshAgain(sc, sc1, fn, g.v, g.Out(), |a.code|);
  }

  /** `i` functions are written since the output was `start`, in scope `sc`; the next one is at label `l + i`. */
  ghost predicate BodiesSoFar(v: View, start: Asm, a: Asm, fns: seq<FnDecl>, sc: Scope, l: nat, i: nat)
    requires i <= |fns|
  {
    v.Later(start, a) && |a.labels| >= l + |fns| && (forall x :: l + i <= x < l + |fns| ==> a.labels[x] == -1)
    && FnsSoFar(v, a, |start.code|, fns, sc, l, |a.code|, fns[i..], l + i)
  }

  lemma {:induction false} NextBody(v: View, start: Asm, a: Asm, b: Asm, fns: seq<FnDecl>, sc: Scope, l: nat, i: nat)
    requires Faithful(v) == true && i < |fns| && BodiesSoFar(v, start, a, fns, sc, l, i) && v.Later(a, b)
    requires |b.labels| >= |a.labels| && b.labels[..|a.labels|] == a.labels[l + i := |a.code|]
    requires FnOut(v, b, |a.code|, fns[i], sc) && |b.code| == |a.code| + FnSize(fns[i])
    ensures BodiesSoFar(v, start, b, fns, sc, l, i + 1) == true
  {
    AndThen(v, start, a, b);
    assert forall x :: l + i < x < l + |fns| ==> b.labels[x] == b.labels[..|a.labels|][x];
    assert b.labels[l + i] == b.labels[..|a.labels|][l + i];
    NextFn(v, a, b, |start.code|, fns, sc, l, |a.code|, fns[i..], l + i);
    assert fns[i + 1..] == fns[i..][1..];
  }

  /** The next function, at its label. */
  method NextFunction(g: Gen, fns: seq<FnDecl>, i: nat, fl: nat, ghost from: Asm, ghost n: nat, ghost start: Asm,
      ghost sc: Scope, ghost l: nat)
    returns (err: Option<CompileError>)
    requires g.Ready() && i < |fns| && fl == l + i && |from.labels| <= l
             && BodiesSoFar(g.v, start, g.Out(), fns, sc, l, i) == true
    requires FreshLocals(g.Names()) == FreshLocals(sc) && g.v.Advances(from, g.Out(), n, Range(l + i, l + |fns|))
    modifies g
    ensures err == CheckStmts(fns[i].body, BindAll(FreshLocals(sc), fns[i].params))
    ensures err.None? ==> g.Ready() && BodiesSoFar(g.v, start, g.Out(), fns, sc, l, i + 1) == true
    ensures err.None? ==> FreshLocals(g.Names()) == FreshLocals(sc)
    ensures err.None? ==> g.v.Advances(from, g.Out(), n + FnSize(fns[i]), Range(l + i + 1, l + |fns|))
  {
    ghost var a := g.Out();
    BodyIsNext(g.v, start, a, fns, sc, l, i);
    err := Body(g, fns[i], fl, from, n, l + |fns|, sc);
    if err.Some? { return; }
    NextBody(g.v, start, a, g.Out(), fns, sc, l, i);
  }

  /** The function bodies, each at its label. */
  method Bodies(g: Gen, fns: seq<FnDecl>, fnLabels: seq<nat>, ghost from: Asm, ghost n0: nat, ghost l: nat)
      returns (err: Option<CompileError>)
    requires g.Ready() && |fnLabels| == |fns| && |from.labels| <= l && |g.labels| == l + |fns|
    requires forall i :: 0 <= i < |fns| ==> fnLabels[i] == l + i
    requires forall x :: l <= x < l + |fns| ==> g.labels[x] == -1
    requires g.v.Advances(from, g.Out(), n0, Range(l, l + |fns|))
    modifies g
    ensures err == CheckFns(fns, old(g.Names()))
    ensures err.None? ==>
              g.Ready() && g.v.Advances(from, g.Out(), n0 + FnsSize(fns), {}) && g.v.Later(old(g.Out()), g.Out())
    ensures err.None? ==> FnsOut(g.v, g.Out(), old(|g.code|), fns, old(g.Names()), l) == true
  {
    ghost var start, sc := g.Out(), g.Names();
    ghost var done: nat := 0;
    NoBodies(g.v, g.Out(), fns, sc, l);
    var i := 0;
    while i < |fns|
      invariant 0 <= i <= |fns| && g.Ready() && BodiesSoFar(g.v, start, g.Out(), fns, sc, l, i) == true
      invariant FreshLocals(g.Names()) == FreshLocals(sc) && CheckFns(fns, sc) == CheckFns(fns[i..], sc)
      invariant done + FnsSize(fns[i..]) == FnsSize(fns)
      invariant g.v.Advances(from, g.Out(), n0 + done, Range(l + i, l + |fns|))
    {
      FnsStep(fns, i, sc);
      err := NextFunction(g, fns, i, fnLabels[i], from, n0 + done, start, sc, l);
      if err.Some? { return; }
      done, i := done + FnSize(fns[i]), i + 1;
    }
    AllBodies(g.v, start, g.Out(), fns, sc, l);
    err := None;
  }

  lemma {:induction false} NoBodies(v: View, a: Asm, fns: seq<FnDecl>, sc: Scope, l: nat)
    requires Faithful(v) == true && v.Sound(a) && |a.labels| == l + |fns|
             && forall x :: l <= x < l + |fns| ==> a.labels[x] == -1
    ensures BodiesSoFar(v, a, a, fns, sc, l, 0) == true
  {
    Reflexive(v, a);
    assert fns[0..] == fns;
  }

  lemma {:induction false} BodyIsNext(v: View, start: Asm, a: Asm, fns: seq<FnDecl>, sc: Scope, l: nat, i: nat)
    requires i < |fns| && BodiesSoFar(v, start, a, fns, sc, l, i)
    ensures l + |fns| <= |a.labels| && a.labels[l + i] == -1
    ensures fns[i..] != [] && fns[i..][0] == fns[i] && fns[i..][1..] == fns[i + 1..]
  {
  }

  lemma {:induction false} FnsStep(fns: seq<FnDecl>, i: nat, sc: Scope)
    requires i < |fns|
    ensures CheckFns(fns[i..], sc)
            == Then(CheckStmts(fns[i].body, BindAll(FreshLocals(sc), fns[i].params)), CheckFns(fns[i + 1..], sc))
    ensures FnsSize(fns[i..]) == FnSize(fns[i]) + FnsSize(fns[i + 1..])
  {
    assert fns[i..][1..] == fns[i + 1..];
  }

  lemma {:induction false} AllBodies(v: View, start: Asm, a: Asm, fns: seq<FnDecl>, sc: Scope, l: nat)
    requires Faithful(v) == true && v.Sound(a) && BodiesSoFar(v, start, a, fns, sc, l, |fns|)
    ensures FnsOut(v, a, |start.code|, fns, sc, l) == true && v.Later(start, a) && Range(l + |fns|, l + |fns|) == {}
  {
    Reflexive(v, a);
    assert FnsOut(v, a, |a.code|, fns[|fns|..], sc, l + |fns|);
  }

  lemma {:induction false} Reflexive(v: View, a: Asm)
    requires Faithful(v) == true && v.Sound(a)
    ensures v.Later(a, a)
  {
    NoProgress(v, a);
    Advanced(v, a, a, 0, {});
  }

  ghost predicate RouterOut(v: View, a: Asm, p: nat, digest: seq<byte> -> u64, fns: seq<FnDecl>, l: nat)
  {
    v.Push(a, p, 0) && v.Op(a, p + 9, VM.CDLOAD) && RoutesOut(v, a, p + 10, digest, fns, l)
    && v.Op(a, p + 10 + 21 * |fns|, VM.POP) && v.Op(a, p + 11 + 21 * |fns|, VM.REVERT)
  }

  /** What the dispatcher leaves in the output. */
  ghost predicate DispatchOut(v: View, a: Asm, p: nat, digest: seq<byte> -> u64, fns: seq<FnDecl>, sc: Scope, l: nat)
  {
    RouterOut(v, a, p, digest, fns, l) && FnsOut(v, a, p + 12 + 21 * |fns|, fns, sc, l)
  }

  lemma {:induction false} DispatchLaidOut(v: View, a: Asm, img: Image, p: nat, digest: seq<byte> -> u64,
      fns: seq<FnDecl>, sc: Scope, l: nat)
    requires Faithful(v) == true && img in Shown(a) && DispatchOut(v, a, p, digest, fns, sc, l)
    ensures DispatchAt(img, p, digest, fns, sc) == true
  {
    RoutesLaidOut(v, a, img, p + 10, digest, fns, l, p + 12 + 21 * |fns|, sc);
    FnsLaidOut(v, a, img, p + 12 + 21 * |fns|, fns, sc, l);
    assert Open(a);
  }

  /** The router between its prologue, the load of the selector, and the revert when nothing matches. */
  method Router(g: Gen, digest: seq<byte> -> u64, fns: seq<FnDecl>) returns (fnLabels: seq<nat>)
    requires g.Ready()
    modifies g`code, g`labels, g`fixups
    ensures g.Ready() && |fnLabels| == |fns| && |g.labels| == old(|g.labels|) + |fns|
    ensures forall i :: 0 <= i < |fns| ==> fnLabels[i] == old(|g.labels|) + i
    ensures forall x :: old(|g.labels|) <= x < |g.labels| ==> g.labels[x] == -1
    ensures g.v.Advances(old(g.Out()), g.Out(), 12 + 21 * |fns|, Range(old(|g.labels|), old(|g.labels|) + |fns|))
    ensures |g.code| == old(|g.code|) + 12 + 21 * |fns|
            && RouterOut(g.v, g.Out(), old(|g.code|), digest, fns, old(|g.labels|))
  {
    ghost var v, from, p, n := g.v, g.Out(), |g.code|, |fns|;
    ghost var pending := Range(|g.labels|, |g.labels| + n);
    g.PushU64(0);
    ghost var a := g.Out();
    g.Emit(VM.CDLOAD);
    ghost var b := g.Out();
    InTurn(v, from, a, b, 9, 1, {});
    fnLabels := Routes(g, digest, fns);
    ghost var c := g.Out();
    AfterRoutes(v, from, b, c, n, pending);
    g.Emit(VM.POP);
    ghost var d := g.Out();
    InTurn(v, from, c, d, 10 + 21 * n, 1, pending);
    g.Emit(VM.REVERT);
    InTurn(v, from, d, g.Out(), 11 + 21 * n, 1, pending);
    RouterIsOut(v, a, b, c, d, g.Out(), p, digest, fns, old(|g.labels|));
  }

  method Dispatch(g: Gen, digest: seq<byte> -> u64, fns: seq<FnDecl>) returns (err: Option<CompileError>)
    requires g.Ready()
    modifies g
    ensures err == CheckFns(fns, old(g.Names()))
    ensures err.None? ==> g.Ready() && g.v.Advances(old(g.Out()), g.Out(), DispatchSize(fns), {})
    ensures err.None? ==> DispatchOut(g.v, g.Out(), old(|g.code|), digest, fns, old(g.Names()), old(|g.labels|))
  {
    ghost var from, p, l := g.Out(), |g.code|, |g.labels|;
    var fnLabels := Router(g, digest, fns);
    ghost var a := g.Out();
    err := Bodies(g, fns, fnLabels, from, 12 + 21 * |fns|, l);
    if err.Some? { return; }
    RouterStays(g.v, a, g.Out(), p, digest, fns, l);
  }

  lemma {:induction false} AfterRoutes(v: View, a: Asm, b: Asm, c: Asm, n: nat, pending: set<int>)
    requires Faithful(v) == true && v.Advances(a, b, 10, {}) && b.labels == a.labels
             && v.Advances(b, c, 21 * n, pending)
    ensures v.Advances(a, c, 10 + 21 * n, pending) && |c.code| == |b.code| + 21 * n && v.Later(b, c)
  {
    assert Open(a) && Open(b);
    LaterTransitive(a, b, c);
  }

  lemma {:induction false} RouterIsOut(v: View, a: Asm, b: Asm, c: Asm, d: Asm, e: Asm, p: nat,
      digest: seq<byte> -> u64, fns: seq<FnDecl>, l: nat)
    requires Faithful(v) == true && v.Later(a, b) && v.Later(b, c) && v.Later(c, d) && v.Later(d, e)
    requires v.Push(a, p, 0) && v.Op(b, p + 9, VM.CDLOAD) && RoutesOut(v, c, p + 10, digest, fns, l)
    requires v.Op(d, p + 10 + 21 * |fns|, VM.POP) && v.Op(e, p + 11 + 21 * |fns|, VM.REVERT)
    ensures RouterOut(v, e, p, digest, fns, l)
  {
    AndThen(v, c, d, e);
    AndThen(v, b, c, e);
    AndThen(v, a, b, e);
    KeepPush(v, a, e, p, 0);
    KeepOp(v, b, e, p + 9, VM.CDLOAD);
    RoutesStay(v, c, e, p + 10, digest, fns, l);
    KeepOp(v, d, e, p + 10 + 21 * |fns|, VM.POP);
  }

  lemma {:induction false} RouterStays(v: View, a: Asm, b: Asm, p: nat, digest: seq<byte> -> u64, fns: seq<FnDecl>,
      l: nat)
    requires Faithful(v) == true && v.Later(a, b) && RouterOut(v, a, p, digest, fns, l)
    ensures RouterOut(v, b, p, digest, fns, l)
  {
    KeepPush(v, a, b, p, 0);
    KeepOp(v, a, b, p + 9, VM.CDLOAD);
    RoutesStay(v, a, b, p + 10, digest, fns, l);
    KeepOp(v, a, b, p + 10 + 21 * |fns|, VM.POP);
    KeepOp(v, a, b, p + 11 + 21 * |fns|, VM.REVERT);
  }

  /* ----- Whole programs ----- */

  datatype Compiled = Code(code: seq<byte>) | Refused(err: CompileError)

  /** First pass: register state names; split functions from top-level statements. */
  method Split(g: Gen, items: seq<Item>) returns (flat: seq<Stmt>, fns: seq<FnDecl>)
    modifies g`state, g`nextState
    ensures g.Names() == DeclareAll(old(g.Names()), items) && flat == Statements(items) && fns == Functions(items)
  {
    ghost var sc := g.Names();
    flat, fns := [], [];
    var i := 0;
    while i < |items|
      invariant 0 <= i <= |items| && DeclareAll(sc, items) == DeclareAll(g.Names(), items[i..])
      invariant Statements(items) == flat + Statements(items[i..]) && Functions(items) == fns + Functions(items[i..])
    {
      assert items[i..][1..] == items[i + 1..];
      match items[i] {
        case StateItem(name) => var _ := g.DeclState(name);
        case FnItem(fn) => fns := fns + [fn];
        case StmtItem(s) => flat := flat + [s];
      }
      i := i + 1;
    }
  }

  ghost predicate ProgramOut(v: View, a: Asm, digest: seq<byte> -> u64, items: seq<Item>, l: nat)
  {
    var sc, flat, fns := DeclareAll(EMPTY_SCOPE, items), Statements(items), Functions(items);
    v.Stmts(a, 0, flat, sc) && (fns == [] || DispatchOut(v, a, StmtsSize(flat), digest, fns, sc, l))
    && |a.code| == ProgramSize(items) && v.Op(a, |a.code| - 1, VM.STOP)
  }

  lemma {:induction false} StmtsLaidOut(v: View, a: Asm, img: Image, p: nat, ss: seq<Stmt>, sc: Scope)
    requires Faithful(v) == true && img in Shown(a) && v.Stmts(a, p, ss, sc)
    ensures StmtsAt(img, p, ss, sc) == true
  {
    assert Open(a);
  }

  lemma {:induction false} OpLaidOut(v: View, a: Asm, img: Image, p: nat, op: byte)
    requires Faithful(v) == true && img in Shown(a) && v.Op(a, p, op)
    ensures OpAt(img, p, op)
  {
    assert Open(a);
  }

  lemma {:induction false} ProgramParts(code: seq<byte>, img: Image, digest: seq<byte> -> u64, items: seq<Item>)
    requires img == ImageOf(code) && |code| == ProgramSize(items) && OpAt(img, |code| - 1, VM.STOP)
    requires StmtsAt(img, 0, Statements(items), DeclareAll(EMPTY_SCOPE, items)) == true
    requires Functions(items) == []
          || DispatchAt(img, StmtsSize(Statements(items)), digest, Functions(items),
                        DeclareAll(EMPTY_SCOPE, items)) == true
    ensures ProgramAt(code, digest, items) == true
  {
  }

  lemma {:induction false} ProgramLaidOut(v: View, a: Asm, code: seq<byte>, digest: seq<byte> -> u64, items: seq<Item>,
      l: nat)
    requires Faithful(v) == true && ImageOf(code) in Shown(a) && |code| == |a.code|
             && ProgramOut(v, a, digest, items, l)
    ensures ProgramAt(code, digest, items) == true
  {
    var img, sc, flat, fns := ImageOf(code), DeclareAll(EMPTY_SCOPE, items), Statements(items), Functions(items);
    StmtsLaidOut(v, a, img, 0, flat, sc);
    if fns != [] { DispatchLaidOut(v, a, img, StmtsSize(flat), digest, fns, sc, l); }
    OpLaidOut(v, a, img, |a.code| - 1, VM.STOP);
    ProgramParts(code, img, digest, items);
  }

  lemma {:induction false} DispatchAgain(v: View, a: Asm, p: nat, digest: seq<byte> -> u64, fns: seq<FnDecl>, sc: Scope,
      sc1: Scope, l: nat)
    requires FreshLocals(sc) == FreshLocals(sc1) && DispatchOut(v, a, p, digest, fns, sc, l)
    ensures DispatchOut(v, a, p, digest, fns, sc1, l)
  {
    FnsAgain(v, a, p + 12 + 21 * |fns|, fns, sc, sc1, l);
  }

  lemma {:induction false} FnsAgain(v: View, a: Asm, p: nat, fns: seq<FnDecl>, sc: Scope, sc1: Scope, l: nat)
    requires FreshLocals(sc) == FreshLocals(sc1) && FnsOut(v, a, p, fns, sc, l)
    ensures FnsOut(v, a, p, fns, sc1, l)
    decreases fns
  {
    if fns != [] {
      FreshAgain(sc, sc1, fns[0], v, a, p);
      FnsAgain(v, a, p + FnSize(fns[0]), fns[1..], sc, sc1, l + 1);
    }
  }

  lemma {:induction false} DispatchStays(v: View, a: Asm, b: Asm, p: nat, digest: seq<byte> -> u64, fns: seq<FnDecl>,
      sc: Scope, l: nat)
    requires Faithful(v) == true && v.Later(a, b) && DispatchOut(v, a, p, digest, fns, sc, l)
    ensures DispatchOut(v, b, p, digest, fns, sc, l)
  {
    RouterStays(v, a, b, p, digest, fns, l);
    FnsStay(v, a, b, p + 12 + 21 * |fns|, fns, sc, l);
  }

  lemma {:induction false} FnsStay(v: View, a: Asm, b: Asm, p: nat, fns: seq<FnDecl>, sc: Scope, l: nat)
    requires Faithful(v) == true && v.Later(a, b) && FnsOut(v, a, p, fns, sc, l)
    ensures FnsOut(v, b, p, fns, sc, l)
    decreases fns
  {
    if fns != [] {
      MarkStays(v, a, b, l);
      FnStays(v, a, b, p, fns[0], sc);
      FnsStay(v, a, b, p + FnSize(fns[0]), fns[1..], sc, l + 1);
    }
  }

  /** Everything but the back-patching. */
  method Generate(g: Gen, digest: seq<byte> -> u64, flat: seq<Stmt>, fns: seq<FnDecl>)
      returns (err: Option<CompileError>, ghost l: nat)
    requires g.Ready() && g.code == []
    modifies g
    ensures err == Then(CheckStmts(flat, old(g.Names())), CheckFns(fns, old(g.Names())))
    ensures err.None? ==> g.Ready() && g.v.Stmts(g.Out(), 0, flat, old(g.Names()))
    ensures err.None? ==> fns == [] || DispatchOut(g.v, g.Out(), StmtsSize(flat), digest, fns, old(g.Names()), l)
    ensures err.None? ==> |g.code| == StmtsSize(flat) + (if fns == [] then 0 else DispatchSize(fns))
  {
    l := 0;
    ghost var sc := g.Names();
    err := g.Stmts(flat);
    if err.Some? { return; }
    ghost var a, sc1 := g.Out(), g.Names();
    LocalsOnlyAll(flat, sc);
    CheckFnsAgain(fns, sc, sc1);
    if |fns| > 0 {
      l := |g.labels|;
      err := Dispatch(g, digest, fns);
      if err.Some? { return; }
      DispatchAgain(g.v, g.Out(), |a.code|, digest, fns, sc1, sc, l);
      Advanced(g.v, a, g.Out(), DispatchSize(fns), {});
      KeepStmts(g.v, a, g.Out(), 0, flat, sc);
    }
  }

  /** STOP, then back-patching: the code is as the output says. */
  method Finish(g: Gen, digest: seq<byte> -> u64, ghost items: seq<Item>, ghost l: nat)
    requires g.Ready() && g.v.Stmts(g.Out(), 0, Statements(items), DeclareAll(EMPTY_SCOPE, items))
    requires Functions(items) == []
          || DispatchOut(g.v, g.Out(), StmtsSize(Statements(items)), digest, Functions(items),
                         DeclareAll(EMPTY_SCOPE, items), l)
    requires |g.code| + 1 == ProgramSize(items)
    modifies g
    ensures ProgramAt(g.code, digest, items) == true
  {
    ghost var a, flat, fns, sc := g.Out(), Statements(items), Functions(items), DeclareAll(EMPTY_SCOPE, items);
    g.Emit(VM.STOP);
    ghost var b := g.Out();
    KeepStmts(g.v, a, b, 0, flat, sc);
    if fns != [] { DispatchStays(g.v, a, b, StmtsSize(flat), digest, fns, sc, l); }
    assert Sound(b) by { assert Open(b); }
    Resolve(g);
    FilledIsShown(b, g.code);
    ProgramLaidOut(g.v, b, g.code, digest, items, l);
  }

  /**
   Compiles a program to bytecode, or reports the first error. The bytecode is the program's layout,
   every jump at its absolute address.
   */
  method Compile(items: seq<Item>, digest: seq<byte> -> u64) returns (r: Compiled)
    ensures match CheckProgram(items)
            case Some(e) => r == Refused(e)
            case None => r.Code? && ProgramAt(r.code, digest, items)
  {
    var g := new Gen();
    var flat, fns := Split(g, items);
    var err, l := Generate(g, digest, flat, fns);
    if err.Some? { return Refused(err.value); }
    Finish(g, digest, items, l);
    r := Code(g.code);
  }
}
