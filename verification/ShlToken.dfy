/**
 The token contracts written in SHL: what their `transfer` does, from the source text through the compiler and the
 virtual machine. The names of the program are parameters.
 */
module ShlToken {
  import opened Words
  import opened Shl
  import VM
  import ShlCorrect
  import ShlLayout
  import ShlView
  import ShlProgram

  /**
   `fn transfer(to, amount)`: require the caller's balance to cover the amount, take it from there, add it to the
   receiver's, and emit the event.
   */
  ghost predicate IsTransfer(fn: FnDecl, balances: Name, to: Name, amount: Name)
  {
    && fn.params == [to, amount] && to != amount
    && fn.body == [
      Require(Binary(AtLeast, Index(balances, Caller), Var(amount))),
      IndexStore(balances, Caller, Binary(Minus, Index(balances, Caller), Var(amount))),
      IndexStore(balances, Var(to), Binary(Plus, Index(balances, Var(to)), Var(amount))),
      Emit([Num(1), Caller, Var(to), Var(amount)])]
  }

  /* ----- One statement at a time ----- */

  lemma {:induction false} FirstThenRest(env: Env, sc: Scope, s: Stmt, rest: seq<Stmt>, ss: seq<Stmt>, mem: Memory,
      fuel: nat, r: Result)
    requires ss == [s] + rest && r == ExecStmt(env, sc, s, mem, fuel)
    ensures ExecStmts(env, sc, ss, mem, fuel) ==
            if r.Normal? then ExecStmts(env, ScopeAfter(s, sc), rest, r.mem, fuel) else r
  {
    assert ss[1..] == rest;
  }

  /** Where the balance of an account is kept. */
  function Place(env: Env, slot: u64, who: u64): (key: u64)
  {
    env.digest(U64Bytes(slot) + U64Bytes(who))
  }

  lemma EntryIs(env: Env, sc: Scope, balances: Name, key: Expr, store: map<u64, u64>, who: u64)
    requires balances in sc.state && EvalExpr(env, sc, key, store) == Value(who)
    ensures EvalExpr(env, sc, Index(balances, key), store) == Value(VM.Get(store, Place(env, sc.state[balances], who)))
  {
  }

  lemma RequireCovers(env: Env, sc: Scope, l: Expr, r: Expr, mem: Memory, fuel: nat, a: u64, b: u64)
    requires EvalExpr(env, sc, l, mem.store) == Value(a) && EvalExpr(env, sc, r, mem.store) == Value(b)
    ensures ExecStmt(env, sc, Require(Binary(AtLeast, l, r)), mem, fuel) ==
            if a >= b then Normal(mem) else Failed(VM.Reverted)
  {
  }

  lemma SumIs(env: Env, sc: Scope, op: BinOp, l: Expr, r: Expr, store: map<u64, u64>, a: u64, b: u64)
    requires EvalExpr(env, sc, l, store) == Value(a) && EvalExpr(env, sc, r, store) == Value(b)
    requires op == Plus || op == Minus
    ensures var v := if op == Plus then a + b else a - b;
            EvalExpr(env, sc, Binary(op, l, r), store) == if 0 <= v < TWO64 then Value(v) else Error(VM.Overflow)
  {
  }

  lemma Writes(env: Env, sc: Scope, balances: Name, key: Expr, who: u64, val: Expr, v: Eval, mem: Memory, fuel: nat)
    requires balances in sc.state && EvalExpr(env, sc, key, mem.store) == Value(who)
    requires EvalExpr(env, sc, val, mem.store) == v
    ensures ExecStmt(env, sc, IndexStore(balances, key, val), mem, fuel) ==
            if v.Error? then Failed(v.err)
            else Normal(mem.(store := mem.store[Place(env, sc.state[balances], who) := v.v]))
  {
  }

  lemma EntryBecomes(env: Env, sc: Scope, balances: Name, key: Expr, who: u64, op: BinOp, l: Expr, r: Expr,
      mem: Memory, fuel: nat, a: u64, b: u64)
    requires balances in sc.state && EvalExpr(env, sc, key, mem.store) == Value(who)
    requires EvalExpr(env, sc, l, mem.store) == Value(a) && EvalExpr(env, sc, r, mem.store) == Value(b)
    requires op == Plus || op == Minus
    ensures var v := if op == Plus then a + b else a - b;
            ExecStmt(env, sc, IndexStore(balances, key, Binary(op, l, r)), mem, fuel) ==
            if 0 <= v < TWO64 then Normal(mem.(store := mem.store[Place(env, sc.state[balances], who) := v]))
            else Failed(VM.Overflow)
  {
    var v := if op == Plus then a + b else a - b;
    SumIs(env, sc, op, l, r, mem.store, a, b);
    Writes(env, sc, balances, key, who, Binary(op, l, r), if 0 <= v < TWO64 then Value(v) else Error(VM.Overflow), mem,
           fuel);
  }

  lemma {:induction false} ValuesAre(env: Env, sc: Scope, es: seq<Expr>, store: map<u64, u64>, vs: seq<u64>)
    requires |es| == |vs| && forall i :: 0 <= i < |es| ==> EvalExpr(env, sc, es[i], store) == Value(vs[i])
    ensures EvalExprs(env, sc, es, store) == Values(vs)
    decreases es
  {
    if es != [] {
      ValuesAre(env, sc, es[1..], store, vs[1..]);
      assert vs == [vs[0]] + vs[1..];
    }
  }

  lemma {:induction false} Emits(env: Env, sc: Scope, es: seq<Expr>, mem: Memory, fuel: nat, vs: seq<u64>)
    requires |es| == |vs| <= 8 && forall i :: 0 <= i < |es| ==> EvalExpr(env, sc, es[i], mem.store) == Value(vs[i])
    ensures ExecStmt(env, sc, Emit(es), mem, fuel) == Normal(mem.(logs := mem.logs + [vs]))
  {
    ValuesAre(env, sc, es, mem.store, vs);
  }

  /* ----- The body ----- */

  function Balance(env: Env, slot: u64, store: map<u64, u64>, who: u64): (b: u64)
  {
    VM.Get(store, Place(env, slot, who))
  }

  function WithBalance(env: Env, slot: u64, store: map<u64, u64>, who: u64, b: u64): (store': map<u64, u64>)
  {
    store[Place(env, slot, who) := b]
  }

  /** What a transfer makes of the storage and the events. */
  function Moved(env: Env, slot: u64, mem: Memory, to: u64, amount: u64): (r: Result)
  {
    var from := env.ctx.caller;
    var b := Balance(env, slot, mem.store, from);
    if b < amount then Failed(VM.Reverted)
    else Received(env, slot, mem.(store := WithBalance(env, slot, mem.store, from, b - amount)), to, amount)
  }

  function Received(env: Env, slot: u64, mem: Memory, to: u64, amount: u64): (r: Result)
  {
    var c := Balance(env, slot, mem.store, to);
    if c + amount >= TWO64 then Failed(VM.Overflow)
    else Normal(Memory(WithBalance(env, slot, mem.store, to, c + amount), mem.logs + [[1, env.ctx.caller, to, amount]]))
  }

  /** In the function's scope both parameters are known, and no balance is kept where they are. */
  ghost predicate Inside(env: Env, sc: Scope, balances: Name, to: Name, amount: Name, store: map<u64, u64>, t: u64,
      a: u64)
  {
    && balances in sc.state && to in sc.vars && amount in sc.vars
    && VM.Get(store, sc.vars[to]) == t && VM.Get(store, sc.vars[amount]) == a
    && Apart(env, sc.state[balances], t, sc.vars[to], sc.vars[amount])
  }

  /** Neither balance is kept in one of these two slots. */
  ghost predicate Apart(env: Env, slot: u64, t: u64, x: u64, y: u64)
  {
    forall who :: who == env.ctx.caller || who == t ==> Place(env, slot, who) != x && Place(env, slot, who) != y
  }

  lemma StaysInside(env: Env, sc: Scope, balances: Name, to: Name, amount: Name, store: map<u64, u64>, t: u64, a: u64,
      who: u64, b: u64)
    requires Inside(env, sc, balances, to, amount, store, t, a) && (who == env.ctx.caller || who == t)
    ensures Inside(env, sc, balances, to, amount, WithBalance(env, sc.state[balances], store, who, b), t, a)
  {
  }

  lemma InsideReads(env: Env, sc: Scope, balances: Name, to: Name, amount: Name, store: map<u64, u64>, t: u64, a: u64)
    requires Inside(env, sc, balances, to, amount, store, t, a)
    ensures EvalExpr(env, sc, Var(to), store) == Value(t) && EvalExpr(env, sc, Var(amount), store) == Value(a)
    ensures EvalExpr(env, sc, Caller, store) == Value(env.ctx.caller) && EvalExpr(env, sc, Num(1), store) == Value(1)
    ensures EvalExpr(env, sc, Index(balances, Caller), store)
            == Value(Balance(env, sc.state[balances], store, env.ctx.caller))
    ensures EvalExpr(env, sc, Index(balances, Var(to)), store) == Value(Balance(env, sc.state[balances], store, t))
  {
    EntryIs(env, sc, balances, Caller, store, env.ctx.caller);
    EntryIs(env, sc, balances, Var(to), store, t);
  }

  lemma {:induction false} EndsWith(env: Env, sc: Scope, s: Stmt, mem: Memory, fuel: nat)
    ensures ExecStmts(env, sc, [s], mem, fuel) == ExecStmt(env, sc, s, mem, fuel)
  {
    assert [s] == [s] + [];
    FirstThenRest(env, sc, s, [], [s], mem, fuel, ExecStmt(env, sc, s, mem, fuel));
  }

  /** The receiver's half. */
  lemma {:induction false} Receives(env: Env, sc: Scope, balances: Name, to: Name, amount: Name, ss: seq<Stmt>,
      mem: Memory, fuel: nat, t: u64, a: u64)
    requires Inside(env, sc, balances, to, amount, mem.store, t, a)
    requires ss == [IndexStore(balances, Var(to), Binary(Plus, Index(balances, Var(to)), Var(amount))),
                    Emit([Num(1), Caller, Var(to), Var(amount)])]
    ensures ExecStmts(env, sc, ss, mem, fuel) == Received(env, sc.state[balances], mem, t, a)
  {
    var slot := sc.state[balances];
    var c := Balance(env, slot, mem.store, t);
    InsideReads(env, sc, balances, to, amount, mem.store, t, a);
    EntryBecomes(env, sc, balances, Var(to), t, Plus, Index(balances, Var(to)), Var(amount), mem, fuel, c, a);
    FirstThenRest(env, sc, ss[0], [ss[1]], ss, mem, fuel, ExecStmt(env, sc, ss[0], mem, fuel));
    if c + a < TWO64 {
      var mem1 := mem.(store := WithBalance(env, slot, mem.store, t, c + a));
      StaysInside(env, sc, balances, to, amount, mem.store, t, a, t, c + a);
      InsideReads(env, sc, balances, to, amount, mem1.store, t, a);
      Emits(env, sc, [Num(1), Caller, Var(to), Var(amount)], mem1, fuel, [1, env.ctx.caller, t, a]);
      EndsWith(env, sc, ss[1], mem1, fuel);
    }
  }

  /** The sender's half, once the balance covers the amount. */
  lemma {:induction false} PaysAndReceives(env: Env, sc: Scope, fn: FnDecl, balances: Name, to: Name, amount: Name,
      ss: seq<Stmt>, mem: Memory, fuel: nat, t: u64, a: u64, mem1: Memory)
    requires IsTransfer(fn, balances, to, amount) && Inside(env, sc, balances, to, amount, mem.store, t, a)
    requires ss == fn.body[1..] && Balance(env, sc.state[balances], mem.store, env.ctx.caller) >= a
    requires mem1 == mem.(store := WithBalance(env, sc.state[balances], mem.store, env.ctx.caller,
                                               Balance(env, sc.state[balances], mem.store, env.ctx.caller) - a))
    ensures ExecStmts(env, sc, ss, mem, fuel) == Received(env, sc.state[balances], mem1, t, a)
  {
    var slot, from := sc.state[balances], env.ctx.caller;
    var b := Balance(env, slot, mem.store, from);
    InsideReads(env, sc, balances, to, amount, mem.store, t, a);
    EntryBecomes(env, sc, balances, Caller, from, Minus, Index(balances, Caller), Var(amount), mem, fuel, b, a);
    FirstThenRest(env, sc, ss[0], ss[1..], ss, mem, fuel, Normal(mem1));
    StaysInside(env, sc, balances, to, amount, mem.store, t, a, from, b - a);
    Receives(env, sc, balances, to, amount, ss[1..], mem1, fuel, t, a);
  }

  lemma {:induction false} BodyMoves(env: Env, sc: Scope, fn: FnDecl, balances: Name, to: Name, amount: Name,
      mem: Memory, fuel: nat, t: u64, a: u64)
    requires IsTransfer(fn, balances, to, amount) && Inside(env, sc, balances, to, amount, mem.store, t, a)
    ensures ExecStmts(env, sc, fn.body, mem, fuel) == Moved(env, sc.state[balances], mem, t, a)
  {
    var ss := fn.body;
    var b := Balance(env, sc.state[balances], mem.store, env.ctx.caller);
    InsideReads(env, sc, balances, to, amount, mem.store, t, a);
    RequireCovers(env, sc, Index(balances, Caller), Var(amount), mem, fuel, b, a);
    FirstThenRest(env, sc, ss[0], ss[1..], ss, mem, fuel, ExecStmt(env, sc, ss[0], mem, fuel));
    if b >= a {
      var mem1 := mem.(store := WithBalance(env, sc.state[balances], mem.store, env.ctx.caller, b - a));
      PaysAndReceives(env, sc, fn, balances, to, amount, ss[1..], mem, fuel, t, a, mem1);
    }
  }

  /* ----- The call ----- */

  const FIRST_LOCAL: u64 := 0xFFFF_FFFF_0000_0000
  const SECOND_LOCAL: u64 := 0xFFFF_FFFF_0000_0001

  /** The storage once the parameters are bound: they are kept in the first two slots for locals. */
  function Bound(mem: Memory, t: u64, a: u64): (r: Memory)
  {
    mem.(store := mem.store[FIRST_LOCAL := t][SECOND_LOCAL := a])
  }

  lemma {:induction false} OneParam(env: Env, sc: Scope, p: Name, rest: seq<Name>, ps: seq<Name>, i: nat, mem: Memory,
      v: u64, sc1: Scope)
    requires ps == [p] + rest && ArgValue(env, Wrap(i + 1)) == Value(v) && sc1 == Bind(sc, p)
    ensures p in sc1.vars
    ensures BindParams(env, sc, ps, i, mem) ==
            BindParams(env, sc1, rest, i + 1, mem.(store := mem.store[sc1.vars[p] := v]))
    ensures BindAll(sc, ps) == BindAll(sc1, rest)
  {
    assert ps[1..] == rest;
  }

  lemma {:induction false} TwoParams(env: Env, sc: Scope, ps: seq<Name>, mem: Memory, t: u64, a: u64)
    requires |ps| == 2 && ps[0] != ps[1] && ArgValue(env, 1) == Value(t) && ArgValue(env, 2) == Value(a)
    ensures BindParams(env, FreshLocals(sc), ps, 0, mem) == Normal(Bound(mem, t, a))
    ensures var at := BindAll(FreshLocals(sc), ps);
            && at.state == sc.state && ps[0] in at.vars && at.vars[ps[0]] == FIRST_LOCAL
            && ps[1] in at.vars && at.vars[ps[1]] == SECOND_LOCAL
  {
    var sc0 := FreshLocals(sc);
    var sc1 := Bind(sc0, ps[0]);
    var sc2 := Bind(sc1, ps[1]);
    assert ps == [ps[0]] + [ps[1]] && [ps[1]] == [ps[1]] + [];
    var mem1 := mem.(store := mem.store[FIRST_LOCAL := t]);
    OneParam(env, sc0, ps[0], [ps[1]], ps, 0, mem, t, sc1);
    OneParam(env, sc1, ps[1], [], [ps[1]], 1, mem1, a, sc2);
    assert BindAll(sc2, []) == sc2;
  }

  /** Running off the end of the function stops. */
  function Stopping(r: Result): (r': Result)
  {
    if r.Normal? then Stopped(r.mem) else r
  }

  lemma {:induction false} CallMoves(env: Env, sc: Scope, fn: FnDecl, balances: Name, to: Name, amount: Name,
      mem: Memory, fuel: nat, t: u64, a: u64)
    requires IsTransfer(fn, balances, to, amount) && balances in sc.state
    requires ArgValue(env, 1) == Value(t) && ArgValue(env, 2) == Value(a)
    requires Apart(env, sc.state[balances], t, FIRST_LOCAL, SECOND_LOCAL)
    ensures CallFn(env, sc, fn, mem, fuel) == Stopping(Moved(env, sc.state[balances], Bound(mem, t, a), t, a))
  {
    var at := BindAll(FreshLocals(sc), fn.params);
    TwoParams(env, sc, fn.params, mem, t, a);
    BodyMoves(env, at, fn, balances, to, amount, Bound(mem, t, a), fuel, t, a);
  }

  /** The function that a call with this selector reaches: no function before it has the same. */
  ghost predicate Reaches(digest: seq<byte> -> u64, fns: seq<FnDecl>, sel: u64, i: nat)
  {
    i < |fns| && digest(fns[i].name) == sel && forall j :: 0 <= j < i ==> digest(fns[j].name) != sel
  }

  lemma {:induction false} RoutesTo(env: Env, sc: Scope, fns: seq<FnDecl>, sel: u64, mem: Memory, fuel: nat, i: nat)
    requires Reaches(env.digest, fns, sel, i)
    ensures Route(env, sc, fns, sel, mem, fuel) == CallFn(env, sc, fns[i], mem, fuel)
    decreases i
  {
    if i > 0 {
      var first := fns[0];
      assert env.digest(first.name) != sel;
      RoutesTo(env, sc, fns[1..], sel, mem, fuel, i - 1);
    }
  }

  /** A program of declarations only. */
  ghost predicate NoPrelude(items: seq<Item>)
  {
    forall k :: 0 <= k < |items| ==> !items[k].StmtItem?
  }

  lemma {:induction false} NoStatements(items: seq<Item>)
    requires NoPrelude(items)
    ensures Statements(items) == []
  {
    if items != [] { NoStatements(items[1..]); }
  }

  /** A call of `transfer`, in the interpreter. */
  lemma {:induction false} ProgramMoves(env: Env, items: seq<Item>, store: map<u64, u64>, fuel: nat, i: nat, sel: u64,
      balances: Name, to: Name, amount: Name, t: u64, a: u64, sc: Scope)
    requires NoPrelude(items) && sc == DeclareAll(EMPTY_SCOPE, items) && balances in sc.state
    requires Reaches(env.digest, Functions(items), sel, i) && IsTransfer(Functions(items)[i], balances, to, amount)
    requires ArgValue(env, 0) == Value(sel) && ArgValue(env, 1) == Value(t) && ArgValue(env, 2) == Value(a)
    requires Apart(env, sc.state[balances], t, FIRST_LOCAL, SECOND_LOCAL)
    ensures ExecProgram(env, items, store, fuel)
            == Stopping(Moved(env, sc.state[balances], Bound(Memory(store, []), t, a), t, a))
  {
    var fns, mem := Functions(items), Memory(store, []);
    NoStatements(items);
    RoutesTo(env, sc, fns, sel, mem, fuel, i);
    CallMoves(env, sc, fns[i], balances, to, amount, mem, fuel, t, a);
    PreludeIsNothing(env, items, store, fuel, sc, CallFn(env, sc, fns[i], mem, fuel));
  }

  lemma {:induction false} PreludeIsNothing(env: Env, items: seq<Item>, store: map<u64, u64>, fuel: nat, sc: Scope,
      r: Result)
    requires Statements(items) == [] && Functions(items) != [] && sc == DeclareAll(EMPTY_SCOPE, items)
    requires Call(env, sc, Functions(items), Memory(store, []), fuel) == r
    ensures ExecProgram(env, items, store, fuel) == r
  {
  }

  /* ----- On the virtual machine ----- */

  /** The word under a key; zero when it was never written. */
  function Cell(store: map<u64, u64>, key: u64): (v: u64)
  {
    if key in store then store[key] else 0
  }

  /** Only these two entries, and the two slots the parameters are kept in, may differ. */
  ghost predicate OnlyAt(store: map<u64, u64>, store': map<u64, u64>, x: u64, y: u64)
  {
    forall k :: k != x && k != y && k != FIRST_LOCAL && k != SECOND_LOCAL ==> Cell(store', k) == Cell(store, k)
  }

  /**
   What a transfer of `a` from the account kept at `x` to the one at `y` comes to. It is refused just when the sender
   has less, or the receiver would have 2^64 or more. Else the amount has moved: what one account lost the other has
   gained, and a transfer to oneself changes nothing.
   */
  ghost predicate Transfers<W>(o: VM.Outcome<W>, store: map<u64, u64>, x: u64, y: u64, from: u64, t: u64, a: u64)
  {
    if Cell(store, x) < a then o.Failure? && o.err == VM.Reverted
    else if x != y && Cell(store, y) + a >= 0x1_0000_0000_0000_0000 then o.Failure? && o.err == VM.Overflow
    else
      && o.Success? && o.m.logs == [[1, from, t, a]] && OnlyAt(store, o.m.work, x, y)
      && Cell(o.m.work, x) == (if x == y then Cell(store, x) else Cell(store, x) - a)
      && Cell(o.m.work, y) == (if x == y then Cell(store, y) else Cell(store, y) + a)
  }

  lemma MovedTransfers<W>(o: VM.Outcome<W>, env: Env, slot: u64, store: map<u64, u64>, t: u64, a: u64,
      blobs: map<u64, seq<byte>>, w: W)
    requires ShlProgram.SameResult(o, Stopping(Moved(env, slot, Bound(Memory(store, []), t, a), t, a)), blobs, w)
    requires Apart(env, slot, t, FIRST_LOCAL, SECOND_LOCAL)
    ensures Transfers(o, store, Place(env, slot, env.ctx.caller), Place(env, slot, t), env.ctx.caller, t, a)
  {
    assert [] + [[1, env.ctx.caller, t, a]] == [[1, env.ctx.caller, t, a]];
  }

  lemma TransferFollows<W>(o: VM.Outcome<W>, r: Result, env: Env, slot: u64, store: map<u64, u64>, t: u64, a: u64,
      blobs: map<u64, seq<byte>>, w: W)
    requires ShlCorrect.Limited(o) || r.OutOfFuel? || ShlProgram.SameResult(o, r, blobs, w)
    requires r == Stopping(Moved(env, slot, Bound(Memory(store, []), t, a), t, a))
    requires Apart(env, slot, t, FIRST_LOCAL, SECOND_LOCAL)
    ensures ShlCorrect.Limited(o)
            || Transfers(o, store, Place(env, slot, env.ctx.caller), Place(env, slot, t), env.ctx.caller, t, a)
  {
    if !ShlCorrect.Limited(o) { MovedTransfers(o, env, slot, store, t, a, blobs, w); }
  }

  /** A call of `transfer`: the calldata carry its selector, the receiver and the amount. */
  ghost predicate Calls<W>(f: VM.Frame<W>, items: seq<Item>, i: nat, balances: Name, to: Name, amount: Name)
  {
    && NoPrelude(items) && balances in DeclareAll(EMPTY_SCOPE, items).state
    && Reaches(f.digest, Functions(items), VM.CalldataWord(f.input, 0), i)
    && IsTransfer(Functions(items)[i], balances, to, amount)
  }

  lemma WordIsRead<W>(f: VM.Frame<W>, i: nat)
    requires VM.SliceSized(f.input) && i < 3
    ensures ArgValue(ShlView.EnvOf(f), i) == Value(VM.CalldataWord(f.input, i))
  {
    VM.WordIsExact(f.input, i);
  }

  /**
   The tokens' `transfer`, compiled and run, on any storage and in any frame: the run is cut short by a limit, or it
   transfers. No two of the four places it writes to are assumed to differ but those of balances from those of the
   parameters.
   */
  lemma {:induction false} CompiledTransfer<W>(f: VM.Frame<W>, w: W, items: seq<Item>, store: map<u64, u64>,
      blobs: map<u64, seq<byte>>, i: nat, balances: Name, to: Name, amount: Name, env: Env, slot: u64, t: u64, a: u64)
    requires ShlLayout.ProgramAt(f.code, f.digest, items) && |f.code| < TWO63 && VM.SliceSized(f.input)
    requires Calls(f, items, i, balances, to, amount) && slot == DeclareAll(EMPTY_SCOPE, items).state[balances]
    requires env == ShlView.EnvOf(f) && t == VM.CalldataWord(f.input, 1) && a == VM.CalldataWord(f.input, 2)
    requires Apart(env, slot, t, FIRST_LOCAL, SECOND_LOCAL)
    ensures var o := VM.Run(f, w, VM.Start(store, blobs));
            ShlCorrect.Limited(o)
            || Transfers(o, store, Place(env, slot, env.ctx.caller), Place(env, slot, t), env.ctx.caller, t, a)
  {
    WordIsRead(f, 0);
    WordIsRead(f, 1);
    WordIsRead(f, 2);
    ProgramMoves(env, items, store, 1, i, VM.CalldataWord(f.input, 0), balances, to, amount, t, a,
                 DeclareAll(EMPTY_SCOPE, items));
    ShlProgram.CompiledCodeIsCorrect(f, w, items, store, blobs, 1);
    TransferFollows(VM.Run(f, w, VM.Start(store, blobs)), ExecProgram(env, items, store, 1), env, slot, store, t, a,
                    blobs, w);
  }

  /* ----- Conservation ----- */

  /** All that is kept at these places together. */
  function Total(store: map<u64, u64>, places: seq<u64>): (n: nat)
  {
    if places == [] then 0 else Cell(store, places[0]) + Total(store, places[1..])
  }

  ghost predicate Distinct(places: seq<u64>)
  {
    forall i, j :: 0 <= i < j < |places| ==> places[i] != places[j]
  }

  lemma {:induction false} TotalShifts<W>(o: VM.Outcome<W>, store: map<u64, u64>, x: u64, y: u64, from: u64, t: u64,
      a: u64, places: seq<u64>)
    requires Transfers(o, store, x, y, from, t, a) && o.Success? && x != y
    requires Distinct(places) && FIRST_LOCAL !in places && SECOND_LOCAL !in places
    ensures Total(o.m.work, places) ==
            Total(store, places) - (if x in places then a else 0) + (if y in places then a else 0)
    decreases places
  {
    if places != [] {
      var p, rest := places[0], places[1..];
      TotalShifts(o, store, x, y, from, t, a, rest);
      assert places == [p] + rest && p !in rest;
    }
  }

  lemma {:induction false} TotalSame(store: map<u64, u64>, store': map<u64, u64>, places: seq<u64>)
    requires forall p :: p in places ==> Cell(store', p) == Cell(store, p)
    ensures Total(store', places) == Total(store, places)
    decreases places
  {
    if places != [] { TotalSame(store, store', places[1..]); }
  }

  /** No transfer makes or destroys anything: what all accounts have together stays the same. */
  lemma {:induction false} TransferConserves<W>(o: VM.Outcome<W>, store: map<u64, u64>, x: u64, y: u64, from: u64,
      t: u64, a: u64, places: seq<u64>)
    requires Transfers(o, store, x, y, from, t, a) && o.Success? && x in places && y in places
    requires Distinct(places) && FIRST_LOCAL !in places && SECOND_LOCAL !in places
    ensures Total(o.m.work, places) == Total(store, places)
  {
    if x == y {
      TotalSame(store, o.m.work, places);
    } else {
      TotalShifts(o, store, x, y, from, t, a, places);
    }
  }
}
