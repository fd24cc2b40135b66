/** Limits beyond which nested execution can cost more than it is charged: exactly those the gas bound leaves out. */
module Overrun {
  import opened Words
  import opened Txs
  import opened Contracts
  import opened Frames
  import opened VmRuns
  import VM

  /* ----- Two contracts ----- */

  /** Pushes a value, calls the contract named by its caller's id with all its gas, stores, and stops. */
  const CALLING: seq<byte> := [VM.VALUE, VM.CALLER, VM.VALUE, VM.BAL, VM.CALL, VM.SSTORE, VM.STOP]

  const FAILING: seq<byte> := [VM.REVERT]

  ghost function TwoContracts(): (w: World)
  {
    World(map[[1] := Account(TWO64 - 1, 0, CALLING, map[], map[]), [2] := Account(0, 0, FAILING, map[], map[])],
          map[], [], [])
  }

  function SevenIsTwo(c: Choice): (o: Oracle)
  {
    Oracle((s: seq<byte>) => if s == [2] then 7 else 0, c)
  }

  function TheCall(gas: u64): (q: Request)
  {
    Request([1], 7, [], [], 0, gas, 0, 0)
  }

  /* ----- Its steps ----- */

  /** `m` after an instruction of cost `c`, with this stack. */
  function After(m: VM.Machine, c: nat, st: seq<u64>): (r: VM.Machine)
  {
    m.(pc := m.pc + 1, st := st, steps := m.steps + 1, used := Wrap(m.used + c), spent := m.spent + c)
  }

  lemma StepsValue(f: VM.Frame<World>, m: VM.Machine, op: byte, v: u64)
    requires 0 <= m.pc < |f.code| && f.code[m.pc] == op && m.steps < 10 && |m.st| < 10 && m.used + 1 <= f.gas
    requires (op == VM.VALUE && v == f.ctx.value) || (op == VM.CALLER && v == f.ctx.caller)
             || (op == VM.BAL && v == f.ctx.balance)
    ensures VM.Step(f, m) == VM.Next(After(m, 1, m.st + [v]))
  {
  }

  lemma StepsCall(f: VM.Frame<World>, m: VM.Machine, x: u64, target: u64, arg: u64, g: u64)
    requires 0 <= m.pc < |f.code| && f.code[m.pc] == VM.CALL && m.steps < 10 && m.used + 1 <= f.gas <= g
    requires m.st == [x, target, arg, g] && f.host.Host? && f.ctx.depth == 0
    ensures VM.Step(f, m) == VM.Invoke(After(m, 1, [x]), target, arg, f.gas - (m.used + 1))
  {
    assert m.st[..1] == [x];
  }

  /** The gas counter wraps here. */
  lemma StepsStore(f: VM.Frame<World>, m: VM.Machine, k: u64, v: u64)
    requires 0 <= m.pc < |f.code| && f.code[m.pc] == VM.SSTORE && m.steps < 10 && m.st == [k, v]
    requires m.used + 100 >= TWO64 && m.used + 100 - TWO64 <= f.gas
    ensures VM.Step(f, m) == VM.Next(After(m, 100, []).(work := m.work[k := v]))
  {
    assert m.st[..0] == [];
  }

  lemma StepsStop(f: VM.Frame<World>, m: VM.Machine)
    requires 0 <= m.pc < |f.code| && f.code[m.pc] == VM.STOP && m.steps < 10 && m.used + 1 <= f.gas
    ensures VM.Step(f, m) == VM.Halt(After(m, 1, m.st), 0, [])
  {
  }

  lemma {:induction false} Fails(f: VM.Frame<World>, w: World, m: VM.Machine)
    requires f.code == FAILING && f.gas >= 1 && m.pc == 0 && m.used == 0 && m.spent == 0 && m.steps == 0
    ensures VM.Run(f, w, m) == VM.Failure(VM.Reverted, w, 1)
  {
    assert VM.Step(f, m) == VM.Abort(VM.Reverted, 1);
    RunSteps(f, w, m, VM.Abort(VM.Reverted, 1));
  }

  /** Calling the failing contract is charged all the gas that was forwarded, and costs 1. */
  lemma {:induction false} CallFails(o: Oracle, w: World, self: u64, arg: u64, gas: u64)
    requires Answers(o, w.accounts, 7, [2]) && (forall a :: Answers(o, w.accounts, 7, a) ==> a == [2])
    requires w.accounts[[2]].code == FAILING && gas >= 1
    ensures var r := Call(o, w, self, 7, arg, gas, 1, 0); !r.ok && r.ret == 0 && r.gasUsed == gas && r.spent == 1
  {
    assert Find(o, w.accounts, 7) == Some([2]);
    var q := Request([2], self, [], U64Bytes(arg), 0, gas, 1, 0);
    var w1 := Entered(w, [2]);
    var c := Get(w1.accounts, [2]);
    ExecAnswers(o, w, q, w1, c);
    Fails(FrameOf(o, w1, q), w1, VM.Start(c.words, c.blobs));
  }

  /* ----- The run ----- */

  /** From the CALL on: the callee's charge brings the counter to the limit, and the store takes it past 2^64. */
  lemma {:induction false} WrapsAround(f: VM.Frame<World>, w: World, m: VM.Machine, r: VM.Reply<World>)
    requires f.code == CALLING && f.gas > MAX_GAS && f.host.Host? && f.ctx.depth == 0
    requires m.pc == 4 && m.steps == 4 && m.used == 4 && m.spent == 4 && m.st == [0, 7, 0, TWO64 - 1]
    requires r == f.host.call(w, f.ctx.self, 7, 0, f.gas - 5, 1) && !r.ok && r.gasUsed == f.gas - 5 && r.spent == 1
    ensures var o := VM.Run(f, w, m); o.Success? && o.m.used < o.m.spent
  {
    var s := VM.Invoke(After(m, 1, [0]), 7, 0, f.gas - 5);
    StepsCall(f, m, 0, 7, 0, TWO64 - 1);
    var t := VM.Resume(f, s.m, r);
    var m1 := s.m.(used := f.gas, spent := 6, st := [0, 0]);
    assert t == VM.Next(m1) by { assert [0] + [0] == [0, 0]; }
    RunInvokes(f, w, m, s, r, t);
    var m2 := After(m1, 100, []).(work := m1.work[0 := 0]);
    StepsStore(f, m1, 0, 0);
    RunSteps(f, r.world, m1, VM.Next(m2));
    StepsStop(f, m2);
    RunSteps(f, r.world, m2, VM.Halt(After(m2, 1, m2.st), 0, []));
  }

  lemma {:induction false} ComesToCall(f: VM.Frame<World>, w: World, m: VM.Machine) returns (m4: VM.Machine)
    requires f.code == CALLING && f.gas > MAX_GAS && m.pc == 0 && m.steps == 0 && m.used == 0 && m.spent == 0
             && m.st == []
    requires f.ctx.value == 0 && f.ctx.caller == 7 && f.ctx.balance == TWO64 - 1
    ensures VM.Run(f, w, m) == VM.Run(f, w, m4)
    ensures m4.pc == 4 && m4.steps == 4 && m4.used == 4 && m4.spent == 4 && m4.st == [0, 7, 0, TWO64 - 1]
  {
    var m1 := After(m, 1, m.st + [0]);
    StepsValue(f, m, VM.VALUE, 0);
    RunSteps(f, w, m, VM.Next(m1));
    var m2 := After(m1, 1, m1.st + [7]);
    StepsValue(f, m1, VM.CALLER, 7);
    RunSteps(f, w, m1, VM.Next(m2));
    var m3 := After(m2, 1, m2.st + [0]);
    StepsValue(f, m2, VM.VALUE, 0);
    RunSteps(f, w, m2, VM.Next(m3));
    m4 := After(m3, 1, m3.st + [TWO64 - 1]);
    StepsValue(f, m3, VM.BAL, TWO64 - 1);
    RunSteps(f, w, m3, VM.Next(m4));
  }

  lemma TheFrame(c: Choice, gas: u64, w1: World, a: Account)
    requires w1 == Entered(TwoContracts(), [1]) && a == Get(w1.accounts, [1])
    ensures a == Account(TWO64 - 1, 0, CALLING, map[], map[]) && w1.accounts == TwoContracts().accounts
    ensures var f := FrameOf(SevenIsTwo(c), w1, TheCall(gas));
            f.code == CALLING && f.gas == gas && f.host.Host? && f.ctx.depth == 0 && f.ctx.value == 0
            && f.ctx.caller == 7
            && f.ctx.balance == TWO64 - 1
  {
  }

  lemma TheHost(c: Choice, w1: World, gas: u64, self: u64, forward: u64)
    requires w1.accounts == TwoContracts().accounts && forward >= 1
    ensures var r := FrameOf(SevenIsTwo(c), w1, TheCall(gas)).host.call(w1, self, 7, 0, forward, 1);
            !r.ok && r.ret == 0 && r.gasUsed == forward && r.spent == 1
  {
    CallFails(SevenIsTwo(c), w1, self, 0, forward);
  }

  lemma {:induction false} RunCostsMore(f: VM.Frame<World>, w: World, m: VM.Machine, r: VM.Reply<World>)
    requires f.code == CALLING && f.gas > MAX_GAS && f.host.Host? && f.ctx.depth == 0
    requires f.ctx.value == 0 && f.ctx.caller == 7 && f.ctx.balance == TWO64 - 1
    requires m.pc == 0 && m.steps == 0 && m.used == 0 && m.spent == 0 && m.st == []
    requires r == f.host.call(w, f.ctx.self, 7, 0, f.gas - 5, 1) && !r.ok && r.gasUsed == f.gas - 5 && r.spent == 1
    ensures var o := VM.Run(f, w, m); o.Success? && o.m.used < o.m.spent
  {
    var m4 := ComesToCall(f, w, m);
    WrapsAround(f, w, m4, r);
  }

  /** Beyond the bound's limits there is a call that costs more than it is charged. */
  lemma {:induction false} CostsMore(c: Choice, gas: u64)
    requires gas > MAX_GAS
    ensures var r := Exec(SevenIsTwo(c), TwoContracts(), TheCall(gas)); r.ok && r.used < r.spent
  {
    var o, w, q := SevenIsTwo(c), TwoContracts(), TheCall(gas);
    var w1 := Entered(w, [1]);
    var a := Get(w1.accounts, [1]);
    TheFrame(c, gas, w1, a);
    var f := FrameOf(o, w1, q);
    TheHost(c, w1, gas, f.ctx.self, gas - 5);
    RunCostsMore(f, w1, VM.Start(a.words, a.blobs), f.host.call(w1, f.ctx.self, 7, 0, gas - 5, 1));
    ExecAnswers(o, w, q, w1, a);
    AnswersMore(VM.Run(f, w1, VM.Start(a.words, a.blobs)), q);
  }

  lemma AnswersMore(o: VM.Outcome<World>, q: Request)
    requires o.Success? && o.m.used < o.m.spent
    ensures var r := AnswerTo(o, q); r.ok && r.used < r.spent
  {
  }

  ghost predicate Bounds(gas: u64)
  {
    forall o: Oracle, w: World, q: Request :: q.depth <= VM.MAX_DEPTH && q.gas == gas ==>
      var r := Exec(o, w, q); r.spent <= r.used <= gas
  }

  /** A limit bounds every call just when the gas counter cannot wrap under it. */
  lemma {:induction false} BoundIsExact(gas: u64, c: Choice)
    ensures Bounds(gas) <==> gas <= MAX_GAS
  {
    if gas <= MAX_GAS {
      forall o: Oracle, w: World, q: Request | q.depth <= VM.MAX_DEPTH && q.gas == gas
        ensures var r := Exec(o, w, q); r.spent <= r.used <= gas
      {
        NestedGasIsBounded(o, w, q);
      }
    } else {
      CostsMore(c, gas);
    }
  }
}
