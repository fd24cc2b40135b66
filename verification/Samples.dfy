/**
 Two contracts in hand-written bytecode, the counter and the byte-layer token of the repository's tests, on
 every storage, calldata, context and gas limit: what the instruction set of module Opcodes adds up to.
 */
module Samples {
  import opened Words
  import opened Opcodes
  import VM
  import VmRuns

  /* ----- Reading code ----- */

  /** The instruction at `p` pushes `v`. */
  predicate PushAt(code: seq<byte>, p: nat, v: u64)
  {
    p + 9 <= |code| && code[p] == 0x01 && BytesU64(code[p + 1..p + 9]) == v
  }

  lemma SmallPush(code: seq<byte>, p: nat, v: byte)
    requires p + 9 <= |code| && code[p] == 0x01 && code[p + 8] == v && forall i :: p < i < p + 8 ==> code[i] == 0
    ensures PushAt(code, p, v)
  {
    var s := code[p + 1..p + 9];
    ZeroBytes(s[..7]);
  }

  lemma {:induction false} ZeroBytes(s: seq<byte>)
    requires forall i :: 0 <= i < |s| ==> s[i] == 0
    ensures FromBigEndian(s) == 0
  {
    if s != [] {
      ZeroBytes(s[..|s| - 1]);
    }
  }

  /** The word under a key; zero when it was never written. */
  function Cell(work: map<u64, u64>, key: u64): (v: u64)
  {
    if key in work then work[key] else 0
  }

  /* ----- Taking one step of a run ----- */

  /** The run failed, and nothing it called changed anything. */
  ghost predicate Fails<W>(f: VM.Frame<W>, w: W, m: VM.Machine, e: VM.Error)
  {
    var o := VM.Run(f, w, m);
    o.Failure? && o.world == w && o.err == e
  }

  /** The run from `m` goes on at `n` if the gas lasts that far; else it runs out. */
  ghost predicate GoesOn<W>(f: VM.Frame<W>, w: W, m: VM.Machine, n: VM.Machine)
  {
    if n.used <= f.gas then VM.Run(f, w, m) == VM.Run(f, w, n) else Fails(f, w, m, VM.OutOfGas)
  }

  predicate Shown(i: int)
  {
    i == i
  }

  /** The same, out of sight until it is shown: a chain of steps need not look into any of them. */
  ghost predicate Leads<W>(f: VM.Frame<W>, w: W, m: VM.Machine, n: VM.Machine)
  {
    forall i {:trigger Shown(i)} :: Shown(i) ==> GoesOn(f, w, m, n)
  }

  lemma {:induction false} LeadsOn<W>(f: VM.Frame<W>, w: W, m: VM.Machine, n: VM.Machine)
    requires Leads(f, w, m, n)
    ensures GoesOn(f, w, m, n) == true
  {
    assert Shown(0);
  }

  lemma {:induction false} Starts<W>(f: VM.Frame<W>, w: W, m: VM.Machine)
    requires m.used <= f.gas
    ensures Leads(f, w, m, m) == true
  {
  }

  /** Early enough in a run that neither steps, stack nor gas can run over. */
  ghost predicate Early<W>(f: VM.Frame<W>, m: VM.Machine, op: int)
  {
    0 <= m.pc < |f.code| && f.code[m.pc] == op && m.steps < 1000 && m.used < 100_000 && |m.st| < 100
  }

  /** A run that comes to `n` takes the instruction there, if it can be paid for. */
  lemma {:induction false} Then<W>(f: VM.Frame<W>, w: W, m: VM.Machine, n: VM.Machine, op: int, n': VM.Machine)
    requires Leads(f, w, m, n) && Early(f, n, op) && n'.used == n.used + Price(op)
    requires Next(f, n, op, Price(op)) ==> Becomes(f, n, n')
    ensures Leads(f, w, m, n') == true
  {
    LeadsOn(f, w, m, n);
    if n'.used <= f.gas {
      VmRuns.RunSteps(f, w, n, VM.Next(n'));
    } else if n.used <= f.gas {
      DryAt(f, w, n, op);
    }
  }

  lemma {:induction false} DryAt<W>(f: VM.Frame<W>, w: W, n: VM.Machine, op: int)
    requires Early(f, n, op) && n.used <= f.gas < n.used + Price(op)
    ensures Fails(f, w, n, VM.OutOfGas)
  {
    Refusals(f, n);
    VmRuns.RunSteps(f, w, n, VM.Step(f, n));
  }

  lemma {:induction false} ThenPush<W>(f: VM.Frame<W>, w: W, m: VM.Machine, n: VM.Machine, v: u64)
      returns (n': VM.Machine)
    requires Leads(f, w, m, n) && Early(f, n, 0x01) && PushAt(f.code, n.pc, v)
    ensures n' == n.(pc := n.pc + 9, st := n.st + [v], steps := n.steps + 1, used := n.used + 3, spent := n.spent + 3)
    ensures Leads(f, w, m, n') == true
  {
    n' := Past(n, 3, n.st + [v]).(pc := n.pc + 9);
    if Next(f, n, 0x01, 3) { Pushing(f, n); }
    Then(f, w, m, n, 0x01, n');
  }

  /** `n` after an instruction at this price that leaves this stack. */
  function On(n: VM.Machine, price: nat, st: seq<u64>): (r: VM.Machine)
    requires n.used < 100_000 && price < 1000
  {
    n.(pc := n.pc + 1, st := st, steps := n.steps + 1, used := n.used + price, spent := n.spent + price)
  }

  lemma {:induction false} ThenLoad<W>(f: VM.Frame<W>, w: W, m: VM.Machine, n: VM.Machine, s: seq<u64>, key: u64)
      returns (n': VM.Machine)
    requires Leads(f, w, m, n) && Early(f, n, 0x50) && n.st == s + [key]
    ensures n' == On(n, 20, s + [Cell(n.work, key)]) && Leads(f, w, m, n') == true
  {
    n' := On(n, 20, s + [Cell(n.work, key)]);
    if Next(f, n, 0x50, 20) { Loading(f, n, s, key); }
    Then(f, w, m, n, 0x50, n');
  }

  lemma {:induction false} ThenAdd<W>(f: VM.Frame<W>, w: W, m: VM.Machine, n: VM.Machine, s: seq<u64>, a: u64, b: u64)
      returns (n': VM.Machine)
    requires Leads(f, w, m, n) && Early(f, n, 0x10) && n.st == s + [a, b]
    ensures n' == On(n, 1, s + [(a + b) % WORD]) && Leads(f, w, m, n') == true
  {
    n' := On(n, 1, s + [(a + b) % WORD]);
    if Next(f, n, 0x10, 1) { WrappingArithmetic(f, n, 0x10, s, a, b); }
    Then(f, w, m, n, 0x10, n');
  }

  lemma {:induction false} ThenStore<W>(f: VM.Frame<W>, w: W, m: VM.Machine, n: VM.Machine, s: seq<u64>, key: u64,
      v: u64) returns (n': VM.Machine)
    requires Leads(f, w, m, n) && Early(f, n, 0x51) && n.st == s + [key, v]
    ensures n' == On(n, 100, s).(work := n.work[key := v]) && Leads(f, w, m, n') == true
  {
    n' := On(n, 100, s).(work := n.work[key := v]);
    if Next(f, n, 0x51, 100) { Storing(f, n, s, key, v); }
    Then(f, w, m, n, 0x51, n');
  }

  /** How a run that comes to a STOP ends: well, unless even the STOP is too much. */
  lemma {:induction false} ThenStop<W>(f: VM.Frame<W>, w: W, m: VM.Machine, n: VM.Machine)
    requires Leads(f, w, m, n) && Early(f, n, 0x00)
    ensures if n.used + 1 <= f.gas then VM.Run(f, w, m) == VM.Success(On(n, 1, n.st), 0, [], w)
            else Fails(f, w, m, VM.OutOfGas)
  {
    LeadsOn(f, w, m, n);
    if n.used + 1 <= f.gas {
      Ending(f, n, 0x00);
      VmRuns.RunSteps(f, w, n, VM.Halt(On(n, 1, n.st), 0, []));
    } else if n.used <= f.gas {
      DryAt(f, w, n, 0x00);
    }
  }

  /* ----- The counter ----- */

  /** PUSH 0, PUSH 0, SLOAD, PUSH 1, ADD, SSTORE, STOP. */
  ghost predicate IsCounter(code: seq<byte>)
  {
    && |code| == 31 && PushAt(code, 0, 0) && PushAt(code, 9, 0) && code[18] == 0x50
    && PushAt(code, 19, 1) && code[28] == 0x10 && code[29] == 0x51 && code[30] == 0x00
  }

  lemma CounterExists() returns (code: seq<byte>)
    ensures IsCounter(code)
  {
    code := seq(31, p requires 0 <= p < 31 =>
      (match p case 0 => 1 case 9 => 1 case 18 => 0x50 case 19 => 1 case 27 => 1 case 28 => 0x10 case 29 => 0x51
       case _ => 0) as byte);
    SmallPush(code, 0, 0);
    SmallPush(code, 9, 0);
    SmallPush(code, 19, 1);
  }

  /** The word under key 0 is one more, modulo 2^64, and everything else is as it was, if the gas is 131 or more;
      with less it runs out. */
  ghost predicate Counts<W>(gas: u64, w: W, m: VM.Machine, o: VM.Outcome<W>)
  {
    if gas < 131 then o.Failure? && o.err == VM.OutOfGas && o.world == w
    else
      && o.Success? && o.world == w && o.ret == 0 && o.retBytes == [] && o.m.used == 131 && o.m.logs == m.logs
      && o.m.work == m.work[0 := (Cell(m.work, 0) + 1) % 0x1_0000_0000_0000_0000] && o.m.bwork == m.bwork
  }

  /** Every run of the counter counts. */
  lemma {:induction false} CounterCounts<W>(f: VM.Frame<W>, w: W, m: VM.Machine)
    requires IsCounter(f.code) && m.pc == 0 && m.st == [] && m.steps == 0 && m.used == 0
    ensures Counts(f.gas, w, m, VM.Run(f, w, m))
  {
    var v := Cell(m.work, 0);
    Starts(f, w, m);
    var m1 := ThenPush(f, w, m, m, 0);
    var m2 := ThenPush(f, w, m, m1, 0);
    assert m2.st == [0] + [0];
    var m3 := ThenLoad(f, w, m, m2, [0], 0);
    var m4 := ThenPush(f, w, m, m3, 1);
    assert m4.st == [0] + [v, 1];
    var m5 := ThenAdd(f, w, m, m4, [0], v, 1);
    assert m5.st == [] + [0, (v + 1) % WORD];
    var m6 := ThenStore(f, w, m, m5, [], 0, (v + 1) % WORD);
    ThenStop(f, w, m, m6);
  }
}
