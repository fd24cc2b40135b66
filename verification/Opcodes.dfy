/**
 The instruction set, byte by byte: what every opcode does to the machine, in plain arithmetic and with
 its number and its price written out. A stack is written from the bottom up, so in `s + [a, b]` the
 word `b` is on top.
 */
module Opcodes {
  import opened Words
  import VM
  import VmRuns
  import ShlCorrect

  const WORD: int := 0x1_0000_0000_0000_0000

  /** The machine after an instruction of this price that leaves this stack. */
  function Past(m: VM.Machine, price: nat, st: seq<u64>): (r: VM.Machine)
  {
    m.(pc := m.pc + 1, st := st, steps := m.steps + 1, used := (m.used + price) % WORD, spent := m.spent + price)
  }

  /** Opcode `op` is next, and there are gas and steps for it. */
  ghost predicate Next<W>(f: VM.Frame<W>, m: VM.Machine, op: int, price: nat)
  {
    0 <= m.pc < |f.code| && f.code[m.pc] == op && m.steps < 1_000_000 && m.used + price <= f.gas
  }

  /** The step ends in machine `n`. */
  ghost predicate Becomes<W>(f: VM.Frame<W>, m: VM.Machine, n: VM.Machine)
  {
    m.pc < |f.code| && VM.Step(f, m) == VM.Next(n)
  }

  /** The step leaves this stack, and nothing else changes. */
  ghost predicate Leaves<W>(f: VM.Frame<W>, m: VM.Machine, price: nat, st: seq<u64>)
  {
    Becomes(f, m, Past(m, price, st))
  }

  /** The step ends the run well. */
  ghost predicate Halts<W>(f: VM.Frame<W>, m: VM.Machine, st: seq<u64>, ret: u64, bytes: seq<byte>)
  {
    m.pc < |f.code| && VM.Step(f, m) == VM.Halt(Past(m, 1, st), ret, bytes)
  }

  /** The step ends the run with an error. */
  ghost predicate Stops<W>(f: VM.Frame<W>, m: VM.Machine, e: VM.Error)
  {
    m.pc < |f.code| && VM.Step(f, m).Abort? && VM.Step(f, m).err == e
  }

  function Flag(c: bool): (v: u64)
  {
    if c then 1 else 0
  }

  /* ----- Prices, limits and underflow ----- */

  /** The price of every instruction, LOG without its topics. */
  function Price(op: int): (c: nat)
  {
    match op
    case 0x01 => 3
    case 0x50 => 20
    case 0x51 => 100
    case 0x53 => 100
    case 0x54 => 20
    case 0x56 => 20
    case 0x57 => 20
    case 0x67 => 100
    case 0x68 => 100
    case 0x72 => 50
    case _ => 1
  }

  /** How many words every instruction takes off the stack; no other byte is an instruction. */
  function Arity(op: int): (n: Option<nat>)
  {
    if op in {0x00, 0x01, 0x60, 0x61, 0x62, 0x64, 0x66, 0x74} then Some(0)
    else if op in {0x02, 0x23, 0x26, 0x30, 0x40, 0x50, 0x55, 0x56, 0x63, 0x67, 0x68, 0x70, 0x72, 0x73} then Some(1)
    else if op in {0x10, 0x11, 0x12, 0x13, 0x14, 0x15, 0x16, 0x17, 0x20, 0x21, 0x22, 0x24, 0x25} then Some(2)
    else if op in {0x31, 0x41, 0x51, 0x54, 0x57} then Some(2)
    else if op in {0x53, 0x71} then Some(3)
    else None
  }

  /** The stack has fewer words than the instruction takes. */
  ghost predicate Lacks(m: VM.Machine, op: int)
  {
    Arity(op).Some? && |m.st| < Arity(op).value
  }

  /** The checks before an instruction: the step limit first, then the gas, whose counter wraps, then the byte and the
      stack. */
  lemma Refusals<W>(f: VM.Frame<W>, m: VM.Machine)
    requires 0 <= m.pc < |f.code|
    ensures m.steps >= 1_000_000 ==> Stops(f, m, VM.StepLimit)
    ensures m.steps < 1_000_000 && (m.used + Price(f.code[m.pc])) % WORD > f.gas ==> Stops(f, m, VM.OutOfGas)
    ensures Next(f, m, f.code[m.pc], Price(f.code[m.pc])) && Arity(f.code[m.pc]).None? ==> Stops(f, m, VM.BadCode)
    ensures Next(f, m, f.code[m.pc], Price(f.code[m.pc])) && Lacks(m, f.code[m.pc]) ==> Stops(f, m, VM.StackUnder)
  {
  }

  /* ----- Arithmetic ----- */

  lemma WrappingArithmetic<W>(f: VM.Frame<W>, m: VM.Machine, op: int, s: seq<u64>, a: u64, b: u64)
    requires Next(f, m, op, 1) && m.st == s + [a, b] && |s| < 1024
    ensures op == 0x10 ==> Leaves(f, m, 1, s + [(a + b) % WORD])
    ensures op == 0x11 ==> Leaves(f, m, 1, s + [(a - b) % WORD])
    ensures op == 0x12 ==> Leaves(f, m, 1, s + [(a * b) % WORD])
  {
    assert m.st[..|m.st| - 2] == s;
  }

  /** `q` and `r` are the quotient and the remainder of `a` by `b`. */
  ghost predicate Divides(a: u64, b: u64, q: u64, r: u64)
  {
    a == q * b + r && r < b
  }

  lemma Division<W>(f: VM.Frame<W>, m: VM.Machine, op: int, s: seq<u64>, a: u64, b: u64)
    requires Next(f, m, op, 1) && m.st == s + [a, b] && |s| < 1024 && (op == 0x13 || op == 0x14)
    ensures b == 0 ==> Stops(f, m, VM.DivZero)
    ensures b != 0 ==>
              exists q: u64, r: u64 :: Divides(a, b, q, r) && Leaves(f, m, 1, s + [if op == 0x13 then q else r])
  {
    assert m.st[..|m.st| - 2] == s;
    if b != 0 {
      var q: u64, r: u64 := VM.Quotient(a, b).value, a % b;
      assert Divides(a, b, q, r);
      assert Leaves(f, m, 1, s + [if op == 0x13 then q else r]);
    }
  }

  /** The step leaves this value on the stack; it ends the run if the value is no word. */
  ghost predicate LeavesExact<W>(f: VM.Frame<W>, m: VM.Machine, s: seq<u64>, v: int)
  {
    if 0 <= v < WORD then Leaves(f, m, 1, s + [v]) else Stops(f, m, VM.Overflow)
  }

  lemma CheckedSum<W>(f: VM.Frame<W>, m: VM.Machine, op: int, s: seq<u64>, a: u64, b: u64)
    requires Next(f, m, op, 1) && m.st == s + [a, b] && |s| < 1024
    ensures op == 0x15 ==> LeavesExact(f, m, s, a + b)
    ensures op == 0x16 ==> LeavesExact(f, m, s, a - b)
  {
    assert m.st[..|m.st| - 2] == s;
  }

  lemma CheckedProduct<W>(f: VM.Frame<W>, m: VM.Machine, s: seq<u64>, a: u64, b: u64, p: int)
    requires Next(f, m, 0x17, 1) && m.st == s + [a, b] && |s| < 1024 && p == a * b
    ensures LeavesExact(f, m, s, p)
  {
    assert m.st[..|m.st| - 2] == s;
    ProductIsChecked(a, b, p);
  }

  lemma ProductIsChecked(a: u64, b: u64, p: int)
    requires p == a * b
    ensures 0 <= p && VM.Checked(0x17, a, b) == if p < WORD then Some(p) else None
  {
    ShlCorrect.CheckedIsExact(a, b);
  }

  /* ----- Comparison and logic ----- */

  lemma Comparison<W>(f: VM.Frame<W>, m: VM.Machine, op: int, s: seq<u64>, a: u64, b: u64)
    requires Next(f, m, op, 1) && m.st == s + [a, b] && |s| < 1024
    ensures op == 0x20 ==> Leaves(f, m, 1, s + [Flag(a == b)])
    ensures op == 0x21 ==> Leaves(f, m, 1, s + [Flag(a < b)])
    ensures op == 0x22 ==> Leaves(f, m, 1, s + [Flag(a > b)])
  {
    assert m.st[..|m.st| - 2] == s;
  }

  /** The binary digit of `v` at place `i`, the lowest first. */
  predicate Digit(v: nat, i: nat)
    decreases i
  {
    if i == 0 then v % 2 == 1 else Digit(v / 2, i - 1)
  }

  lemma {:induction false} ZeroHasNoDigits(i: nat)
    ensures !Digit(0, i)
  {
    if i > 0 {
      ZeroHasNoDigits(i - 1);
    }
  }

  lemma {:induction false} AndDigit(a: nat, b: nat, i: nat)
    ensures Digit(BitAnd(a, b), i) == (Digit(a, i) && Digit(b, i))
    decreases i
  {
    if a == 0 || b == 0 {
      ZeroHasNoDigits(i);
    } else if i > 0 {
      AndDigit(a / 2, b / 2, i - 1);
      assert BitAnd(a, b) / 2 == BitAnd(a / 2, b / 2);
    }
  }

  lemma {:induction false} OrDigit(a: nat, b: nat, i: nat)
    ensures Digit(BitOr(a, b), i) == (Digit(a, i) || Digit(b, i))
    decreases i
  {
    if a == 0 || b == 0 {
      ZeroHasNoDigits(i);
    } else if i > 0 {
      OrDigit(a / 2, b / 2, i - 1);
      assert BitOr(a, b) / 2 == BitOr(a / 2, b / 2);
    }
  }

  ghost predicate IsAnd(a: u64, b: u64, v: u64)
  {
    forall i: nat :: Digit(v, i) == (Digit(a, i) && Digit(b, i))
  }

  ghost predicate IsOr(a: u64, b: u64, v: u64)
  {
    forall i: nat :: Digit(v, i) == (Digit(a, i) || Digit(b, i))
  }

  lemma Bitwise<W>(f: VM.Frame<W>, m: VM.Machine, op: int, s: seq<u64>, a: u64, b: u64)
    requires Next(f, m, op, 1) && m.st == s + [a, b] && |s| < 1024
    ensures op == 0x24 ==> exists v: u64 :: IsAnd(a, b, v) && Leaves(f, m, 1, s + [v])
    ensures op == 0x25 ==> exists v: u64 :: IsOr(a, b, v) && Leaves(f, m, 1, s + [v])
  {
    assert m.st[..|m.st| - 2] == s;
    forall i: nat
      ensures Digit(And64(a, b), i) == (Digit(a, i) && Digit(b, i))
      ensures Digit(Or64(a, b), i) == (Digit(a, i) || Digit(b, i))
    {
      AndDigit(a, b, i);
      OrDigit(a, b, i);
    }
    assert IsAnd(a, b, And64(a, b)) && IsOr(a, b, Or64(a, b));
    assert op == 0x24 ==> Leaves(f, m, 1, s + [And64(a, b)]);
    assert op == 0x25 ==> Leaves(f, m, 1, s + [Or64(a, b)]);
  }

  lemma Negation<W>(f: VM.Frame<W>, m: VM.Machine, op: int, s: seq<u64>, a: u64)
    requires Next(f, m, op, 1) && m.st == s + [a]
    ensures op == 0x23 ==> Leaves(f, m, 1, s + [Flag(a == 0)])
    ensures op == 0x26 ==> Leaves(f, m, 1, s + [0xFFFF_FFFF_FFFF_FFFF - a])
  {
    assert m.st[..|m.st| - 1] == s;
  }

  /* ----- The stack ----- */

  /** PUSH carries its operand, eight bytes, the most significant first. */
  lemma Pushing<W>(f: VM.Frame<W>, m: VM.Machine)
    requires Next(f, m, 0x01, 3)
    ensures m.pc + 9 > |f.code| ==> Stops(f, m, VM.BadCode)
    ensures m.pc + 9 <= |f.code| && |m.st| >= 1024 ==> Stops(f, m, VM.StackOver)
    ensures m.pc + 9 <= |f.code| && |m.st| < 1024 ==>
              Becomes(f, m, Past(m, 3, m.st + [BytesU64(f.code[m.pc + 1..m.pc + 9])]).(pc := m.pc + 9))
  {
  }

  lemma Popping<W>(f: VM.Frame<W>, m: VM.Machine, s: seq<u64>, a: u64)
    requires Next(f, m, 0x02, 1) && m.st == s + [a]
    ensures Leaves(f, m, 1, s)
  {
    assert m.st[..|m.st| - 1] == s;
  }

  lemma Duplicating<W>(f: VM.Frame<W>, m: VM.Machine, s: seq<u64>, a: u64)
    requires Next(f, m, 0x30, 1) && m.st == s + [a]
    ensures if |s| + 2 <= 1024 then Leaves(f, m, 1, s + [a, a]) else Stops(f, m, VM.StackOver)
  {
    assert m.st[..|m.st| - 1] == s;
  }

  lemma Swapping<W>(f: VM.Frame<W>, m: VM.Machine, s: seq<u64>, a: u64, b: u64)
    requires Next(f, m, 0x31, 1) && m.st == s + [a, b]
    ensures Leaves(f, m, 1, s + [b, a])
  {
    assert m.st[..|m.st| - 2] == s;
  }

  /** What the context and the length of the calldata put on the stack. */
  lemma Surroundings<W>(f: VM.Frame<W>, m: VM.Machine, op: int)
    requires Next(f, m, op, 1) && VM.SliceSized(f.input)
    ensures op in {0x60, 0x61, 0x62, 0x64, 0x66} && |m.st| >= 1024 ==> Stops(f, m, VM.StackOver)
    ensures op == 0x60 && |m.st| < 1024 ==> Leaves(f, m, 1, m.st + [f.ctx.caller])
    ensures op == 0x61 && |m.st| < 1024 ==> Leaves(f, m, 1, m.st + [f.ctx.value])
    ensures op == 0x62 && |m.st| < 1024 ==> Leaves(f, m, 1, m.st + [f.ctx.balance])
    ensures op == 0x64 && |m.st| < 1024 ==> Leaves(f, m, 1, m.st + [f.ctx.self])
    ensures op == 0x66 && |m.st| < 1024 ==> Leaves(f, m, 1, m.st + [|f.input|])
  {
  }

  /** CDLOAD reads a word of eight bytes, or zero where the calldata end before it does. The index counts modulo 2^61,
      and the last of these indexes is read outside the calldata. */
  lemma Calldata<W>(f: VM.Frame<W>, m: VM.Machine, s: seq<u64>, idx: u64)
    requires Next(f, m, 0x63, 1) && m.st == s + [idx] && |s| < 1024 && VM.SliceSized(f.input)
    ensures var i := idx % 0x2000_0000_0000_0000;
            if i == 0x1FFF_FFFF_FFFF_FFFF then Stops(f, m, VM.Panic)
            else if 8 * i + 8 > |f.input| then Leaves(f, m, 1, s + [0])
            else Leaves(f, m, 1, s + [BytesU64(f.input[8 * i..8 * i + 8])])
  {
    assert m.st[..|m.st| - 1] == s;
    WordModulo(f.input, idx);
  }

  lemma WordModulo(input: seq<byte>, idx: u64)
    requires VM.SliceSized(input)
    ensures var i := idx % 0x2000_0000_0000_0000;
            VM.Word(input, idx) == if i == 0x1FFF_FFFF_FFFF_FFFF then None
                                   else if 8 * i + 8 > |input| then Some(0)
                                   else Some(BytesU64(input[8 * i..8 * i + 8]))
  {
    VM.WordIsExact(input, idx);
    VM.WordIsExact(input, idx % 0x2000_0000_0000_0000);
  }

  /* ----- Control ----- */

  /** The jump goes where it says, if that is inside the code. A destination of 2^63 or more passes the check as a
      negative number. */
  ghost predicate Jumps<W>(f: VM.Frame<W>, m: VM.Machine, s: seq<u64>, dest: u64)
  {
    if dest >= 0x8000_0000_0000_0000 then Becomes(f, m, Past(m, 1, s).(pc := dest - WORD))
    else if dest < |f.code| then Becomes(f, m, Past(m, 1, s).(pc := dest))
    else Stops(f, m, VM.BadJump)
  }

  lemma Jumping<W>(f: VM.Frame<W>, m: VM.Machine, s: seq<u64>, dest: u64)
    requires Next(f, m, 0x40, 1) && m.st == s + [dest]
    ensures Jumps(f, m, s, dest)
  {
    assert m.st[..|m.st| - 1] == s;
  }

  lemma Branching<W>(f: VM.Frame<W>, m: VM.Machine, s: seq<u64>, cond: u64, dest: u64)
    requires Next(f, m, 0x41, 1) && m.st == s + [cond, dest]
    ensures if cond == 0 then Leaves(f, m, 1, s) else Jumps(f, m, s, dest)
  {
    assert m.st[..|m.st| - 2] == s;
  }

  /** After a jump to a negative place the next step indexes the code outside its bounds. */
  lemma WildJump<W>(f: VM.Frame<W>, m: VM.Machine)
    requires m.pc < 0 && m.steps < 1_000_000
    ensures Stops(f, m, VM.Panic)
  {
  }

  lemma Ending<W>(f: VM.Frame<W>, m: VM.Machine, op: int)
    requires Next(f, m, op, 1)
    ensures op == 0x00 ==> Halts(f, m, m.st, 0, [])
    ensures op == 0x74 ==> Stops(f, m, VM.Reverted)
  {
  }

  lemma Returning<W>(f: VM.Frame<W>, m: VM.Machine, op: int, s: seq<u64>, a: u64)
    requires Next(f, m, op, 1) && m.st == s + [a]
    ensures op == 0x70 ==> Halts(f, m, s, a, [])
    ensures op == 0x73 ==> Halts(f, m, s, 0, if a in m.bwork then m.bwork[a] else [])
  {
    assert m.st[..|m.st| - 1] == s;
  }

  /* ----- Storage ----- */

  lemma Storing<W>(f: VM.Frame<W>, m: VM.Machine, s: seq<u64>, key: u64, v: u64)
    requires Next(f, m, 0x51, 100) && m.st == s + [key, v]
    ensures Becomes(f, m, Past(m, 100, s).(work := m.work[key := v]))
  {
    assert m.st[..|m.st| - 2] == s;
  }

  lemma Loading<W>(f: VM.Frame<W>, m: VM.Machine, s: seq<u64>, key: u64)
    requires Next(f, m, 0x50, 20) && m.st == s + [key] && |s| < 1024
    ensures Leaves(f, m, 20, s + [if key in m.work then m.work[key] else 0])
  {
    assert m.st[..|m.st| - 1] == s;
  }

  /** MIX hashes sixteen bytes: the base, then the key. */
  lemma Mixing<W>(f: VM.Frame<W>, m: VM.Machine, s: seq<u64>, base: u64, key: u64)
    requires Next(f, m, 0x57, 20) && m.st == s + [base, key] && |s| < 1024
    ensures Leaves(f, m, 20, s + [f.digest(U64Bytes(base) + U64Bytes(key))])
  {
    assert m.st[..|m.st| - 2] == s;
  }

  /* ----- The byte layer ----- */

  /** The bytes under a key; none when the key was never written. */
  function Blob(m: VM.Machine, key: u64): (b: seq<byte>)
  {
    if key in m.bwork then m.bwork[key] else []
  }

  /** BSTORE takes a length, an offset and, on top, the key, and stores that part of the calldata. */
  lemma StoringBytes<W>(f: VM.Frame<W>, m: VM.Machine, s: seq<u64>, len: u64, off: u64, key: u64)
    requires Next(f, m, 0x53, 100) && m.st == s + [len, off, key] && VM.SliceSized(f.input)
    ensures if off + len <= |f.input|
            then Becomes(f, m, Past(m, 100, s).(bwork := m.bwork[key := f.input[off..off + len]]))
            else Stops(f, m, VM.BadCode)
  {
    assert m.st[..|m.st| - 3] == s;
  }

  lemma ComparingBytes<W>(f: VM.Frame<W>, m: VM.Machine, s: seq<u64>, a: u64, b: u64)
    requires Next(f, m, 0x54, 20) && m.st == s + [a, b] && |s| < 1024
    ensures Leaves(f, m, 20, s + [Flag(Blob(m, a) == Blob(m, b))])
  {
    assert m.st[..|m.st| - 2] == s;
  }

  lemma MeasuringBytes<W>(f: VM.Frame<W>, m: VM.Machine, s: seq<u64>, key: u64)
    requires Next(f, m, 0x55, 1) && m.st == s + [key] && |s| < 1024 && VM.SliceSized(Blob(m, key))
    ensures Leaves(f, m, 1, s + [|Blob(m, key)|])
  {
    assert m.st[..|m.st| - 1] == s;
  }

  lemma HashingBytes<W>(f: VM.Frame<W>, m: VM.Machine, s: seq<u64>, key: u64)
    requires Next(f, m, 0x56, 20) && m.st == s + [key] && |s| < 1024
    ensures Leaves(f, m, 20, s + [f.digest(Blob(m, key))])
  {
    assert m.st[..|m.st| - 1] == s;
  }

  lemma Addresses<W>(f: VM.Frame<W>, m: VM.Machine, op: int, s: seq<u64>, key: u64)
    requires Next(f, m, op, 100) && m.st == s + [key]
    ensures op == 0x67 ==> Becomes(f, m, Past(m, 100, s).(bwork := m.bwork[key := f.ctx.callerAddr]))
    ensures op == 0x68 ==> Becomes(f, m, Past(m, 100, s).(bwork := m.bwork[key := f.ctx.selfAddr]))
  {
    assert m.st[..|m.st| - 1] == s;
  }

  /* ----- Events ----- */

  /** LOG takes the number of topics from the top and then the topics, and records them in the order they
      were pushed. */
  lemma Logging<W>(f: VM.Frame<W>, m: VM.Machine, s: seq<u64>, topics: seq<u64>)
    requires Next(f, m, 0x72, 50 + 8 * |topics|) && |topics| <= 8 && m.st == s + topics + [|topics|]
    ensures Becomes(f, m, Past(m, 50 + 8 * |topics|, s).(logs := m.logs + [topics]))
  {
    var t := s + topics;
    assert m.st[..|m.st| - 1] == t;
    assert t[..|t| - |topics|] == s && t[|t| - |topics|..] == topics;
  }

  lemma LoggingTooMuch<W>(f: VM.Frame<W>, m: VM.Machine, s: seq<u64>, n: u64)
    requires Next(f, m, 0x72, 50) && m.st == s + [n]
    ensures n > 8 ==> Stops(f, m, VM.BadCode)
    ensures n <= 8 && (m.used + 50 + 8 * n) % WORD > f.gas ==> Stops(f, m, VM.OutOfGas)
    ensures n <= 8 && m.used + 50 + 8 * n <= f.gas && |s| < n ==> Stops(f, m, VM.StackUnder)
  {
    var m1 := Past(m, 50, s);
    LogIsEmitted(f, m, s, n, m1);
    if n <= 8 { TopicsArePaid(f, m1, n, m.used + 50); }
  }

  lemma LogIsEmitted<W>(f: VM.Frame<W>, m: VM.Machine, s: seq<u64>, n: u64, m1: VM.Machine)
    requires Next(f, m, 0x72, 50) && m.st == s + [n] && m1 == Past(m, 50, s)
    ensures VM.Step(f, m) == VM.EmitLog(f, m1, n) && m1.used == m.used + 50
  {
    assert m.st[..|m.st| - 1] == s;
  }

  lemma TopicsArePaid<W>(f: VM.Frame<W>, m: VM.Machine, n: u64, used: u64)
    requires n <= 8 && m.used == used
    ensures var r, total := VM.EmitLog(f, m, n), (used + 8 * n) % WORD;
            && (total > f.gas ==> r.Abort? && r.err == VM.OutOfGas)
            && (total <= f.gas && |m.st| < n ==> r.Abort? && r.err == VM.StackUnder)
  {
  }

  /* ----- Calls ----- */

  /** Nothing can be called: no host is given, or eight contracts are already on the way. */
  lemma CallingNobody<W>(f: VM.Frame<W>, m: VM.Machine, s: seq<u64>, target: u64, arg: u64, gas: u64)
    requires Next(f, m, 0x71, 1) && m.st == s + [target, arg, gas] && |s| < 1024
    requires f.host.NoHost? || f.ctx.depth >= 8
    ensures Leaves(f, m, 1, s + [0])
  {
    assert m.st[..|m.st| - 3] == s;
  }

  function Least(a: int, b: int): (c: int)
  {
    if a < b then a else b
  }

  /** What the host answers when the contract at `m` calls out. */
  function Answer<W>(f: VM.Frame<W>, w: W, m: VM.Machine, target: u64, arg: u64, gas: u64): (r: VM.Reply<W>)
    requires f.host.Host? && m.used + 1 <= f.gas
  {
    f.host.call(w, f.ctx.self, target, arg, Least(gas, f.gas - m.used - 1), f.ctx.depth + 1)
  }

  lemma CallAsks<W>(f: VM.Frame<W>, m: VM.Machine, s: seq<u64>, target: u64, arg: u64, gas: u64)
    requires Next(f, m, 0x71, 1) && m.st == s + [target, arg, gas]
    requires f.host.Host? && f.ctx.depth < 8
    ensures VM.Step(f, m) == VM.Invoke(Past(m, 1, s), target, arg, Least(gas, f.gas - m.used - 1))
  {
    assert m.st[..|m.st| - 3] == s;
  }

  /** What the caller has been charged once the callee is done; the counter wraps. */
  function Charged<W>(m: VM.Machine, r: VM.Reply<W>): (used: u64)
  {
    (m.used + 1 + r.gasUsed) % WORD
  }

  lemma AnswerIsPushed<W>(f: VM.Frame<W>, m: VM.Machine, s: seq<u64>, r: VM.Reply<W>)
    requires |s| < 1024
    ensures VM.Resume(f, Past(m, 1, s), r) ==
            if Charged(m, r) <= f.gas then VM.Next(AfterCall(m, s, r))
            else VM.Abort(VM.OutOfGas, m.spent + 1 + r.spent)
  {
    InTwo(m.used, 1, r.gasUsed);
  }

  lemma InTwo(x: int, y: int, z: int)
    ensures ((x + y) % WORD + z) % WORD == (x + y + z) % WORD
  {
  }

  /** A call asks the host for the target, with the argument and at most the gas that is left. Its answer is
      charged for, and is on the stack when the run goes on; a call that failed leaves zero. */
  lemma {:induction false} Calling<W>(
      f: VM.Frame<W>, w: W, m: VM.Machine, s: seq<u64>, target: u64, arg: u64, gas: u64, r: VM.Reply<W>)
    requires Next(f, m, 0x71, 1) && m.st == s + [target, arg, gas] && |s| < 1024
    requires f.host.Host? && f.ctx.depth < 8 && r == Answer(f, w, m, target, arg, gas)
    ensures if Charged(m, r) <= f.gas
            then VM.Run(f, w, m) == VM.Run(f, r.world, AfterCall(m, s, r))
            else VM.Run(f, w, m) == VM.Failure(VM.OutOfGas, r.world, m.spent + 1 + r.spent)
  {
    CallAsks(f, m, s, target, arg, gas);
    AnswerIsPushed(f, m, s, r);
    var i := VM.Invoke(Past(m, 1, s), target, arg, Least(gas, f.gas - m.used - 1));
    var t := if Charged(m, r) <= f.gas then VM.Next(AfterCall(m, s, r))
    else VM.Abort(VM.OutOfGas, m.spent + 1 + r.spent);
    VmRuns.RunInvokes(f, w, m, i, r, t);
  }

  /** The machine a call leaves. */
  function AfterCall<W>(m: VM.Machine, s: seq<u64>, r: VM.Reply<W>): (n: VM.Machine)
  {
    Past(m, 1 + r.gasUsed, s + [if r.ok then r.ret else 0]).(spent := m.spent + 1 + r.spent)
  }
}
