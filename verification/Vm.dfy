/**
 The gas-metered stack machine of internal/vm: one function per instruction group, `Run` as the
 meaning of a whole execution, and `ExecuteB` as the loop that computes it.

 `W` is whatever a cross-contract call may change; the host of a frame is a function on it.
 `spent` is an instrument the program does not have: the gas of every opcode charged in this frame
 and, through the host's replies, in all frames below it.
 */
module VM {
  import opened Words

  const STOP: byte := 0x00
  const PUSH: byte := 0x01
  const POP: byte := 0x02
  const ADD: byte := 0x10
  const SUB: byte := 0x11
  const MUL: byte := 0x12
  const DIV: byte := 0x13
  const MOD: byte := 0x14
  const ADDC: byte := 0x15
  const SUBC: byte := 0x16
  const MULC: byte := 0x17
  const EQ: byte := 0x20
  const LT: byte := 0x21
  const GT: byte := 0x22
  const ISZERO: byte := 0x23
  const AND: byte := 0x24
  const OR: byte := 0x25
  const NOT: byte := 0x26
  const DUP: byte := 0x30
  const SWAP: byte := 0x31
  const JUMP: byte := 0x40
  const JUMPI: byte := 0x41
  const SLOAD: byte := 0x50
  const SSTORE: byte := 0x51
  const BSTORE: byte := 0x53
  const BEQ: byte := 0x54
  const BLEN: byte := 0x55
  const BHASH: byte := 0x56
  const MIX: byte := 0x57
  const CALLER: byte := 0x60
  const VALUE: byte := 0x61
  const BAL: byte := 0x62
  const CDLOAD: byte := 0x63
  const SELF: byte := 0x64
  const CDLEN: byte := 0x66
  const CALLERB: byte := 0x67
  const SELFB: byte := 0x68
  const RETURN: byte := 0x70
  const CALL: byte := 0x71
  const LOG: byte := 0x72
  const RETURNB: byte := 0x73
  const REVERT: byte := 0x74

  const MAX_LOG_TOPICS: nat := 8
  const MAX_STACK: nat := 1024
  const MAX_STEPS: nat := 1_000_000
  const MAX_DEPTH: nat := 8

  /** `Panic` is a Go run-time panic (an index outside a slice), not an error value. */
  datatype Error =
    | OutOfGas | StackUnder | StackOver | BadJump | DivZero
    | BadCode | StepLimit | Reverted | Overflow | Panic

  datatype Context = Context(
    caller: u64, self: u64, callerAddr: seq<byte>, selfAddr: seq<byte>,
    value: u64, balance: u64, depth: nat)

  datatype Reply<+W> = Reply(world: W, ret: u64, gasUsed: u64, ok: bool, spent: nat)

  /** A call host: world, own id, target id, argument, forwarded gas, callee depth. */
  datatype Host<!W> = NoHost | Host(call: (W, u64, u64, u64, u64, nat) -> Reply<W>)

  /** What one execution is given and never changes. `digest` is be8 of SHA-256. */
  datatype Frame<!W> = Frame(
    code: seq<byte>, input: seq<byte>, gas: u64, ctx: Context,
    digest: seq<byte> -> u64, host: Host<W>)

  datatype Machine = Machine(
    pc: int, st: seq<u64>, work: map<u64, u64>, bwork: map<u64, seq<byte>>,
    used: u64, steps: nat, logs: seq<seq<u64>>, spent: nat)

  datatype StepResult =
    | Next(m: Machine)
    | Halt(m: Machine, ret: u64, retBytes: seq<byte>)
    | Abort(err: Error, spent: nat)
    | Invoke(m: Machine, target: u64, arg: u64, forward: u64)

  datatype Outcome<+W> =
    | Success(m: Machine, ret: u64, retBytes: seq<byte>, world: W)
    | Failure(err: Error, world: W, spent: nat)

  function GasCost(op: byte): (c: nat)
    ensures 1 <= c <= 100
  {
    if op == SSTORE || op == BSTORE || op == CALLERB || op == SELFB then 100
    else if op == LOG then 50
    else if op == SLOAD || op == BEQ || op == BHASH || op == MIX then 20
    else if op == PUSH then 3
    else 1
  }

  function Get(work: map<u64, u64>, k: u64): (v: u64)
  {
    if k in work then work[k] else 0
  }

  function GetBytes(bwork: map<u64, seq<byte>>, k: u64): (v: seq<byte>)
  {
    if k in bwork then bwork[k] else []
  }

  /** The idx-th calldata word as the VM computes it: both `idx*8` and `off+8` wrap, and an
      offset that wrapped past the length check indexes outside the slice. */
  function Word(input: seq<byte>, idx: u64): (r: Option<u64>)
  {
    var off := Wrap(idx * 8);
    if Wrap(off + 8) > |input| then Some(0)
    else if off + 8 > |input| then None
    else Some(BytesU64(input[off..off + 8]))
  }

  /** The word a caller means by `arg(idx)`: zero when it is not entirely inside the calldata. */
  function CalldataWord(input: seq<byte>, idx: nat): (r: u64)
  {
    if 8 * idx + 8 > |input| then 0 else BytesU64(input[8 * idx..8 * idx + 8])
  }

  /** A Go slice has fewer than 2^63 elements. */
  ghost predicate SliceSized(s: seq<byte>)
  {
    |s| < TWO63
  }

  lemma WordIsExact(input: seq<byte>, idx: u64)
    requires SliceSized(input)
    ensures idx < TWO64 / 8 - 1 ==> Word(input, idx) == Some(CalldataWord(input, idx))
    ensures idx == TWO64 / 8 - 1 ==> Word(input, idx) == None
    ensures idx >= TWO64 / 8 ==> Word(input, idx) == Word(input, idx % (TWO64 / 8))
  {
    assert Wrap(idx * 8) == (idx % (TWO64 / 8)) * 8;
  }

  function Binop(op: byte, a: u64, b: u64): (r: Option<u64>)
  {
    if op == ADD then Some(Wrap(a + b))
    else if op == SUB then Some(Wrap(a - b))
    else if op == MUL then Some(Wrap(a * b))
    else if op == DIV then (if b == 0 then None else Quotient(a, b))
    else if op == MOD then (if b == 0 then None else Some(a % b))
    else if op == EQ then Some(B2U(a == b))
    else if op == LT then Some(B2U(a < b))
    else if op == GT then Some(B2U(a > b))
    else if op == AND then Some(And64(a, b))
    else Some(Or64(a, b))
  }

  function Quotient(a: u64, b: u64): (r: Option<u64>)
    requires b != 0
    ensures r == Some(a / b)
  {
    QuotientBound(a, b);
    Some(a / b)
  }

  lemma ProductBound(q: int, b: int)
    requires b >= 1
    ensures q >= 0 ==> q * b >= q
    ensures q < 0 ==> q * b <= -b
  {
  }

  lemma QuotientBound(a: nat, b: nat)
    requires b != 0
    ensures 0 <= a / b <= a
  {
    ghost var q, r := a / b, a % b;
    ProductBound(q, b);
    assert a == q * b + r;
  }

  function Checked(op: byte, a: u64, b: u64): (r: Option<u64>)
  {
    if op == ADDC then
      var s := Wrap(a + b);
      if s < a then None else Some(s)
    else if op == SUBC then
      if b > a then None else Some(a - b)
    else
      var p := Wrap(a * b);
      if a != 0 && p / a != b then None else Some(p)
  }

  predicate IsBinop(op: byte) {
    op in {ADD, SUB, MUL, DIV, MOD, EQ, LT, GT, AND, OR}
  }

  function Push(m: Machine, v: u64): (r: StepResult)
  {
    if |m.st| >= MAX_STACK then Abort(StackOver, m.spent) else Next(m.(st := m.st + [v]))
  }

  /** The stack without its `n` top words. */
  function Drop(m: Machine, n: nat): (r: Machine)
    requires n <= |m.st|
  {
    m.(st := m.st[..|m.st| - n])
  }

  /** The word `i` places below the top. */
  function Peek(m: Machine, i: nat): (v: u64)
    requires i < |m.st|
  {
    m.st[|m.st| - 1 - i]
  }

  /** `pc = int(dest)`: a destination of 2^63 or more is a negative int, which passes the check. */
  function JumpTo<W>(f: Frame<W>, m: Machine, dest: u64): (r: StepResult)
  {
    var target := if dest >= TWO63 then dest - TWO64 else dest;
    if target >= |f.code| then Abort(BadJump, m.spent) else Next(m.(pc := target))
  }

  /** LOG pops its topic count, then that many words; the first topic pushed comes first. */
  function EmitLog<W>(f: Frame<W>, m: Machine, n: u64): (r: StepResult)
  {
    if n > MAX_LOG_TOPICS then Abort(BadCode, m.spent)
    else if Wrap(m.used + 8 * n) > f.gas then Abort(OutOfGas, m.spent)
    else if n > |m.st| then Abort(StackUnder, m.spent + 8 * n)
    else
      Next(m.(used := Wrap(m.used + 8 * n), spent := m.spent + 8 * n,
              st := m.st[..|m.st| - n], logs := m.logs + [m.st[|m.st| - n..]]))
  }

  /** Instructions without operands on the stack. */
  function Exec0<W>(f: Frame<W>, op: byte, m: Machine): (r: StepResult)
  {
    if op == STOP then Halt(m, 0, [])
    else if op == REVERT then Abort(Reverted, m.spent)
    else if op == PUSH then
      if m.pc < 0 || m.pc + 8 > |f.code| then Abort(BadCode, m.spent)
      else Push(m.(pc := m.pc + 8), BytesU64(f.code[m.pc..m.pc + 8]))
    else if op == CALLER then Push(m, f.ctx.caller)
    else if op == VALUE then Push(m, f.ctx.value)
    else if op == BAL then Push(m, f.ctx.balance)
    else if op == SELF then Push(m, f.ctx.self)
    else if op == CDLEN then Push(m, Wrap(|f.input|))
    else Abort(BadCode, m.spent)
  }

  predicate IsExec1(op: byte) {
    op in {POP, ISZERO, NOT, DUP, JUMP, SLOAD, CDLOAD, LOG, BLEN, BHASH, CALLERB, SELFB, RETURNB, RETURN}
  }

  /** Instructions whose first pop is word `a`; `m` is the machine after that pop. */
  function Exec1<W>(f: Frame<W>, op: byte, m: Machine, a: u64): (r: StepResult)
  {
    if op == POP then Next(m)
    else if op == ISZERO then Next(m.(st := m.st + [B2U(a == 0)]))
    else if op == NOT then Next(m.(st := m.st + [TWO64 - 1 - a]))
    else if op == DUP then
      if |m.st| + 1 >= MAX_STACK then Abort(StackOver, m.spent) else Next(m.(st := m.st + [a, a]))
    else if op == JUMP then JumpTo(f, m, a)
    else if op == SLOAD then Push(m, Get(m.work, a))
    else if op == CDLOAD then
      match Word(f.input, a) { case None => Abort(Panic, m.spent) case Some(v) => Push(m, v) }
    else if op == LOG then EmitLog(f, m, a)
    else if op == BLEN then Push(m, Wrap(|GetBytes(m.bwork, a)|))
    else if op == BHASH then Push(m, f.digest(GetBytes(m.bwork, a)))
    else if op == CALLERB then Next(m.(bwork := m.bwork[a := f.ctx.callerAddr]))
    else if op == SELFB then Next(m.(bwork := m.bwork[a := f.ctx.selfAddr]))
    else if op == RETURNB then Halt(m, 0, GetBytes(m.bwork, a))
    else Halt(m, a, [])
  }

  predicate IsExec2(op: byte) {
    IsBinop(op) || op in {ADDC, SUBC, MULC, MIX, SWAP, JUMPI, SSTORE, BEQ}
  }

  /** Instructions that pop `b` from the top and `a` from below it. */
  function Exec2<W>(f: Frame<W>, op: byte, m: Machine, a: u64, b: u64): (r: StepResult)
  {
    if IsBinop(op) then
      match Binop(op, a, b) { case None => Abort(DivZero, m.spent) case Some(v) => Push(m, v) }
    else if op == ADDC || op == SUBC || op == MULC then
      match Checked(op, a, b) { case None => Abort(Overflow, m.spent) case Some(v) => Push(m, v) }
    else if op == MIX then Push(m, f.digest(U64Bytes(a) + U64Bytes(b)))
    else if op == SWAP then Next(m.(st := m.st + [b, a]))
    else if op == JUMPI then (if a != 0 then JumpTo(f, m, b) else Next(m))
    else if op == SSTORE then Next(m.(work := m.work[a := b]))
    else Push(m, B2U(GetBytes(m.bwork, b) == GetBytes(m.bwork, a)))
  }

  /** Instructions that pop three words: `c` on top, then `b`, then `a`. */
  function Exec3<W>(f: Frame<W>, op: byte, m: Machine, a: u64, b: u64, c: u64): (r: StepResult)
  {
    if op == BSTORE then
      if Wrap(b + a) > |f.input| || Wrap(b + a) < b then Abort(BadCode, m.spent)
      else Next(m.(bwork := m.bwork[c := f.input[b..b + a]]))
    else
      if f.host.NoHost? || f.ctx.depth >= MAX_DEPTH then Push(m, 0)
      else
        var rem := Wrap(f.gas - m.used);
        Invoke(m, a, b, if c > rem then rem else c)
  }

  /** One opcode, already fetched and charged. */
  function Dispatch<W>(f: Frame<W>, op: byte, m: Machine): (r: StepResult)
  {
    if IsExec2(op) then
      if |m.st| < 2 then Abort(StackUnder, m.spent) else Exec2(f, op, Drop(m, 2), Peek(m, 1), Peek(m, 0))
    else if IsExec1(op) then
      if |m.st| < 1 then Abort(StackUnder, m.spent) else Exec1(f, op, Drop(m, 1), Peek(m, 0))
    else if op == CALL || op == BSTORE then
      if |m.st| < 3 then Abort(StackUnder, m.spent)
      else Exec3(f, op, Drop(m, 3), Peek(m, 2), Peek(m, 1), Peek(m, 0))
    else Exec0(f, op, m)
  }

  /** The machine once the instruction at pc is fetched and paid for. */
  function Charge(m: Machine, op: byte): (r: Machine)
  {
    var c := GasCost(op);
    m.(pc := m.pc + 1, steps := m.steps + 1, used := Wrap(m.used + c), spent := m.spent + c)
  }

  /** One turn of the loop: step limit, fetch, gas, instruction. */
  function Step<W>(f: Frame<W>, m: Machine): (r: StepResult)
    requires m.pc < |f.code|
  {
    if m.steps + 1 > MAX_STEPS then Abort(StepLimit, m.spent)
    else if m.pc < 0 then Abort(Panic, m.spent)
    else
      var op := f.code[m.pc];
      if Wrap(m.used + GasCost(op)) > f.gas then Abort(OutOfGas, m.spent)
      else Dispatch(f, op, Charge(m, op))
  }

  /** What CALL does with the host's answer. */
  function Resume<W>(f: Frame<W>, m: Machine, r: Reply<W>): (s: StepResult)
  {
    var m1 := m.(used := Wrap(m.used + r.gasUsed), spent := m.spent + r.spent);
    if m1.used > f.gas then Abort(OutOfGas, m1.spent)
    else Push(m1, if r.ok then r.ret else 0)
  }

  lemma DispatchCounts<W>(f: Frame<W>, op: byte, m: Machine)
    ensures var r := Dispatch(f, op, m);
            (r.Next? || r.Halt? || r.Invoke? ==> r.m.steps == m.steps)
            && (r.Invoke? ==> op == CALL && f.host.Host? && f.ctx.depth < MAX_DEPTH)
  {
  }

  lemma StepCounts<W>(f: Frame<W>, m: Machine)
    requires m.pc < |f.code|
    ensures var r := Step(f, m);
            (r.Next? || r.Halt? || r.Invoke? ==> r.m.steps == m.steps + 1 && m.steps < MAX_STEPS)
            && (r.Invoke? ==> 0 <= m.pc && f.code[m.pc] == CALL && f.host.Host? && f.ctx.depth < MAX_DEPTH)
  {
    if 0 <= m.pc {
      DispatchCounts(f, f.code[m.pc], Charge(m, f.code[m.pc]));
    }
  }

  /** The meaning of an execution from machine `m` on. */
  function Run<W>(f: Frame<W>, w: W, m: Machine): (o: Outcome<W>)
    decreases MAX_STEPS - m.steps
  {
    if m.pc >= |f.code| then Success(m, 0, [], w)
    else
      StepCounts(f, m);
      match Step(f, m)
      case Next(m1) => Run(f, w, m1)
      case Halt(m1, ret, rb) => Success(m1, ret, rb, w)
      case Abort(e, spent) => Failure(e, w, spent)
      case Invoke(m1, target, arg, forward) =>
        var r := f.host.call(w, f.ctx.self, target, arg, forward, f.ctx.depth + 1);
        match Resume(f, m1, r)
        case Next(m2) => Run(f, r.world, m2)
        case Abort(e, spent) => Failure(e, r.world, spent)
  }

  function Start(work: map<u64, u64>, bwork: map<u64, seq<byte>>): (m: Machine)
  {
    Machine(0, [], work, bwork, 0, 0, [], 0)
  }

  /** A contract's two storage maps, rewritten by a successful execution. */
  class Storage {
    var words: map<u64, u64>
    var blobs: map<u64, seq<byte>>

    constructor (words: map<u64, u64>, blobs: map<u64, seq<byte>>)
      ensures this.words == words && this.blobs == blobs
    {
      this.words, this.blobs := words, blobs;
    }
  }

  /** The interpreter loop. It runs on working copies, and writes them back only when it halts well. */
  method ExecuteB<W>(f: Frame<W>, w: W, store: Storage) returns (o: Outcome<W>)
    modifies store
    ensures o == Run(f, w, Start(old(store.words), old(store.blobs)))
    ensures o.Success? ==> store.words == o.m.work && store.blobs == o.m.bwork
    ensures o.Failure? ==> store.words == old(store.words) && store.blobs == old(store.blobs)
  {
    var m := Start(store.words, store.blobs);
    var world := w;
    while m.pc < |f.code|
      invariant Run(f, world, m) == Run(f, w, Start(old(store.words), old(store.blobs)))
      invariant store.words == old(store.words) && store.blobs == old(store.blobs)
      decreases MAX_STEPS - m.steps
    {
      StepCounts(f, m);
      var r := Step(f, m);
      if r.Invoke? {
        m := r.m;
        var reply := f.host.call(world, f.ctx.self, r.target, r.arg, r.forward, f.ctx.depth + 1);
        world := reply.world;
        r := Resume(f, m, reply);
      }
      match r {
        case Next(m1) =>
          m := m1;
        case Abort(e, spent) =>
          return Failure(e, world, spent);
        case Halt(m1, ret, retBytes) =>
          store.words, store.blobs := m1.work, m1.bwork;
          return Success(m1, ret, retBytes, world);
      }
    }
    store.words, store.blobs := m.work, m.bwork;
    o := Success(m, 0, [], world);
  }
}
