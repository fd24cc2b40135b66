/**
 The byte-layer token of the repository's tests: every run of it, from its bytecode. The calldata carry a
 selector, a token id and, for a transfer, the new owner's address.
 */
module Token {
  import opened Words
  import opened Opcodes
  import opened Samples
  import VM
  import VmRuns

  /** Where the contract keeps its caller's address while it compares. */
  const SCRATCH: u64 := 0x8000_0000_0000_0000

  /** Dispatch: 0 mints, 1 transfers, anything else returns the owner. */
  ghost predicate Dispatches(code: seq<byte>)
  {
    && |code| == 164
    && PushAt(code, 0, 0) && code[9] == 0x63 && code[10] == 0x23 && PushAt(code, 11, 62) && code[20] == 0x41
    && PushAt(code, 21, 0) && code[30] == 0x63 && PushAt(code, 31, 1) && code[40] == 0x20
    && PushAt(code, 41, 74) && code[50] == 0x41
    && PushAt(code, 51, 1) && code[60] == 0x63 && code[61] == 0x73
  }

  /** Minting stores the caller under the token's id. A transfer compares the owner with the caller, and
      then stores 42 bytes of the calldata; the denial divides by zero. */
  ghost predicate IsToken(code: seq<byte>)
  {
    && Dispatches(code)
    && PushAt(code, 62, 1) && code[71] == 0x63 && code[72] == 0x67 && code[73] == 0x00
    && PushAt(code, 74, SCRATCH) && code[83] == 0x67 && PushAt(code, 84, 1) && code[93] == 0x63
    && PushAt(code, 94, SCRATCH) && code[103] == 0x54 && code[104] == 0x23 && PushAt(code, 105, 145)
    && code[114] == 0x41
    && PushAt(code, 115, 42) && PushAt(code, 124, 16) && PushAt(code, 133, 1) && code[142] == 0x63
    && code[143] == 0x53 && code[144] == 0x00
    && PushAt(code, 145, 1) && PushAt(code, 154, 0) && code[163] == 0x13
  }

  /** The assembled contract, byte by byte. */
  function TokenByte(p: nat): (b: byte)
  {
    if p in {0, 11, 21, 31, 41, 51, 62, 74, 84, 94, 105, 115, 124, 133, 145, 154} then 0x01
    else if p in {9, 30, 60, 71, 93, 142} then 0x63
    else if p in {10, 104} then 0x23
    else if p in {20, 50, 114} then 0x41
    else if p in {72, 83} then 0x67
    else if p in {39, 59, 70, 92, 141, 153} then 1
    else if p in {75, 95} then 0x80
    else
      match p
      case 19 => 62
      case 40 => 0x20
      case 49 => 74
      case 61 => 0x73
      case 103 => 0x54
      case 113 => 145
      case 123 => 42
      case 132 => 16
      case 143 => 0x53
      case 163 => 0x13
      case _ => 0
  }

  lemma PushScratch(code: seq<byte>, p: nat)
    requires p + 9 <= |code| && code[p] == 0x01 && code[p + 1] == 0x80 && forall i :: p + 1 < i < p + 9 ==> code[i] == 0
    ensures PushAt(code, p, SCRATCH)
  {
    var s := code[p + 1..p + 9];
    Shifts(s, 7);
  }

  /** A byte with zeros after it. */
  lemma {:induction false} Shifts(s: seq<byte>, n: nat)
    requires |s| == n + 1 && forall i :: 0 < i < |s| ==> s[i] == 0
    ensures FromBigEndian(s) == s[0] * Pow256(n)
  {
    if n == 0 {
      assert s[..0] == [];
    } else {
      Shifts(s[..n], n - 1);
    }
  }

  lemma TokenExists() returns (code: seq<byte>)
    ensures IsToken(code)
  {
    code := seq(164, p requires 0 <= p < 164 => TokenByte(p));
    EarlyPushes(code);
    LatePushes(code);
    HasOpcodes(code);
  }

  lemma EarlyPushes(code: seq<byte>)
    requires |code| == 164 && forall p :: 0 <= p < 164 ==> code[p] == TokenByte(p)
    ensures PushAt(code, 0, 0) && PushAt(code, 11, 62) && PushAt(code, 21, 0) && PushAt(code, 31, 1)
    ensures PushAt(code, 41, 74) && PushAt(code, 51, 1) && PushAt(code, 62, 1) && PushAt(code, 74, SCRATCH)
  {
    SmallPush(code, 0, 0);
    SmallPush(code, 11, 62);
    SmallPush(code, 21, 0);
    SmallPush(code, 31, 1);
    SmallPush(code, 41, 74);
    SmallPush(code, 51, 1);
    SmallPush(code, 62, 1);
    PushScratch(code, 74);
  }

  lemma LatePushes(code: seq<byte>)
    requires |code| == 164 && forall p :: 0 <= p < 164 ==> code[p] == TokenByte(p)
    ensures PushAt(code, 84, 1) && PushAt(code, 94, SCRATCH) && PushAt(code, 105, 145) && PushAt(code, 115, 42)
    ensures PushAt(code, 124, 16) && PushAt(code, 133, 1) && PushAt(code, 145, 1) && PushAt(code, 154, 0)
  {
    SmallPush(code, 84, 1);
    PushScratch(code, 94);
    SmallPush(code, 105, 145);
    SmallPush(code, 115, 42);
    SmallPush(code, 124, 16);
    SmallPush(code, 133, 1);
    SmallPush(code, 145, 1);
    SmallPush(code, 154, 0);
  }

  lemma HasOpcodes(code: seq<byte>)
    requires |code| == 164 && forall p :: 0 <= p < 164 ==> code[p] == TokenByte(p)
    ensures code[9] == 0x63 && code[10] == 0x23 && code[20] == 0x41 && code[30] == 0x63 && code[40] == 0x20
    ensures code[50] == 0x41 && code[60] == 0x63 && code[61] == 0x73 && code[71] == 0x63 && code[72] == 0x67
    ensures code[73] == 0x00 && code[83] == 0x67 && code[93] == 0x63 && code[103] == 0x54 && code[104] == 0x23
    ensures code[114] == 0x41 && code[142] == 0x63 && code[143] == 0x53 && code[144] == 0x00 && code[163] == 0x13
  {
  }

  /* ----- Its instructions ----- */

  lemma {:induction false} ThenArg<W>(f: VM.Frame<W>, w: W, m: VM.Machine, n: VM.Machine, s: seq<u64>, i: u64)
      returns (n': VM.Machine)
    requires Leads(f, w, m, n) && Early(f, n, 0x63) && n.st == s + [i] && i < 2 && VM.SliceSized(f.input)
    ensures n' == On(n, 1, s + [Arg(f.input, i)]) && Leads(f, w, m, n') == true
  {
    n' := On(n, 1, s + [Arg(f.input, i)]);
    if Next(f, n, 0x63, 1) { Calldata(f, n, s, i); }
    Then(f, w, m, n, 0x63, n');
  }

  /** The idx-th word of the calldata; zero where they end before it does. */
  function Arg(input: seq<byte>, idx: nat): (v: u64)
  {
    if 8 * idx + 8 > |input| then 0 else BytesU64(input[8 * idx..8 * idx + 8])
  }

  lemma {:induction false} ThenIsZero<W>(f: VM.Frame<W>, w: W, m: VM.Machine, n: VM.Machine, s: seq<u64>, a: u64)
      returns (n': VM.Machine)
    requires Leads(f, w, m, n) && Early(f, n, 0x23) && n.st == s + [a]
    ensures n' == On(n, 1, s + [Flag(a == 0)]) && Leads(f, w, m, n') == true
  {
    n' := On(n, 1, s + [Flag(a == 0)]);
    if Next(f, n, 0x23, 1) { Negation(f, n, 0x23, s, a); }
    Then(f, w, m, n, 0x23, n');
  }

  lemma {:induction false} ThenEquals<W>(
      f: VM.Frame<W>, w: W, m: VM.Machine, n: VM.Machine, s: seq<u64>, a: u64, b: u64) returns (n': VM.Machine)
    requires Leads(f, w, m, n) && Early(f, n, 0x20) && n.st == s + [a, b]
    ensures n' == On(n, 1, s + [Flag(a == b)]) && Leads(f, w, m, n') == true
  {
    n' := On(n, 1, s + [Flag(a == b)]);
    if Next(f, n, 0x20, 1) { Comparison(f, n, 0x20, s, a, b); }
    Then(f, w, m, n, 0x20, n');
  }

  lemma {:induction false} ThenBranch<W>(
      f: VM.Frame<W>, w: W, m: VM.Machine, n: VM.Machine, s: seq<u64>, cond: u64, dest: u64) returns (n': VM.Machine)
    requires Leads(f, w, m, n) && Early(f, n, 0x41) && n.st == s + [cond, dest] && dest < |f.code| && dest < 1000
    ensures n' == On(n, 1, s).(pc := if cond == 0 then n.pc + 1 else dest) && Leads(f, w, m, n') == true
  {
    n' := On(n, 1, s).(pc := if cond == 0 then n.pc + 1 else dest);
    if Next(f, n, 0x41, 1) { Branching(f, n, s, cond, dest); }
    Then(f, w, m, n, 0x41, n');
  }

  lemma {:induction false} ThenCaller<W>(f: VM.Frame<W>, w: W, m: VM.Machine, n: VM.Machine, s: seq<u64>, key: u64)
      returns (n': VM.Machine)
    requires Leads(f, w, m, n) && Early(f, n, 0x67) && n.st == s + [key]
    ensures n' == On(n, 100, s).(bwork := n.bwork[key := f.ctx.callerAddr]) && Leads(f, w, m, n') == true
  {
    n' := On(n, 100, s).(bwork := n.bwork[key := f.ctx.callerAddr]);
    if Next(f, n, 0x67, 100) { Addresses(f, n, 0x67, s, key); }
    Then(f, w, m, n, 0x67, n');
  }

  lemma {:induction false} ThenCompare<W>(
      f: VM.Frame<W>, w: W, m: VM.Machine, n: VM.Machine, s: seq<u64>, a: u64, b: u64) returns (n': VM.Machine)
    requires Leads(f, w, m, n) && Early(f, n, 0x54) && n.st == s + [a, b]
    ensures n' == On(n, 20, s + [Flag(Blob(n, a) == Blob(n, b))]) && Leads(f, w, m, n') == true
  {
    n' := On(n, 20, s + [Flag(Blob(n, a) == Blob(n, b))]);
    if Next(f, n, 0x54, 20) { ComparingBytes(f, n, s, a, b); }
    Then(f, w, m, n, 0x54, n');
  }

  lemma {:induction false} ThenCopy<W>(
      f: VM.Frame<W>, w: W, m: VM.Machine, n: VM.Machine, s: seq<u64>, len: u64, off: u64, key: u64)
      returns (n': VM.Machine)
    requires Leads(f, w, m, n) && Early(f, n, 0x53) && n.st == s + [len, off, key]
    requires off + len <= |f.input| && VM.SliceSized(f.input)
    ensures n' == On(n, 100, s).(bwork := n.bwork[key := f.input[off..off + len]]) && Leads(f, w, m, n') == true
  {
    n' := On(n, 100, s).(bwork := n.bwork[key := f.input[off..off + len]]);
    if Next(f, n, 0x53, 100) { StoringBytes(f, n, s, len, off, key); }
    Then(f, w, m, n, 0x53, n');
  }

  /* ----- How its runs end ----- */

  /** The run fails, and nothing it called changed anything. */
  ghost predicate Refused<W>(f: VM.Frame<W>, w: W, m: VM.Machine)
  {
    VM.Run(f, w, m).Failure? && VM.Run(f, w, m).world == w
  }

  lemma {:induction false} ThenFail<W>(f: VM.Frame<W>, w: W, m: VM.Machine, n: VM.Machine, op: int, e: VM.Error)
    requires Leads(f, w, m, n) && Early(f, n, op) && (Next(f, n, op, Price(op)) ==> Stops(f, n, e))
    ensures Refused(f, w, m)
  {
    LeadsOn(f, w, m, n);
    if n.used + Price(op) <= f.gas {
      VmRuns.RunSteps(f, w, n, VM.Step(f, n));
    } else if n.used <= f.gas {
      DryAt(f, w, n, op);
    }
  }

  lemma {:induction false} ThenReturn<W>(f: VM.Frame<W>, w: W, m: VM.Machine, n: VM.Machine, s: seq<u64>, key: u64)
    requires Leads(f, w, m, n) && Early(f, n, 0x73) && n.st == s + [key]
    ensures if n.used + 1 <= f.gas then VM.Run(f, w, m) == VM.Success(On(n, 1, s), 0, Blob(n, key), w)
            else Refused(f, w, m)
  {
    LeadsOn(f, w, m, n);
    if n.used + 1 <= f.gas {
      Returning(f, n, 0x73, s, key);
      VmRuns.RunSteps(f, w, n, VM.Halt(On(n, 1, s), 0, Blob(n, key)));
    } else if n.used <= f.gas {
      DryAt(f, w, n, 0x73);
    }
  }

  /* ----- Its three functions ----- */

  /** A run of the token from its start. */
  ghost predicate Begins<W>(f: VM.Frame<W>, m: VM.Machine)
  {
    IsToken(f.code) && VM.SliceSized(f.input) && m.pc == 0 && m.st == [] && m.steps == 0 && m.used == 0
  }

  /** `n` is `m` further on: at `pc`, with nothing on the stack and nothing written. */
  ghost predicate Arrives(m: VM.Machine, n: VM.Machine, pc: nat, steps: nat, used: nat)
    requires used < 1000
  {
    n == m.(pc := pc, st := [], steps := steps, used := used, spent := n.spent)
  }

  lemma {:induction false} FirstTest<W>(f: VM.Frame<W>, w: W, m: VM.Machine) returns (n: VM.Machine)
    requires Begins(f, m)
    ensures Arrives(m, n, if Arg(f.input, 0) == 0 then 62 else 21, 5, 9) && Leads(f, w, m, n) == true
  {
    Starts(f, w, m);
    var m1 := ThenPush(f, w, m, m, 0);
    assert m1.st == [] + [0];
    var m2 := ThenArg(f, w, m, m1, [], 0);
    var m3 := ThenIsZero(f, w, m, m2, [], Arg(f.input, 0));
    var m4 := ThenPush(f, w, m, m3, 62);
    assert m4.st == [] + [Flag(Arg(f.input, 0) == 0), 62];
    n := ThenBranch(f, w, m, m4, [], Flag(Arg(f.input, 0) == 0), 62);
  }

  lemma {:induction false} SecondTest<W>(f: VM.Frame<W>, w: W, m: VM.Machine) returns (n: VM.Machine)
    requires Begins(f, m) && Arg(f.input, 0) != 0
    ensures Arrives(m, n, if Arg(f.input, 0) == 1 then 74 else 51, 11, 21) && Leads(f, w, m, n) == true
  {
    var m0 := FirstTest(f, w, m);
    var m1 := ThenPush(f, w, m, m0, 0);
    assert m1.st == [] + [0];
    var m2 := ThenArg(f, w, m, m1, [], 0);
    var m3 := ThenPush(f, w, m, m2, 1);
    assert m3.st == [] + [Arg(f.input, 0), 1];
    var m4 := ThenEquals(f, w, m, m3, [], Arg(f.input, 0), 1);
    var m5 := ThenPush(f, w, m, m4, 74);
    assert m5.st == [] + [Flag(Arg(f.input, 0) == 1), 74];
    n := ThenBranch(f, w, m, m5, [], Flag(Arg(f.input, 0) == 1), 74);
  }

  /** The token's id. */
  function Id(input: seq<byte>): (id: u64)
  {
    Arg(input, 1)
  }

  /** The bytes that end the run as seen from outside: what it wrote and what it returned. */
  ghost predicate Succeeds<W>(f: VM.Frame<W>, w: W, m: VM.Machine, bwork: map<u64, seq<byte>>, bytes: seq<byte>)
  {
    var o := VM.Run(f, w, m);
    && o.Success? && o.world == w && o.ret == 0 && o.retBytes == bytes
    && o.m.bwork == bwork && o.m.work == m.work && o.m.logs == m.logs
  }

  /** Selector 0 makes the caller the owner of the token. */
  lemma {:induction false} Mints<W>(f: VM.Frame<W>, w: W, m: VM.Machine)
    requires Begins(f, m) && Arg(f.input, 0) == 0
    ensures if f.gas >= 114 then Succeeds(f, w, m, m.bwork[Id(f.input) := f.ctx.callerAddr], [])
            else Refused(f, w, m)
  {
    var id := Id(f.input);
    var m0 := FirstTest(f, w, m);
    var m1 := ThenPush(f, w, m, m0, 1);
    assert m1.st == [] + [1];
    var m2 := ThenArg(f, w, m, m1, [], 1);
    var m3 := ThenCaller(f, w, m, m2, [], id);
    ThenStop(f, w, m, m3);
  }

  /** Any selector but 0 and 1 returns the owner, and writes nothing. */
  lemma {:induction false} Answers<W>(f: VM.Frame<W>, w: W, m: VM.Machine)
    requires Begins(f, m) && Arg(f.input, 0) > 1
    ensures if f.gas >= 26 then Succeeds(f, w, m, m.bwork, Blob(m, Id(f.input))) else Refused(f, w, m)
  {
    var id := Id(f.input);
    var m0 := SecondTest(f, w, m);
    var m1 := ThenPush(f, w, m, m0, 1);
    assert m1.st == [] + [1];
    var m2 := ThenArg(f, w, m, m1, [], 1);
    ThenReturn(f, w, m, m2, [], id);
  }

  /** The transfer's check sees the caller as the owner: he is, or the id is that of the scratch key, under
      which the contract has just written the caller. */
  ghost predicate Owns<W>(f: VM.Frame<W>, m: VM.Machine)
  {
    Id(f.input) == SCRATCH || Blob(m, Id(f.input)) == f.ctx.callerAddr
  }

  lemma {:induction false} ChecksOwner<W>(f: VM.Frame<W>, w: W, m: VM.Machine) returns (n: VM.Machine)
    requires Begins(f, m) && Arg(f.input, 0) == 1
    ensures n == m.(pc := if Owns(f, m) then 115 else 145, st := [], steps := 20, used := 156, spent := n.spent,
                    bwork := m.bwork[SCRATCH := f.ctx.callerAddr])
    ensures Leads(f, w, m, n) == true
  {
    var id := Id(f.input);
    var m0 := SecondTest(f, w, m);
    var m1 := ThenPush(f, w, m, m0, SCRATCH);
    assert m1.st == [] + [SCRATCH];
    var m2 := ThenCaller(f, w, m, m1, [], SCRATCH);
    var m3 := ThenPush(f, w, m, m2, 1);
    assert m3.st == [] + [1];
    var m4 := ThenArg(f, w, m, m3, [], 1);
    var m5 := ThenPush(f, w, m, m4, SCRATCH);
    assert m5.st == [] + [id, SCRATCH];
    var m6 := ThenCompare(f, w, m, m5, [], id, SCRATCH);
    assert Blob(m5, SCRATCH) == f.ctx.callerAddr;
    assert Flag(Blob(m5, id) == Blob(m5, SCRATCH)) == Flag(Owns(f, m));
    n := JumpsUnless(f, w, m, m6, Owns(f, m));
  }

  lemma {:induction false} JumpsUnless<W>(f: VM.Frame<W>, w: W, m: VM.Machine, n: VM.Machine, c: bool)
      returns (n': VM.Machine)
    requires Leads(f, w, m, n) && IsToken(f.code) && n.pc == 104 && n.st == [] + [Flag(c)] && n.steps < 50
             && n.used < 1000
    ensures n' == n.(pc := if c then 115 else 145, st := [], steps := n.steps + 3, used := n.used + 5,
                     spent := n.spent + 5)
    ensures Leads(f, w, m, n') == true
  {
    var m1 := ThenIsZero(f, w, m, n, [], Flag(c));
    var m2 := ThenPush(f, w, m, m1, 145);
    assert m2.st == [] + [Flag(!c), 145];
    n' := ThenBranch(f, w, m, m2, [], Flag(!c), 145);
  }

  /** A transfer by someone else fails, whatever the gas and the rest of the calldata. */
  lemma {:induction false} DeniesOthers<W>(f: VM.Frame<W>, w: W, m: VM.Machine)
    requires Begins(f, m) && Arg(f.input, 0) == 1 && !Owns(f, m)
    ensures Refused(f, w, m)
  {
    var m0 := ChecksOwner(f, w, m);
    var m1 := ThenPush(f, w, m, m0, 1);
    var m2 := ThenPush(f, w, m, m1, 0);
    assert m2.st == [] + [1, 0];
    if Next(f, m2, 0x13, 1) { Division(f, m2, 0x13, [], 1, 0); }
    ThenFail(f, w, m, m2, 0x13, VM.DivZero);
  }

  /** The owner's transfer stores the 42 bytes after the two words, if they are all there. */
  lemma {:induction false} Transfers<W>(f: VM.Frame<W>, w: W, m: VM.Machine)
    requires Begins(f, m) && Arg(f.input, 0) == 1 && Owns(f, m)
    ensures if f.gas >= 267 && |f.input| >= 58
            then Succeeds(f, w, m, m.bwork[SCRATCH := f.ctx.callerAddr][Id(f.input) := f.input[16..58]], [])
            else Refused(f, w, m)
  {
    var id := Id(f.input);
    var m0 := ChecksOwner(f, w, m);
    var m1 := ThenPush(f, w, m, m0, 42);
    var m2 := ThenPush(f, w, m, m1, 16);
    var m3 := ThenPush(f, w, m, m2, 1);
    assert m3.st == [42, 16] + [1];
    var m4 := ThenArg(f, w, m, m3, [42, 16], 1);
    assert m4.st == [] + [42, 16, id];
    CopiesAndStops(f, w, m, m4, id);
  }

  lemma {:induction false} CopiesAndStops<W>(f: VM.Frame<W>, w: W, m: VM.Machine, n: VM.Machine, id: u64)
    requires Leads(f, w, m, n) && IsToken(f.code) && VM.SliceSized(f.input) && n.pc == 143 && n.st == [] + [42, 16, id]
             && n.steps < 50 && n.used == 166 && n.work == m.work && n.logs == m.logs
    ensures if f.gas >= 267 && |f.input| >= 58 then Succeeds(f, w, m, n.bwork[id := f.input[16..58]], [])
            else Refused(f, w, m)
  {
    if |f.input| >= 58 {
      var n1 := ThenCopy(f, w, m, n, [], 42, 16, id);
      ThenStop(f, w, m, n1);
    } else {
      if Next(f, n, 0x53, 100) { StoringBytes(f, n, [], 42, 16, id); }
      ThenFail(f, w, m, n, 0x53, VM.BadCode);
    }
  }

  /** A transfer hands the token on if the caller passes the check, the gas is 267 or more and a whole address is
      there; else the run fails, and nothing it called changed anything. */
  ghost predicate HandsOn<W>(f: VM.Frame<W>, w: W, m: VM.Machine, o: VM.Outcome<W>)
  {
    if Owns(f, m) && f.gas >= 267 && |f.input| >= 58 then
      && o.Success? && o.world == w && o.m.work == m.work && o.m.logs == m.logs
      && o.m.bwork == m.bwork[SCRATCH := f.ctx.callerAddr][Id(f.input) := f.input[16..58]]
    else o.Failure? && o.world == w
  }

  lemma {:induction false} TransferEnds<W>(f: VM.Frame<W>, w: W, m: VM.Machine)
    requires Begins(f, m) && Arg(f.input, 0) == 1
    ensures HandsOn(f, w, m, VM.Run(f, w, m))
  {
    if Owns(f, m) { Transfers(f, w, m); } else { DeniesOthers(f, w, m); }
  }
}
