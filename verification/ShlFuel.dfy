/**
 Runs of compiled code, instruction by instruction: they stay on instruction boundaries, and the estimate
 is enough gas.
 */
module ShlFuel {
  import opened Words
  import opened Shl
  import opened ShlLayout
  import opened ShlProgram
  import opened CodeWalk
  import opened ShlGas
  import opened ShlBound
  import ShlJumps
  import VM

  /* ----- Code that is one piece ----- */

  ghost predicate Closed(code: seq<byte>, forward: bool)
  {
    0 < |code| < TWO63 && Piece(code, forward, 0, |code| - 1, {}) && code[|code| - 1] == VM.STOP
  }

  lemma {:induction false} AtBoundary(code: seq<byte>, forward: bool, p: nat)
    requires Closed(code, forward) && Boundary(code, p) && p < |code|
    ensures p == |code| - 1 || Fits(code, forward, 0, |code| - 1, {}, p)
    ensures Boundary(code, Next(code, p)) && (p < |code| - 1 ==> Next(code, p) < |code|)
  {
    assert Reaches(code, p, Next(code, p));
    ReachesInTurn(code, 0, p, Next(code, p));
    if p < |code| - 1 { NothingBetween(code, 0, p, |code| - 1); }
  }

  /** What comes after an instruction that pushes nothing needs no operand. */
  lemma {:induction false} AfterPlain(code: seq<byte>, forward: bool, p: nat)
    requires Closed(code, forward) && Boundary(code, p) && p < |code| - 1 && code[p] != VM.PUSH
    ensures p + 1 < |code| && Boundary(code, p + 1) && !Carried(code, p + 1)
  {
    AtBoundary(code, forward, p);
    if Carried(code, p + 1) {
      AtBoundary(code, forward, p + 1);
      if p > p - 8 { NothingBetween(code, 0, p - 8, p); }
    }
  }

  lemma {:induction false} AfterPush(code: seq<byte>, forward: bool, p: nat)
    requires Closed(code, forward) && Boundary(code, p) && p < |code| && code[p] == VM.PUSH
    ensures p + 9 < |code| && Boundary(code, p + 9) && Operand(code, p + 9) == BytesU64(code[p + 1..p + 9])
  {
    AtBoundary(code, forward, p);
  }

  /* ----- The estimate, from any instruction on ----- */

  function Price(code: seq<byte>, p: nat): (g: nat)
    requires p < |code|
  {
    if code[p] == VM.PUSH then 3 else OpEstimate(code[p], Some(Operand(code, p)))
  }

  function Left(code: seq<byte>, p: nat): (g: nat)
    decreases |code| - p
  {
    if p >= |code| then 0 else Price(code, p) + Left(code, Next(code, p))
  }

  lemma {:induction false} LeftFalls(code: seq<byte>, a: nat, b: nat)
    requires Reaches(code, a, b)
    ensures Left(code, b) <= Left(code, a)
    decreases |code| - a
  {
    if a != b { LeftFalls(code, Next(code, a), b); }
  }

  lemma {:induction false} ScanIsLeft(code: seq<byte>, p: nat, t: nat, last: Option<u64>)
    requires Closed(code, false) && Boundary(code, p)
    requires p < |code| && code[p] == VM.LOG ==> last == Some(Operand(code, p))
    ensures Scan(code, p, t, last) == t + Left(code, p)
    decreases |code| - p
  {
    if p < |code| {
      if code[p] == VM.PUSH {
        AfterPush(code, false, p);
        ScanIsLeft(code, p + 9, t + 3, Some(BytesU64(code[p + 1..p + 9])));
      } else {
        AtBoundary(code, false, p);
        if p < |code| - 1 { AfterPlain(code, false, p); }
        ScanIsLeft(code, p + 1, t + OpEstimate(code[p], last), None);
      }
    }
  }

  /* ----- One instruction ----- */

  lemma PlainDispatch<W>(f: VM.Frame<W>, op: byte, m: VM.Machine)
    requires ShlJumps.Plain(op)
    ensures var r := VM.Dispatch(f, op, m);
            && !r.Invoke? && (r.Abort? ==> r.err != VM.OutOfGas)
            && (r.Next? ==> r.m.pc == m.pc && r.m.used == m.used && op != VM.STOP)
  {
  }

  lemma PushDispatch<W>(f: VM.Frame<W>, m: VM.Machine)
    ensures var r := VM.Dispatch(f, VM.PUSH, m);
            && !r.Invoke? && (r.Abort? ==> r.err != VM.OutOfGas)
            && (r.Next? ==> 0 <= m.pc && m.pc + 8 <= |f.code| && r.m.pc == m.pc + 8 && r.m.used == m.used
                            && r.m.st == m.st + [BytesU64(f.code[m.pc..m.pc + 8])])
  {
  }

  lemma JumpDispatch<W>(f: VM.Frame<W>, op: byte, m: VM.Machine, target: u64)
    requires op == VM.JUMP || op == VM.JUMPI
    requires m.st != [] && m.st[|m.st| - 1] == target && target < TWO63
    ensures var r := VM.Dispatch(f, op, m);
            && !r.Invoke? && (r.Abort? ==> r.err != VM.OutOfGas)
            && (r.Next? ==> (r.m.pc == target || r.m.pc == m.pc) && r.m.used == m.used)
  {
  }

  lemma LogDispatch<W>(f: VM.Frame<W>, m: VM.Machine, n: u64)
    requires m.st != [] && m.st[|m.st| - 1] == n
    ensures var r := VM.Dispatch(f, VM.LOG, m);
            && !r.Invoke? && (r.Abort? && m.used + 8 * n <= f.gas ==> r.err != VM.OutOfGas)
            && (r.Next? ==> r.m.pc == m.pc && r.m.used == Wrap(m.used + 8 * n))
  {
  }

  /* ----- Runs ----- */

  /** The next instruction is one of the program's, and if it needs an operand, that is on top of the stack. */
  ghost predicate OnTrack<W>(f: VM.Frame<W>, m: VM.Machine)
  {
    0 <= m.pc < |f.code| && Boundary(f.code, m.pc)
    && (Carried(f.code, m.pc) ==> m.st != [] && m.st[|m.st| - 1] == Operand(f.code, m.pc))
  }

  /** Where an instruction can lead, and what it takes. */
  ghost predicate Follows<W>(f: VM.Frame<W>, forward: bool, m: VM.Machine, r: VM.StepResult)
    requires 0 <= m.pc < |f.code|
  {
    && !r.Invoke?
    && (r.Abort? && m.used + Price(f.code, m.pc) <= f.gas ==> r.err != VM.OutOfGas)
    && (r.Next? ==> OnTrack(f, r.m) && r.m.used == Wrap(m.used + Price(f.code, m.pc))
                    && (forward ==> Reaches(f.code, Next(f.code, m.pc), r.m.pc)))
  }

  lemma {:induction false} StepFollows<W>(f: VM.Frame<W>, forward: bool, m: VM.Machine)
    requires Closed(f.code, forward) && OnTrack(f, m)
    ensures Follows(f, forward, m, VM.Step(f, m))
  {
    var op := f.code[m.pc];
    AtBoundary(f.code, forward, m.pc);
    if op == VM.PUSH {
      FollowsPush(f, forward, m);
    } else if op == VM.JUMP || op == VM.JUMPI {
      FollowsJump(f, forward, m);
    } else if op == VM.LOG {
      FollowsLog(f, forward, m);
    } else {
      FollowsPlain(f, forward, m);
    }
  }

  lemma {:induction false} FollowsPush<W>(f: VM.Frame<W>, forward: bool, m: VM.Machine)
    requires Closed(f.code, forward) && OnTrack(f, m) && f.code[m.pc] == VM.PUSH
    ensures Follows(f, forward, m, VM.Step(f, m))
  {
    AfterPush(f.code, forward, m.pc);
    PushDispatch(f, VM.Charge(m, VM.PUSH));
    assert Reaches(f.code, m.pc + 9, m.pc + 9);
  }

  lemma {:induction false} FollowsJump<W>(f: VM.Frame<W>, forward: bool, m: VM.Machine)
    requires Closed(f.code, forward) && OnTrack(f, m) && Jumps(f.code, m.pc)
    ensures Follows(f, forward, m, VM.Step(f, m))
  {
    var op, t := f.code[m.pc], Operand(f.code, m.pc);
    WhereJumpsGo(f.code, forward, m.pc, t);
    JumpDispatch(f, op, VM.Charge(m, op), t);
    JumpFollows(f, forward, m, t, VM.Step(f, m));
  }

  lemma {:induction false} WhereJumpsGo(code: seq<byte>, forward: bool, p: nat, t: u64)
    requires Closed(code, forward) && Boundary(code, p) && Jumps(code, p) && t == Operand(code, p)
    ensures t < |code| && Boundary(code, t) && !Carried(code, t) && (forward ==> Reaches(code, p + 1, t))
    ensures p + 1 < |code| && Boundary(code, p + 1) && !Carried(code, p + 1) && Reaches(code, p + 1, p + 1)
  {
    ShlJumps.JumpOfPiece(code, forward, p);
    AfterPlain(code, forward, p);
    if forward { ReachesThrough(code, 0, p + 1, t); }
  }

  lemma {:induction false} JumpFollows<W>(f: VM.Frame<W>, forward: bool, m: VM.Machine, t: u64, r: VM.StepResult)
    requires 0 <= m.pc && Jumps(f.code, m.pc) && !r.Invoke?
    requires r.Abort? && m.used + 1 <= f.gas ==> r.err != VM.OutOfGas
    requires r.Next? ==> (r.m.pc == t || r.m.pc == m.pc + 1) && r.m.used == Wrap(m.used + 1)
    requires t < |f.code| && Boundary(f.code, t) && !Carried(f.code, t) && (forward ==> Reaches(f.code, m.pc + 1, t))
    requires m.pc + 1 < |f.code| && Boundary(f.code, m.pc + 1) && !Carried(f.code, m.pc + 1)
             && Reaches(f.code, m.pc + 1, m.pc + 1)
    ensures Follows(f, forward, m, r)
  {
  }

  lemma {:induction false} FollowsLog<W>(f: VM.Frame<W>, forward: bool, m: VM.Machine)
    requires Closed(f.code, forward) && OnTrack(f, m) && f.code[m.pc] == VM.LOG
    ensures Follows(f, forward, m, VM.Step(f, m))
  {
    var n := Operand(f.code, m.pc);
    AtBoundary(f.code, forward, m.pc);
    AfterPlain(f.code, forward, m.pc);
    assert Reaches(f.code, m.pc + 1, m.pc + 1);
    LogStep(f, m, n);
    LogFollows(f, forward, m, n, VM.Step(f, m));
  }

  /** A step at LOG is its dispatch, once it is paid for. */
  lemma StepsAtLog<W>(f: VM.Frame<W>, m: VM.Machine, c: VM.Machine)
    requires 0 <= m.pc < |f.code| && f.code[m.pc] == VM.LOG && c == VM.Charge(m, VM.LOG)
    ensures VM.Step(f, m) == if m.steps + 1 > VM.MAX_STEPS then VM.Abort(VM.StepLimit, m.spent)
                             else if c.used > f.gas then VM.Abort(VM.OutOfGas, m.spent)
                             else VM.Dispatch(f, VM.LOG, c)
  {
  }

  /** Charging 50, then eight a topic. */
  lemma LogCharges(used: u64, n: u64, gas: u64)
    ensures Wrap(Wrap(used + 50) + 8 * n) == Wrap(used + 50 + 8 * n)
    ensures used + 50 + 8 * n <= gas ==> Wrap(used + 50) + 8 * n <= gas && Wrap(used + 50) <= gas
  {
    WrapAdds(used + 50, 8 * n, 0);
  }

  lemma LogEnds<W>(f: VM.Frame<W>, m: VM.Machine, c: VM.Machine, n: u64, r: VM.StepResult, d: VM.StepResult)
    requires r == (if m.steps + 1 > VM.MAX_STEPS then VM.Abort(VM.StepLimit, m.spent)
                   else if c.used > f.gas then VM.Abort(VM.OutOfGas, m.spent) else d)
    requires c.used == Wrap(m.used + 50) && c.pc == m.pc + 1
    requires !d.Invoke? && (d.Abort? && c.used + 8 * n <= f.gas ==> d.err != VM.OutOfGas)
    requires d.Next? ==> d.m.pc == c.pc && d.m.used == Wrap(c.used + 8 * n)
    ensures !r.Invoke? && (r.Abort? && m.used + 50 + 8 * n <= f.gas ==> r.err != VM.OutOfGas)
    ensures r.Next? ==> r.m.pc == m.pc + 1 && r.m.used == Wrap(m.used + 50 + 8 * n)
  {
    LogCharges(m.used, n, f.gas);
  }

  lemma LogStep<W>(f: VM.Frame<W>, m: VM.Machine, n: u64)
    requires 0 <= m.pc < |f.code| && f.code[m.pc] == VM.LOG && m.st != [] && m.st[|m.st| - 1] == n
    ensures var r := VM.Step(f, m);
            && !r.Invoke? && (r.Abort? && m.used + 50 + 8 * n <= f.gas ==> r.err != VM.OutOfGas)
            && (r.Next? ==> r.m.pc == m.pc + 1 && r.m.used == Wrap(m.used + 50 + 8 * n))
  {
    var c := VM.Charge(m, VM.LOG);
    LogDispatch(f, c, n);
    StepsAtLog(f, m, c);
    LogEnds(f, m, c, n, VM.Step(f, m), VM.Dispatch(f, VM.LOG, c));
  }

  lemma {:induction false} LogFollows<W>(f: VM.Frame<W>, forward: bool, m: VM.Machine, n: u64, r: VM.StepResult)
    requires 0 <= m.pc < |f.code| && f.code[m.pc] == VM.LOG && n == Operand(f.code, m.pc) && !r.Invoke?
    requires r.Abort? && m.used + 50 + 8 * n <= f.gas ==> r.err != VM.OutOfGas
    requires r.Next? ==> r.m.pc == m.pc + 1 && r.m.used == Wrap(m.used + 50 + 8 * n)
    requires m.pc + 1 < |f.code| && Boundary(f.code, m.pc + 1) && !Carried(f.code, m.pc + 1)
             && Reaches(f.code, m.pc + 1, m.pc + 1)
    ensures Follows(f, forward, m, r)
  {
    assert Price(f.code, m.pc) == 50 + 8 * n;
  }

  lemma {:induction false} FollowsPlain<W>(f: VM.Frame<W>, forward: bool, m: VM.Machine)
    requires Closed(f.code, forward) && OnTrack(f, m) && f.code[m.pc] != VM.PUSH && !Carried(f.code, m.pc)
    ensures Follows(f, forward, m, VM.Step(f, m))
  {
    var op := f.code[m.pc];
    AtBoundary(f.code, forward, m.pc);
    if m.pc < |f.code| - 1 { AfterPlain(f.code, forward, m.pc); }
    PlainDispatch(f, op, VM.Charge(m, op));
    assert Reaches(f.code, m.pc + 1, m.pc + 1);
  }

  /** With enough gas for what is left of the code, a run that only goes forward never runs out. */
  lemma {:induction false} NeverOutOfGas<W>(f: VM.Frame<W>, w: W, m: VM.Machine)
    requires Closed(f.code, true) && OnTrack(f, m) && m.used + Left(f.code, m.pc) <= f.gas
    ensures var o := VM.Run(f, w, m); o.Failure? ==> o.err != VM.OutOfGas
    decreases VM.MAX_STEPS - m.steps
  {
    VM.StepCounts(f, m);
    StepFollows(f, true, m);
    var r := VM.Step(f, m);
    if r.Next? {
      LeftFalls(f.code, Next(f.code, m.pc), r.m.pc);
      NeverOutOfGas(f, w, r.m);
    }
  }

  /** The machines a run without calls goes through. */
  ghost predicate Trace<W>(f: VM.Frame<W>, ms: seq<VM.Machine>)
  {
    forall i :: 0 <= i < |ms| - 1 ==> ms[i].pc < |f.code| && VM.Step(f, ms[i]) == VM.Next(ms[i + 1])
  }

  /** Every instruction a run of compiled code executes is one of the program's. */
  lemma {:induction false} RunsStayOnTrack<W>(f: VM.Frame<W>, items: seq<Item>, ms: seq<VM.Machine>, i: nat)
    requires ProgramAt(f.code, f.digest, items) == true && |f.code| < TWO63
    requires Trace(f, ms) && i < |ms| && ms[0].pc == 0
    ensures OnTrack(f, ms[i])
  {
    ShlJumps.ProgramIsPiece(f.code, f.digest, items, false);
    if i == 0 {
      StartsOnTrack(f, false, ms[0]);
    } else {
      RunsStayOnTrack(f, items, ms, i - 1);
      StepFollows(f, false, ms[i - 1]);
      assert VM.Step(f, ms[i - 1]) == VM.Next(ms[i - 1 + 1]);
    }
  }

  lemma {:induction false} StartsOnTrack<W>(f: VM.Frame<W>, forward: bool, m: VM.Machine)
    requires Closed(f.code, forward) && m.pc == 0
    ensures OnTrack(f, m)
  {
    assert Reaches(f.code, 0, 0);
    AtBoundary(f.code, forward, 0);
  }

  /** A program without loops, given at least the estimate, never runs out of gas, however it ends. */
  lemma {:induction false} EstimateSuffices<W>(f: VM.Frame<W>, w: W, items: seq<Item>, store: map<u64, u64>,
      blobs: map<u64, seq<byte>>)
    requires ProgramAt(f.code, f.digest, items) == true && |f.code| < MAX_CODE && ProgramLoopFree(items) == true
    requires Wrap(Scan(f.code, 0, 0, None)) <= f.gas
    ensures var o := VM.Run(f, w, VM.Start(store, blobs)); o.Failure? ==> o.err != VM.OutOfGas
  {
    EstimateBoundsRuns(f, w, items, store, blobs);
    ShlJumps.ProgramIsPiece(f.code, f.digest, items, false);
    ShlJumps.ProgramIsPiece(f.code, f.digest, items, true);
    var m := VM.Start(store, blobs);
    StartsOnTrack(f, true, m);
    ScanIsLeft(f.code, 0, 0, None);
    NeverOutOfGas(f, w, m);
  }

  /** The bound is not always met: `return v` leaves the STOP after it unpaid. */
  lemma {:induction false} ReturnTakesLess<W>(f: VM.Frame<W>, w: W, v: u64, store: map<u64, u64>, blobs: map<u64,
      seq<byte>>)
    requires ProgramAt(f.code, f.digest, [StmtItem(Return(Num(v)))]) == true && |f.code| < MAX_CODE && 5 <= f.gas
    ensures Scan(f.code, 0, 0, None) == 5
    ensures var o := VM.Run(f, w, VM.Start(store, blobs)); o.Success? && o.ret == v && o.m.used == 4
  {
    var items := [StmtItem(Return(Num(v)))];
    EstimateOfProgram(f.code, f.digest, items);
    ReturnIsThere(f.code, f.digest, items, v);
    RunsReturn(f, w, VM.Start(store, blobs), v);
  }

  lemma {:induction false} RunsReturn<W>(f: VM.Frame<W>, w: W, m: VM.Machine, v: u64)
    requires m.pc == 0 && m.st == [] && m.used == 0 && m.steps == 0 && 5 <= f.gas
    requires |f.code| == 11 && f.code[0] == VM.PUSH && BytesU64(f.code[1..9]) == v && f.code[9] == VM.RETURN
    ensures var o := VM.Run(f, w, m); o.Success? && o.ret == v && o.m.used == 4
  {
    PushDispatch(f, VM.Charge(m, VM.PUSH));
    var m1 := m.(pc := 9, st := m.st + [v], used := 3, steps := 1, spent := m.spent + 3);
    PushSteps(f, m, m1, v);
    assert m1.st == [v];
    ReturnSteps(f, m1, v);
    var m2 := VM.Charge(m1, VM.RETURN).(st := []);
    HaltsAfterOne(f, w, m, m1, m2, v);
  }

  lemma PushSteps<W>(f: VM.Frame<W>, m: VM.Machine, m1: VM.Machine, v: u64)
    requires m.pc == 0 && m.st == [] && m.used == 0 && m.steps == 0 && 5 <= f.gas
    requires |f.code| == 11 && f.code[0] == VM.PUSH && BytesU64(f.code[1..9]) == v
    requires m1 == m.(pc := 9, st := m.st + [v], used := 3, steps := 1, spent := m.spent + 3)
    ensures VM.Step(f, m) == VM.Next(m1)
  {
  }

  lemma ReturnSteps<W>(f: VM.Frame<W>, m: VM.Machine, v: u64)
    requires m.pc == 9 && m.st == [v] && m.used == 3 && m.steps == 1 && 5 <= f.gas && |f.code| == 11
             && f.code[9] == VM.RETURN
    ensures VM.Step(f, m) == VM.Halt(VM.Charge(m, VM.RETURN).(st := []), v, [])
  {
    assert m.st[..0] == [];
  }

  lemma {:induction false} HaltsAfterOne<W>(f: VM.Frame<W>, w: W, m: VM.Machine, m1: VM.Machine, m2: VM.Machine, v: u64)
    requires m.pc < |f.code| && VM.Step(f, m) == VM.Next(m1) && m1.pc < |f.code| && VM.Step(f, m1) == VM.Halt(m2, v, [])
    ensures VM.Run(f, w, m) == VM.Success(m2, v, [], w)
  {
  }

  lemma {:induction false} ReturnIsThere(code: seq<byte>, digest: seq<byte> -> u64, items: seq<Item>, v: u64)
    requires items == [StmtItem(Return(Num(v)))] && ProgramAt(code, digest, items)
    ensures |code| == 11 && code[0] == VM.PUSH && BytesU64(code[1..9]) == v && code[9] == VM.RETURN
            && ProgramGas(items) == 5
  {
    assert Statements(items) == [Return(Num(v))] && Functions(items) == [];
    var img, sc := ImageOf(code), DeclareAll(EMPTY_SCOPE, items);
    assert StmtAt(img, 0, Return(Num(v)), sc);
    assert PushAt(img, 0, v) && OpAt(img, 9, VM.RETURN);
    assert StmtsGas([Return(Num(v))]) == 4 && StmtsSize([Return(Num(v))]) == 10;
  }
}
