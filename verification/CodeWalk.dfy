/** Bytecode instruction by instruction: where instructions start, and stretches of code closed under their jumps. */
module CodeWalk {
  import opened Words
  import VM

  /* ----- Instruction boundaries ----- */

  /** A PUSH carries eight bytes. */
  function Next(code: seq<byte>, i: nat): (j: nat)
    requires i < |code|
  {
    if code[i] == VM.PUSH then i + 9 else i + 1
  }

  /** Instruction by instruction from `i`, one comes to `p`. */
  ghost predicate Reaches(code: seq<byte>, i: nat, p: nat)
    decreases |code| - i
  {
    i == p || (i < |code| && i < p && Reaches(code, Next(code, i), p))
  }

  /** An instruction starts at `p`, or the code ends there. */
  ghost predicate Boundary(code: seq<byte>, p: nat)
  {
    Reaches(code, 0, p)
  }

  lemma {:induction false} ReachesInTurn(code: seq<byte>, a: nat, b: nat, c: nat)
    requires Reaches(code, a, b) && Reaches(code, b, c)
    ensures Reaches(code, a, c) && a <= b <= c
    decreases |code| - a
  {
    if b < c { ReachesUp(code, b, c); }
    if a != b { ReachesInTurn(code, Next(code, a), b, c); }
  }

  lemma {:induction false} ReachesUp(code: seq<byte>, a: nat, b: nat)
    requires Reaches(code, a, b)
    ensures a <= b
  {
  }

  lemma {:induction false} ReachesThrough(code: seq<byte>, a: nat, b: nat, c: nat)
    requires Reaches(code, a, b) && Reaches(code, a, c) && b <= c
    ensures Reaches(code, b, c)
    decreases |code| - a
  {
    if a != b { ReachesThrough(code, Next(code, a), b, c); }
  }

  /** There is nothing between an instruction and the next. */
  lemma {:induction false} NothingBetween(code: seq<byte>, a: nat, p: nat, q: nat)
    requires Reaches(code, a, p) && Reaches(code, a, q) && p < |code| && p < q
    ensures Next(code, p) <= q
  {
    ReachesThrough(code, a, p, q);
    ReachesUp(code, Next(code, p), q);
  }

  /* ----- Instructions that follow their own PUSH ----- */

  ghost predicate Jumps(code: seq<byte>, q: nat)
  {
    q < |code| && (code[q] == VM.JUMP || code[q] == VM.JUMPI)
  }

  ghost predicate Carried(code: seq<byte>, q: nat)
  {
    Jumps(code, q) || (q < |code| && code[q] == VM.LOG)
  }

  /** The word of the eight bytes before `q`. */
  function Operand(code: seq<byte>, q: nat): (v: u64)
  {
    if 8 <= q <= |code| then BytesU64(code[q - 8..q]) else 0
  }

  /** Right before `q` the operand is pushed. */
  ghost predicate HasOperand(code: seq<byte>, lo: nat, q: nat)
  {
    lo + 9 <= q <= |code| && Reaches(code, lo, q - 9) && code[q - 9] == VM.PUSH
  }

  /** Opcodes whose cost the estimate does not know, and the call out. */
  predicate Foreign(op: byte)
  {
    op == VM.BSTORE || op == VM.CALLERB || op == VM.SELFB || op == VM.BEQ || op == VM.BHASH || op == VM.CALL
  }

  /* ----- Pieces of code ----- */

  /** An instruction of the piece, or its end, and none that is parted from its operand by landing here. */
  ghost predicate Entry(code: seq<byte>, lo: nat, hi: nat, t: nat)
  {
    lo <= t <= hi && Reaches(code, lo, t) && (t < hi ==> !Carried(code, t))
  }

  ghost predicate Fits(code: seq<byte>, forward: bool, lo: nat, hi: nat, exits: set<int>, q: nat)
  {
    q < |code| && !Foreign(code[q]) && (Carried(code, q) ==> HasOperand(code, lo, q))
    && (Jumps(code, q) ==>
          (Operand(code, q) in exits || Entry(code, lo, hi, Operand(code, q))) && (forward ==> q < Operand(code, q)))
  }

  /**
   Code from `lo` to `hi`: each jump and LOG is preceded by its operand, and each jump goes to an
   instruction of the piece or to one of `exits`; if `forward`, never back.
   */
  ghost predicate Piece(code: seq<byte>, forward: bool, lo: int, hi: int, exits: set<int>)
  {
    0 <= lo <= hi <= |code| && Reaches(code, lo, hi)
    && forall q: nat {:trigger Fits(code, forward, lo, hi, exits, q)} ::
         lo <= q < hi && Reaches(code, lo, q) ==> Fits(code, forward, lo, hi, exits, q)
  }

  lemma {:induction false} StartIsPlain(code: seq<byte>, forward: bool, lo: int, hi: int, exits: set<int>)
    requires Piece(code, forward, lo, hi, exits) && lo < hi
    ensures !Carried(code, lo)
  {
    assert Fits(code, forward, lo, hi, exits, lo);
  }

  lemma {:induction false} EntryStays(code: seq<byte>, forward: bool, a: int, b: int, c: int, exits: set<int>, t: nat)
    requires 0 <= a && 0 <= b && Entry(code, a, b, t) && Piece(code, forward, b, c, exits)
    ensures Entry(code, a, c, t)
  {
    if t == b < c { StartIsPlain(code, forward, b, c, exits); }
  }

  lemma {:induction false} EntryLifts(code: seq<byte>, a: int, b: int, c: int, t: nat)
    requires 0 <= a <= b <= c && Reaches(code, a, b) && Entry(code, b, c, t)
    ensures Entry(code, a, c, t)
  {
    ReachesInTurn(code, a, b, t);
  }

  lemma {:induction false} Join(code: seq<byte>, forward: bool, a: int, b: int, c: int, xs: set<int>, ys: set<int>)
    requires Piece(code, forward, a, b, xs) && Piece(code, forward, b, c, ys)
    ensures Piece(code, forward, a, c, xs + ys)
  {
    ReachesInTurn(code, a, b, c);
    forall q: nat | a <= q < c && Reaches(code, a, q) ensures Fits(code, forward, a, c, xs + ys, q) {
      if q < b {
        assert Fits(code, forward, a, b, xs, q);
        if Jumps(code, q) && Operand(code, q) !in xs { EntryStays(code, forward, a, b, c, ys, Operand(code, q)); }
      } else {
        ReachesThrough(code, a, b, q);
        assert Fits(code, forward, b, c, ys, q);
        if Carried(code, q) { ReachesInTurn(code, a, b, q - 9); }
        if Jumps(code, q) && Operand(code, q) !in ys { EntryLifts(code, a, b, c, Operand(code, q)); }
      }
    }
  }

  /** Exits that turn out to be entries. */
  lemma {:induction false} Close(code: seq<byte>, forward: bool, lo: int, hi: int, exits: set<int>)
    requires Piece(code, forward, lo, hi, exits) && forall t :: t in exits ==> t >= 0 && Entry(code, lo, hi, t)
    ensures Piece(code, forward, lo, hi, {})
  {
    forall q: nat | lo <= q < hi && Reaches(code, lo, q) ensures Fits(code, forward, lo, hi, {}, q) {
      assert Fits(code, forward, lo, hi, exits, q);
    }
  }

  lemma {:induction false} Nothing(code: seq<byte>, forward: bool, p: nat)
    requires p <= |code|
    ensures Piece(code, forward, p, p, {})
  {
  }

  lemma {:induction false} PlainPiece(code: seq<byte>, forward: bool, p: nat)
    requires p < |code| && code[p] != VM.PUSH && !Carried(code, p) && !Foreign(code[p])
    ensures Piece(code, forward, p, p + 1, {})
  {
    assert Reaches(code, p + 1, p + 1);
    forall q: nat | p <= q < p + 1 && Reaches(code, p, q) ensures Fits(code, forward, p, p + 1, {}, q) { }
  }

  lemma {:induction false} PushPiece(code: seq<byte>, forward: bool, p: nat)
    requires p + 9 <= |code| && code[p] == VM.PUSH
    ensures Piece(code, forward, p, p + 9, {})
  {
    assert Reaches(code, p + 9, p + 9);
    forall q: nat | p <= q < p + 9 && Reaches(code, p, q) ensures Fits(code, forward, p, p + 9, {}, q) {
      if p < q { NothingBetween(code, p, p, q); }
    }
  }

  /** A PUSH and the jump or LOG that takes its word. */
  lemma {:induction false} CarriedPiece(code: seq<byte>, forward: bool, p: nat, exits: set<int>)
    requires p + 10 <= |code| && code[p] == VM.PUSH && Carried(code, p + 9)
    requires Jumps(code, p + 9) ==> Operand(code, p + 9) in exits && (forward ==> p + 9 < Operand(code, p + 9))
    ensures Piece(code, forward, p, p + 10, exits)
  {
    assert Reaches(code, p + 9, p + 9) && Reaches(code, p + 9, p + 10);
    forall q: nat | p <= q < p + 10 && Reaches(code, p, q) ensures Fits(code, forward, p, p + 10, exits, q) {
      if p < q { NothingBetween(code, p, p, q); }
    }
  }
}
