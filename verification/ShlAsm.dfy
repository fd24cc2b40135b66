/**
 The code generator's output as a value: bytes, labels, and the holes that labels will fill. An
 image is what the resolved code will read like; every piece already emitted holds in all images
 still possible.
 */
module ShlAsm {
  import opened Words
  import opened Shl
  import opened ShlLayout
  import VM

  /** A PUSH operand to be patched with a label's position. */
  datatype Fixup = Fixup(pos: int, target: int)

  /** The generator's output so far. A label is -1 until it is marked. */
  datatype Asm = Asm(code: seq<byte>, labels: seq<int>, fixups: seq<Fixup>)

  /* ----- What the bytes will be once the holes are filled ----- */

  ghost predicate Hole(a: Asm, i: int)
  {
    exists f :: f in a.fixups && f.pos <= i < f.pos + 8
  }

  /** Every hole is the operand of a PUSH, inside the code, before the next hole; labels point into the code. */
  ghost predicate Sound(a: Asm)
  {
    (forall k :: 0 <= k < |a.fixups| ==>
      0 <= a.fixups[k].target < |a.labels| && 1 <= a.fixups[k].pos && a.fixups[k].pos + 8 <= |a.code|
      && a.code[a.fixups[k].pos - 1] == VM.PUSH)
    && (forall j, k :: 0 <= j < k < |a.fixups| ==> a.fixups[j].pos + 8 < a.fixups[k].pos)
    && (forall l :: 0 <= l < |a.labels| ==> -1 <= a.labels[l] <= |a.code|)
  }

  /** Resolved code agrees with the output outside the holes, and has the positions of marked labels in them. */
  ghost predicate Shows(img: Image, a: Asm)
  {
    (forall i :: 0 <= i < |a.code| && !Hole(a, i) ==> img.op(i) == a.code[i])
    && (forall p :: 0 <= p <= |a.code| - 8 && (forall i :: p <= i < p + 8 ==> !Hole(a, i)) ==>
                      img.word(p) == WordAt(a.code, p))
    && (forall f :: f in a.fixups && 0 <= f.target < |a.labels| && a.labels[f.target] != -1 ==>
          img.word(f.pos) == Wrap(a.labels[f.target]))
  }

  /** `b` is a later output: more code, more labels, and marks that stay. */
  ghost predicate Extends(a: Asm, b: Asm)
  {
    a.code <= b.code && a.fixups <= b.fixups && |a.labels| <= |b.labels|
    && (forall l :: 0 <= l < |a.labels| && a.labels[l] != -1 ==> b.labels[l] == a.labels[l])
    && (forall k :: |a.fixups| <= k < |b.fixups| ==> b.fixups[k].pos > |a.code|)
  }

  lemma {:induction false} HolesStay(a: Asm, b: Asm, i: int)
    requires Extends(a, b) && i < |a.code|
    ensures Hole(a, i) <==> Hole(b, i)
  {
    if f :| f in a.fixups && f.pos <= i < f.pos + 8 {
      assert f in b.fixups;
    }
    if f :| f in b.fixups && f.pos <= i < f.pos + 8 {
      var k :| 0 <= k < |b.fixups| && b.fixups[k] == f;
      assert f == a.fixups[k];
    }
  }

  lemma {:induction false} ShowsLess(img: Image, a: Asm, b: Asm)
    requires Extends(a, b) && Shows(img, b)
    ensures Shows(img, a)
  {
    forall i | 0 <= i < |a.code| && !Hole(a, i) ensures img.op(i) == a.code[i] {
      HolesStay(a, b, i);
    }
    forall p | 0 <= p <= |a.code| - 8
    && (forall i :: p <= i < p + 8 ==> !Hole(a, i)) ensures img.word(p) == WordAt(a.code, p) {
      forall i | p <= i < p + 8 ensures !Hole(b, i) { HolesStay(a, b, i); }
      assert a.code[p..p + 8] == b.code[p..p + 8];
    }
    forall f | f in a.fixups ensures f in b.fixups {
      var k :| 0 <= k < |a.fixups| && a.fixups[k] == f;
      assert b.fixups[k] == f;
    }
  }

  /** What resolved code may look like, given the output so far. */
  ghost function Shown(a: Asm): (s: iset<Image>)
  {
    iset img | Shows(img, a)
  }

  /** `b` comes after `a`. */
  ghost predicate Later(a: Asm, b: Asm)
  {
    Sound(b) && Extends(a, b) && Shown(b) <= Shown(a)
  }

  /** `n` more bytes; older labels untouched, and of the new ones only those in `pending` not yet marked. */
  ghost predicate Advances(a: Asm, b: Asm, n: nat, pending: set<int>)
  {
    Later(a, b) && |b.code| == |a.code| + n && a.labels <= b.labels
    && forall l :: |a.labels| <= l < |b.labels| && b.labels[l] == -1 ==> l in pending
  }

  lemma {:induction false} ShownLess(a: Asm, b: Asm)
    requires Extends(a, b)
    ensures Shown(b) <= Shown(a)
  {
    forall img | Shows(img, b) ensures Shows(img, a) { ShowsLess(img, a, b); }
  }

  lemma {:induction false} LaterTransitive(a: Asm, b: Asm, c: Asm)
    requires Later(a, b) && Later(b, c)
    ensures Later(a, c)
  {
  }

  lemma {:induction false} AdvancesTransitive(a: Asm, b: Asm, c: Asm, m: nat, n: nat, pending: set<int>)
    requires Advances(a, b, m, pending) && Advances(b, c, n, {})
    ensures Advances(a, c, m + n, pending)
  {
    LaterTransitive(a, b, c);
  }

  /* ----- The primitive emissions ----- */

  function WithOp(a: Asm, op: byte): (b: Asm)
  {
    a.(code := a.code + [op])
  }

  function WithPush(a: Asm, w: u64): (b: Asm)
  {
    a.(code := a.code + [VM.PUSH] + U64Bytes(w))
  }

  function WithPushLabel(a: Asm, l: int): (b: Asm)
  {
    Asm(a.code + [VM.PUSH] + [0, 0, 0, 0, 0, 0, 0, 0], a.labels, a.fixups + [Fixup(|a.code| + 1, l)])
  }

  function WithLabel(a: Asm): (b: Asm)
  {
    a.(labels := a.labels + [-1])
  }

  function WithMark(a: Asm, l: int): (b: Asm)
    requires 0 <= l < |a.labels|
  {
    a.(labels := a.labels[l := |a.code|])
  }

  lemma {:induction false} NoHoleAtEnd(a: Asm, i: int)
    requires Sound(a) && i >= |a.code|
    ensures !Hole(a, i)
  {
  }

  lemma {:induction false} OpAdvances(a: Asm, op: byte)
    requires Sound(a)
    ensures Advances(a, WithOp(a, op), 1, {}) == true
  {
    ShownLess(a, WithOp(a, op));
  }

  lemma {:induction false} PushAdvances(a: Asm, w: u64)
    requires Sound(a)
    ensures Advances(a, WithPush(a, w), 9, {}) == true
  {
    ShownLess(a, WithPush(a, w));
  }

  lemma {:induction false} PushLabelAdvances(a: Asm, l: int)
    requires Sound(a) && 0 <= l < |a.labels|
    ensures Advances(a, WithPushLabel(a, l), 9, {}) == true
  {
    ShownLess(a, WithPushLabel(a, l));
  }

  lemma {:induction false} LabelIsLater(a: Asm)
    requires Sound(a)
    ensures Later(a, WithLabel(a)) == true
  {
    ShownLess(a, WithLabel(a));
  }

  lemma {:induction false} MarkIsLater(a: Asm, l: int)
    requires Sound(a) && 0 <= l < |a.labels| && a.labels[l] == -1
    ensures Later(a, WithMark(a, l)) == true
  {
    ShownLess(a, WithMark(a, l));
  }

  lemma {:induction false} LabelAdvances(a: Asm, b: Asm, n: nat, pending: set<int>)
    requires Advances(a, b, n, pending)
    ensures Advances(a, WithLabel(b), n, pending + {|b.labels|}) == true
  {
    LabelIsLater(b);
    LaterTransitive(a, b, WithLabel(b));
  }

  lemma {:induction false} MarkAdvances(a: Asm, b: Asm, l: int, n: nat, pending: set<int>)
    requires Advances(a, b, n, pending) && |a.labels| <= l < |b.labels| && b.labels[l] == -1
    ensures Advances(a, WithMark(b, l), n, pending - {l}) == true
  {
    MarkIsLater(b, l);
    LaterTransitive(a, b, WithMark(b, l));
  }

  /* ----- What a set of images has in common ----- */

  ghost predicate WritesOp(shown: iset<Image>, p: int, op: byte)
  {
    forall img :: img in shown ==> OpAt(img, p, op)
  }

  ghost predicate WritesPush(shown: iset<Image>, p: int, w: u64)
  {
    forall img :: img in shown ==> PushAt(img, p, w)
  }

  ghost predicate WritesJump(shown: iset<Image>, p: int, target: nat, op: byte)
  {
    forall img :: img in shown ==> JumpAt(img, p, target, op)
  }

  ghost predicate WritesOperator(shown: iset<Image>, p: int, op: BinOp)
  {
    forall img :: img in shown ==> OperatorAt(img, p, op)
  }

  ghost predicate WritesExpr(shown: iset<Image>, p: int, e: Expr, sc: Scope)
  {
    forall img :: img in shown ==> ExprAt(img, p, e, sc)
  }

  ghost predicate WritesExprs(shown: iset<Image>, p: int, es: seq<Expr>, sc: Scope)
  {
    forall img :: img in shown ==> ExprsAt(img, p, es, sc)
  }

  ghost predicate WritesStmt(shown: iset<Image>, p: nat, s: Stmt, sc: Scope)
  {
    forall img :: img in shown ==> StmtAt(img, p, s, sc)
  }

  ghost predicate WritesStmts(shown: iset<Image>, p: nat, ss: seq<Stmt>, sc: Scope)
  {
    forall img :: img in shown ==> StmtsAt(img, p, ss, sc)
  }

  lemma {:induction false} OpIsWritten(a: Asm, op: byte)
    requires Sound(a)
    ensures WritesOp(Shown(WithOp(a, op)), |a.code|, op)
  {
    var b := WithOp(a, op);
    NoHoleAtEnd(a, |a.code|);
    assert Hole(b, |a.code|) <==> Hole(a, |a.code|);
    forall img | Shows(img, b) ensures OpAt(img, |a.code|, op) {
      assert img.op(|a.code|) == b.code[|a.code|];
    }
  }

  lemma {:induction false} PushIsWritten(a: Asm, w: u64)
    requires Sound(a)
    ensures WritesPush(Shown(WithPush(a, w)), |a.code|, w)
  {
    var b, n := WithPush(a, w), |a.code|;
    forall i | i >= n ensures !Hole(b, i) { NoHoleAtEnd(a, i); }
    assert b.code[n + 1..n + 9] == U64Bytes(w);
    U64RoundTrip(w);
    forall img | Shows(img, b) ensures PushAt(img, n, w) {
      assert img.op(n) == b.code[n];
      assert img.word(n + 1) == WordAt(b.code, n + 1);
    }
  }

  /** A PUSH whose operand is a hole for label `l`, followed by a jump instruction. */
  ghost predicate JumpsTo(a: Asm, p: int, l: int, op: byte)
  {
    Fixup(p + 1, l) in a.fixups && 0 <= l < |a.labels| && WritesOp(Shown(a), p, VM.PUSH)
    && WritesOp(Shown(a), p + 9, op)
  }

  lemma {:induction false} PushLabelIsWritten(a: Asm, l: int)
    requires Sound(a) && 0 <= l < |a.labels|
    ensures WritesOp(Shown(WithPushLabel(a, l)), |a.code|, VM.PUSH)
            && Fixup(|a.code| + 1, l) in WithPushLabel(a, l).fixups
  {
    var b, n := WithPushLabel(a, l), |a.code|;
    NoHoleAtEnd(a, n);
    assert !Hole(b, n);
    assert b.fixups[|a.fixups|] == Fixup(n + 1, l);
    forall img | Shows(img, b) ensures OpAt(img, n, VM.PUSH) {
      assert img.op(n) == b.code[n];
    }
  }

  /** The label's mark is the target of the jump. */
  lemma {:induction false} JumpIsWritten(a: Asm, p: int, l: int, op: byte)
    requires JumpsTo(a, p, l, op) && a.labels[l] >= 0
    ensures WritesJump(Shown(a), p, a.labels[l], op)
  {
  }
}
