/** The Merkle tree over leaf data: roots, inclusion proofs, and what they commit to. */
module Merkle {
  import opened Words

  /** SHA-256 with the prefixes 0x00 for leaves and 0x01 for inner nodes. */
  datatype Hasher<!H(==)> = Hasher(leaf: seq<byte> -> H, inner: (H, H) -> H, zero: H)

  datatype ProofStep<+H> = ProofStep(sibling: H, isLeft: bool)

  /* ----- Levels ----- */

  function Leaves<H>(h: Hasher<H>, items: seq<seq<byte>>): (level: seq<H>)
    ensures |level| == |items| && forall i :: 0 <= i < |items| ==> level[i] == h.leaf(items[i])
  {
    if items == [] then [] else [h.leaf(items[0])] + Leaves(h, items[1..])
  }

  /** The last node of an odd level is duplicated. */
  function Padded<H>(level: seq<H>): (r: seq<H>)
    ensures |r| % 2 == 0 && |level| <= |r| <= |level| + 1
  {
    if |level| % 2 == 1 then level + [level[|level| - 1]] else level
  }

  lemma PaddedAt<H>(level: seq<H>, i: nat)
    requires i < |Padded(level)|
    ensures Padded(level)[i] in level && (i < |level| ==> Padded(level)[i] == level[i])
  {
  }

  /** The hashes of neighbouring pairs. */
  function Pairs<H>(h: Hasher<H>, level: seq<H>): (r: seq<H>)
    requires |level| % 2 == 0
    ensures |r| == |level| / 2
  {
    if level == [] then [] else [h.inner(level[0], level[1])] + Pairs(h, level[2..])
  }

  lemma {:induction false} PairsAt<H>(h: Hasher<H>, level: seq<H>, i: nat)
    requires |level| % 2 == 0 && i < |level| / 2
    ensures Pairs(h, level)[i] == h.inner(level[2 * i], level[2 * i + 1])
  {
    if i > 0 {
      PairsAt(h, level[2..], i - 1);
      assert level[2..][2 * (i - 1)] == level[2 * i] && level[2..][2 * (i - 1) + 1] == level[2 * i + 1];
    }
  }

  /** A node of the next level is the hash of two nodes of this one. */
  lemma UpAt<H>(h: Hasher<H>, level: seq<H>, i: nat)
    requires i < |Up(h, level)|
    ensures 2 * i + 1 < |Padded(level)| && Up(h, level)[i] == h.inner(Padded(level)[2 * i], Padded(level)[2 * i + 1])
  {
    PairsAt(h, Padded(level), i);
  }

  function Up<H>(h: Hasher<H>, level: seq<H>): (r: seq<H>)
    ensures |r| == (|level| + 1) / 2
  {
    Pairs(h, Padded(level))
  }

  function Top<H>(h: Hasher<H>, level: seq<H>): (r: H)
    requires level != []
    decreases |level|
  {
    if |level| == 1 then level[0] else Top(h, Up(h, level))
  }

  function RootOf<H>(h: Hasher<H>, items: seq<seq<byte>>): (r: H)
  {
    if items == [] then h.zero else Top(h, Leaves(h, items))
  }

  method HashPairs<H>(h: Hasher<H>, level: seq<H>) returns (next: seq<H>)
    requires |level| % 2 == 0
    ensures next == Pairs(h, level)
  {
    next := [];
    var i := 0;
    while i < |level|
      invariant 0 <= i <= |level| && i % 2 == 0 && Pairs(h, level) == next + Pairs(h, level[i..])
    {
      assert level[i..][2..] == level[i + 2..];
      next := next + [h.inner(level[i], level[i + 1])];
      i := i + 2;
    }
  }

  method HashLeaves<H>(h: Hasher<H>, items: seq<seq<byte>>) returns (level: seq<H>)
    ensures level == Leaves(h, items)
  {
    level := [];
    var i := 0;
    while i < |items|
      invariant 0 <= i <= |items| && level == Leaves(h, items)[..i]
    {
      level := level + [h.leaf(items[i])];
      i := i + 1;
    }
  }

  method Root<H>(h: Hasher<H>, items: seq<seq<byte>>) returns (r: H)
    ensures r == RootOf(h, items)
  {
    if |items| == 0 { return h.zero; }
    var level := HashLeaves(h, items);
    while |level| > 1
      invariant level != [] && Top(h, level) == RootOf(h, items)
      decreases |level|
    {
      if |level| % 2 == 1 { level := level + [level[|level| - 1]]; }
      level := HashPairs(h, level);
    }
    return level[0];
  }

  /* ----- Proofs ----- */

  function Sibling<H>(level: seq<H>, idx: nat): (s: ProofStep<H>)
    requires idx < |level| && |level| % 2 == 0
  {
    if idx % 2 == 0 then ProofStep(level[idx + 1], false) else ProofStep(level[idx - 1], true)
  }

  function Steps<H>(h: Hasher<H>, level: seq<H>, idx: nat): (s: seq<ProofStep<H>>)
    requires idx < |level|
    decreases |level|
  {
    if |level| == 1 then [] else [Sibling(Padded(level), idx)] + Steps(h, Up(h, level), idx / 2)
  }

  lemma {:induction false} OneStep<H>(h: Hasher<H>, level: seq<H>, idx: nat, step: ProofStep<H>)
    requires idx < |level| && |level| > 1 && step == Sibling(Padded(level), idx)
    ensures Steps(h, level, idx) == [step] + Steps(h, Up(h, level), idx / 2)
  {
  }

  method Proof<H>(h: Hasher<H>, items: seq<seq<byte>>, index: int) returns (steps: seq<ProofStep<H>>)
    ensures steps == if 0 <= index < |items| then Steps(h, Leaves(h, items), index) else []
  {
    if index < 0 || index >= |items| { return []; }
    var level := HashLeaves(h, items);
    steps := [];
    var idx := index;
    while |level| > 1
      invariant 0 <= idx < |level| && Steps(h, Leaves(h, items), index) == steps + Steps(h, level, idx)
      decreases |level|
    {
      var step, next := ClimbLevel(h, level, idx);
      OneStep(h, level, idx, step);
      Regroup(steps, step, Steps(h, next, idx / 2));
      steps, level, idx := steps + [step], next, idx / 2;
    }
  }

  /** The sibling at this level, and the level above. */
  method ClimbLevel<H>(h: Hasher<H>, level: seq<H>, idx: nat) returns (step: ProofStep<H>, next: seq<H>)
    requires idx < |level| && |level| > 1
    ensures step == Sibling(Padded(level), idx) && next == Up(h, level)
  {
    var padded := level;
    if |level| % 2 == 1 { padded := level + [level[|level| - 1]]; }
    if idx % 2 == 0 {
      step := ProofStep(padded[idx + 1], false);
    } else {
      step := ProofStep(padded[idx - 1], true);
    }
    next := HashPairs(h, padded);
  }

  lemma Regroup<T>(a: seq<T>, b: T, c: seq<T>)
    ensures a + ([b] + c) == a + [b] + c
  {
  }

  function Climb<H>(h: Hasher<H>, s: ProofStep<H>, cur: H): (r: H)
  {
    if s.isLeft then h.inner(s.sibling, cur) else h.inner(cur, s.sibling)
  }

  function Fold<H>(h: Hasher<H>, cur: H, steps: seq<ProofStep<H>>): (r: H)
  {
    if steps == [] then cur else Climb(h, steps[|steps| - 1], Fold(h, cur, steps[..|steps| - 1]))
  }

  method Verify<H>(h: Hasher<H>, data: seq<byte>, steps: seq<ProofStep<H>>, root: H) returns (ok: bool)
    ensures ok == (Fold(h, h.leaf(data), steps) == root)
  {
    var cur := h.leaf(data);
    var i := 0;
    while i < |steps|
      invariant 0 <= i <= |steps| && cur == Fold(h, h.leaf(data), steps[..i])
    {
      assert steps[..i + 1][..i] == steps[..i];
      cur := Climb(h, steps[i], cur);
      i := i + 1;
    }
    assert steps[..i] == steps;
    return cur == root;
  }

  /* ----- Completeness ----- */

  lemma {:induction false} FoldInTurn<H>(h: Hasher<H>, cur: H, s: ProofStep<H>, steps: seq<ProofStep<H>>)
    ensures Fold(h, cur, [s] + steps) == Fold(h, Climb(h, s, cur), steps)
  {
    var all := [s] + steps;
    if steps == [] {
      assert all[..0] == [];
    } else {
      assert all[..|all| - 1] == [s] + steps[..|steps| - 1];
      FoldInTurn(h, cur, s, steps[..|steps| - 1]);
    }
  }

  lemma {:induction false} StepsClimb<H>(h: Hasher<H>, level: seq<H>, idx: nat)
    requires idx < |level|
    ensures Fold(h, level[idx], Steps(h, level, idx)) == Top(h, level)
    decreases |level|
  {
    if |level| > 1 {
      var p := Padded(level);
      PaddedAt(level, idx);
      UpAt(h, level, idx / 2);
      assert Climb(h, Sibling(p, idx), level[idx]) == Up(h, level)[idx / 2];
      FoldInTurn(h, level[idx], Sibling(p, idx), Steps(h, Up(h, level), idx / 2));
      StepsClimb(h, Up(h, level), idx / 2);
    }
  }

  /** Every leaf of every list has a proof that verifies. */
  lemma ProofsVerify<H>(h: Hasher<H>, items: seq<seq<byte>>, index: nat)
    requires index < |items|
    ensures Fold(h, h.leaf(items[index]), Steps(h, Leaves(h, items), index)) == RootOf(h, items)
  {
    StepsClimb(h, Leaves(h, items), index);
  }

  /* ----- Binding ----- */

  ghost predicate LeafInjective<H(!new)>(h: Hasher<H>)
  {
    forall x, y :: h.leaf(x) == h.leaf(y) ==> x == y
  }

  ghost predicate InnerInjective<H(!new)>(h: Hasher<H>)
  {
    forall a, b, c, d :: h.inner(a, b) == h.inner(c, d) ==> a == c && b == d
  }

  /** The prefixes keep leaves and inner nodes apart. */
  ghost predicate Separated<H(!new)>(h: Hasher<H>)
  {
    forall x, a, b :: h.leaf(x) != h.inner(a, b)
  }

  ghost predicate CollisionFree<H(!new)>(h: Hasher<H>)
  {
    LeafInjective(h) && InnerInjective(h) && Separated(h)
  }

  lemma {:induction false} TopBinds<H(!new)>(h: Hasher<H>, x: seq<H>, y: seq<H>)
    requires InnerInjective(h) && |x| == |y| != 0 && Top(h, x) == Top(h, y)
    ensures x == y
    decreases |x|
  {
    if |x| > 1 {
      TopBinds(h, Up(h, x), Up(h, y));
      UpBinds(h, x, y);
    }
  }

  lemma {:induction false} UpBinds<H(!new)>(h: Hasher<H>, x: seq<H>, y: seq<H>)
    requires InnerInjective(h) && |x| == |y| && Up(h, x) == Up(h, y)
    ensures x == y
  {
    var p, q := Padded(x), Padded(y);
    forall i | 0 <= i < |x| ensures x[i] == y[i] {
      PaddedAt(x, i);
      PaddedAt(y, i);
      UpAt(h, x, i / 2);
      UpAt(h, y, i / 2);
      assert Up(h, x)[i / 2] == Up(h, y)[i / 2];
    }
  }

  /** Lists of one length with one root are one list. */
  lemma RootBinds<H(!new)>(h: Hasher<H>, xs: seq<seq<byte>>, ys: seq<seq<byte>>)
    requires LeafInjective(h) && InnerInjective(h) && |xs| == |ys| && RootOf(h, xs) == RootOf(h, ys)
    ensures xs == ys
  {
    if xs != [] {
      TopBinds(h, Leaves(h, xs), Leaves(h, ys));
      forall i | 0 <= i < |xs| ensures xs[i] == ys[i] { assert Leaves(h, xs)[i] == Leaves(h, ys)[i]; }
    }
  }

  /** Lengths matter: repeating the last of an odd number of leaves gives the same root. */
  lemma DuplicateSharesRoot<H>(h: Hasher<H>, xs: seq<seq<byte>>)
    requires |xs| % 2 == 1 && |xs| > 1
    ensures RootOf(h, xs) == RootOf(h, xs + [xs[|xs| - 1]])
  {
    var ys := xs + [xs[|xs| - 1]];
    assert Leaves(h, ys) == Padded(Leaves(h, xs));
    assert Padded(Leaves(h, ys)) == Leaves(h, ys);
  }

  /* ----- Soundness of proofs ----- */

  function UpTimes<H>(h: Hasher<H>, level: seq<H>, k: nat): (r: seq<H>)
  {
    if k == 0 then level else Up(h, UpTimes(h, level, k - 1))
  }

  lemma {:induction false} TopIsAbove<H>(h: Hasher<H>, level: seq<H>) returns (k: nat)
    requires level != []
    ensures UpTimes(h, level, k) == [Top(h, level)]
    decreases |level|
  {
    if |level| == 1 {
      k := 0;
    } else {
      k := TopIsAbove(h, Up(h, level));
      UpOnce(h, level, k);
      k := k + 1;
    }
  }

  lemma {:induction false} UpOnce<H>(h: Hasher<H>, level: seq<H>, k: nat)
    ensures UpTimes(h, level, k + 1) == UpTimes(h, Up(h, level), k)
  {
    UpLast(h, level, k, UpTimes(h, level, k));
    if k == 0 {
      UpNever(h, level);
      UpNever(h, Up(h, level));
    } else {
      UpOnce(h, level, k - 1);
      UpLast(h, Up(h, level), k - 1, UpTimes(h, level, k));
    }
  }

  lemma {:induction false} UpLast<H>(h: Hasher<H>, level: seq<H>, k: nat, below: seq<H>)
    requires below == UpTimes(h, level, k)
    ensures UpTimes(h, level, k + 1) == Up(h, below)
  {
  }

  lemma {:induction false} UpNever<H>(h: Hasher<H>, level: seq<H>)
    ensures UpTimes(h, level, 0) == level
  {
  }

  lemma {:induction false} FoldDescends<H(!new)>(h: Hasher<H>, items: seq<seq<byte>>, data: seq<byte>,
      steps: seq<ProofStep<H>>, k: nat)
    requires CollisionFree(h) && Fold(h, h.leaf(data), steps) in UpTimes(h, Leaves(h, items), k)
    ensures data in items
    decreases k
  {
    var leaves := Leaves(h, items);
    var level := UpTimes(h, leaves, k);
    var top := Fold(h, h.leaf(data), steps);
    var i :| 0 <= i < |level| && level[i] == top;
    if k == 0 {
      assert top == h.leaf(items[i]);
    } else {
      var below := UpTimes(h, leaves, k - 1);
      var p := Padded(below);
      UpAt(h, below, i);
      PaddedAt(below, 2 * i);
      PaddedAt(below, 2 * i + 1);
      if steps != [] {
        var cur := Fold(h, h.leaf(data), steps[..|steps| - 1]);
        assert cur == p[2 * i] || cur == p[2 * i + 1];
        FoldDescends(h, items, data, steps[..|steps| - 1], k - 1);
      }
    }
  }

  /** Whatever the steps, data that verifies against the root of a list is in the list. */
  lemma ProofsAreSound<H(!new)>(h: Hasher<H>, items: seq<seq<byte>>, data: seq<byte>, steps: seq<ProofStep<H>>)
    requires CollisionFree(h) && items != [] && Fold(h, h.leaf(data), steps) == RootOf(h, items)
    ensures data in items
  {
    var k := TopIsAbove(h, Leaves(h, items));
    FoldDescends(h, items, data, steps, k);
  }

  /** Collision-free hashing is possible: hashes as terms. */
  datatype Term = LeafTerm(data: seq<byte>) | InnerTerm(l: Term, r: Term) | ZeroTerm

  lemma TermsAreCollisionFree()
    ensures CollisionFree(Hasher((d: seq<byte>) => LeafTerm(d), (l: Term, r: Term) => InnerTerm(l, r), ZeroTerm))
  {
  }
}
