/** When two lists of leaves share a Merkle root. */
module Stretched {
  import opened Words
  import opened Merkle

  /* ----- The leaves under a root ----- */

  function LeafLists(): (h: Hasher<seq<seq<byte>>>)
  {
    Hasher((d: seq<byte>) => [d], (a: seq<seq<byte>>, b: seq<seq<byte>>) => a + b, [])
  }

  /** The leaves as the tree has them: level by level, the last group of an odd number is repeated. */
  function Stretch(items: seq<seq<byte>>): (r: seq<seq<byte>>)
  {
    RootOf(LeafLists(), items)
  }

  /* ----- Trees ----- */

  function Trees(): (h: Hasher<Term>)
  {
    Hasher((d: seq<byte>) => LeafTerm(d), (l: Term, r: Term) => InnerTerm(l, r), ZeroTerm)
  }

  function HashOf<H>(h: Hasher<H>, t: Term): (r: H)
  {
    match t
    case LeafTerm(d) => h.leaf(d)
    case InnerTerm(l, r) => h.inner(HashOf(h, l), HashOf(h, r))
    case ZeroTerm => h.zero
  }

  function Hashes<H>(h: Hasher<H>, ts: seq<Term>): (r: seq<H>)
    ensures |r| == |ts| && forall i :: 0 <= i < |ts| ==> r[i] == HashOf(h, ts[i])
  {
    if ts == [] then [] else [HashOf(h, ts[0])] + Hashes(h, ts[1..])
  }

  lemma {:induction false} HashesUp<H>(h: Hasher<H>, ts: seq<Term>)
    ensures Hashes(h, Up(Trees(), ts)) == Up(h, Hashes(h, ts))
  {
    var up := Up(Trees(), ts);
    forall i | 0 <= i < |up| ensures HashOf(h, up[i]) == Up(h, Hashes(h, ts))[i] {
      UpAt(Trees(), ts, i);
      UpAt(h, Hashes(h, ts), i);
    }
  }

  /** The root of the hashes is the hash of the root of the trees. */
  lemma {:induction false} HashOfTop<H>(h: Hasher<H>, ts: seq<Term>)
    requires ts != []
    ensures HashOf(h, Top(Trees(), ts)) == Top(h, Hashes(h, ts))
    decreases |ts|
  {
    if |ts| > 1 {
      HashesUp(h, ts);
      HashOfTop(h, Up(Trees(), ts));
    }
  }

  lemma {:induction false} HashOfRoot<H>(h: Hasher<H>, items: seq<seq<byte>>)
    ensures HashOf(h, RootOf(Trees(), items)) == RootOf(h, items)
  {
    if items != [] {
      HashOfTop(h, Leaves(Trees(), items));
      assert Hashes(h, Leaves(Trees(), items)) == Leaves(h, items);
    }
  }

  /* ----- Collision-free hashes tell trees apart ----- */

  ghost predicate Bare(t: Term)
  {
    match t
    case LeafTerm(_) => true
    case InnerTerm(l, r) => Bare(l) && Bare(r)
    case ZeroTerm => false
  }

  lemma {:induction false} HashBinds<H(!new)>(h: Hasher<H>, s: Term, t: Term)
    requires CollisionFree(h) && Bare(s) && Bare(t) && HashOf(h, s) == HashOf(h, t)
    ensures s == t
  {
    match (s, t)
    case (LeafTerm(_), LeafTerm(_)) =>
    case (InnerTerm(a, b), InnerTerm(c, d)) =>
      HashBinds(h, a, c);
      HashBinds(h, b, d);
    case (LeafTerm(_), InnerTerm(_, _)) =>
    case (InnerTerm(_, _), LeafTerm(_)) =>
  }

  /* ----- Every root is a perfect tree ----- */

  ghost predicate Perfect(t: Term, k: nat)
  {
    if k == 0 then t.LeafTerm? else t.InnerTerm? && Perfect(t.l, k - 1) && Perfect(t.r, k - 1)
  }

  function Size(k: nat): (n: nat)
    ensures n > 0
  {
    if k == 0 then 1 else 2 * Size(k - 1)
  }

  lemma {:induction false} SizeGrows(j: nat, k: nat)
    requires j < k
    ensures Size(j) < Size(k)
  {
    if j < k - 1 { SizeGrows(j, k - 1); }
  }

  lemma {:induction false} PerfectIsBare(t: Term, k: nat)
    requires Perfect(t, k)
    ensures Bare(t) && |HashOf(LeafLists(), t)| == Size(k)
  {
    if k > 0 {
      PerfectIsBare(t.l, k - 1);
      PerfectIsBare(t.r, k - 1);
    }
  }

  lemma {:induction false} TopIsPerfect(ts: seq<Term>, j: nat) returns (k: nat)
    requires ts != [] && forall i :: 0 <= i < |ts| ==> Perfect(ts[i], j)
    ensures Perfect(Top(Trees(), ts), k)
    decreases |ts|
  {
    if |ts| == 1 {
      k := j;
    } else {
      var up := Up(Trees(), ts);
      forall i | 0 <= i < |up| ensures Perfect(up[i], j + 1) {
        UpAt(Trees(), ts, i);
        PaddedAt(ts, 2 * i);
        PaddedAt(ts, 2 * i + 1);
      }
      k := TopIsPerfect(up, j + 1);
    }
  }

  lemma {:induction false} RootIsPerfect(items: seq<seq<byte>>) returns (k: nat)
    requires items != []
    ensures Perfect(RootOf(Trees(), items), k)
  {
    k := TopIsPerfect(Leaves(Trees(), items), 0);
  }

  /** A perfect tree is known by its leaves. */
  lemma {:induction false} LeavesDecide(s: Term, t: Term, k: nat)
    requires Perfect(s, k) && Perfect(t, k) && HashOf(LeafLists(), s) == HashOf(LeafLists(), t)
    ensures s == t
    decreases k
  {
    if k > 0 {
      PerfectIsBare(s.l, k - 1);
      PerfectIsBare(t.l, k - 1);
      var a, b, c, d := HashOf(LeafLists(), s.l), HashOf(LeafLists(), s.r), HashOf(LeafLists(),
          t.l), HashOf(LeafLists(), t.r);
      SplitSame(a, b, c, d);
      LeavesDecide(s.l, t.l, k - 1);
      LeavesDecide(s.r, t.r, k - 1);
    }
  }

  lemma SplitSame<T>(a: seq<T>, b: seq<T>, c: seq<T>, d: seq<T>)
    requires a + b == c + d && |a| == |c|
    ensures a == c && b == d
  {
    assert a == (a + b)[..|a|] && c == (c + d)[..|a|];
    assert b == (a + b)[|a|..] && d == (c + d)[|a|..];
  }

  /* ----- The theorem ----- */

  lemma {:induction false} SameStretchSameTree(xs: seq<seq<byte>>, ys: seq<seq<byte>>)
    requires xs != [] && ys != [] && Stretch(xs) == Stretch(ys)
    ensures RootOf(Trees(), xs) == RootOf(Trees(), ys)
  {
    HashOfRoot(LeafLists(), xs);
    HashOfRoot(LeafLists(), ys);
    var j := RootIsPerfect(xs);
    var k := RootIsPerfect(ys);
    PerfectIsBare(RootOf(Trees(), xs), j);
    PerfectIsBare(RootOf(Trees(), ys), k);
    if j < k { SizeGrows(j, k); }
    if k < j { SizeGrows(k, j); }
    LeavesDecide(RootOf(Trees(), xs), RootOf(Trees(), ys), k);
  }

  lemma {:induction false} SameRootSameTree<H(!new)>(h: Hasher<H>, xs: seq<seq<byte>>, ys: seq<seq<byte>>)
    requires CollisionFree(h) && xs != [] && ys != [] && RootOf(h, xs) == RootOf(h, ys)
    ensures RootOf(Trees(), xs) == RootOf(Trees(), ys)
  {
    HashOfRoot(h, xs);
    HashOfRoot(h, ys);
    var j := RootIsPerfect(xs);
    var k := RootIsPerfect(ys);
    PerfectIsBare(RootOf(Trees(), xs), j);
    PerfectIsBare(RootOf(Trees(), ys), k);
    HashBinds(h, RootOf(Trees(), xs), RootOf(Trees(), ys));
  }

  /** With collision-free hashes, two lists of leaves share a root just when they stretch to one list. */
  lemma {:induction false} RootsAgree<H(!new)>(h: Hasher<H>, xs: seq<seq<byte>>, ys: seq<seq<byte>>)
    requires CollisionFree(h) && xs != [] && ys != []
    ensures RootOf(h, xs) == RootOf(h, ys) <==> Stretch(xs) == Stretch(ys)
  {
    HashOfRoot(h, xs);
    HashOfRoot(h, ys);
    HashOfRoot(LeafLists(), xs);
    HashOfRoot(LeafLists(), ys);
    if RootOf(h, xs) == RootOf(h, ys) { SameRootSameTree(h, xs, ys); }
    if Stretch(xs) == Stretch(ys) { SameStretchSameTree(xs, ys); }
  }

  /* ----- What stretching adds ----- */

  function Concat(level: seq<seq<seq<byte>>>): (r: seq<seq<byte>>)
  {
    if level == [] then [] else level[0] + Concat(level[1..])
  }

  lemma {:induction false} ConcatPairs(level: seq<seq<seq<byte>>>)
    requires |level| % 2 == 0
    ensures Concat(Pairs(LeafLists(), level)) == Concat(level)
  {
    if level != [] {
      ConcatPairs(level[2..]);
      var p := Pairs(LeafLists(), level);
      assert p[1..] == Pairs(LeafLists(), level[2..]);
      assert level[1..][1..] == level[2..];
      assert Concat(level) == level[0] + (level[1] + Concat(level[2..]));
    }
  }

  lemma {:induction false} ConcatInTurn(level: seq<seq<seq<byte>>>, x: seq<seq<byte>>)
    ensures Concat(level + [x]) == Concat(level) + x
  {
    if level == [] {
      assert [x][1..] == [] && x + [] == x && level + [x] == [x];
    } else {
      ConcatInTurn(level[1..], x);
      assert (level + [x])[1..] == level[1..] + [x];
    }
  }

  lemma {:induction false} TopExtends(level: seq<seq<seq<byte>>>)
    requires level != []
    ensures Concat(level) <= Top(LeafLists(), level)
    decreases |level|
  {
    if |level| == 1 {
      assert level[1..] == [] && level[0] + [] == level[0];
    } else {
      if |level| % 2 == 1 { ConcatInTurn(level, level[|level| - 1]); }
      ConcatPairs(Padded(level));
      TopExtends(Up(LeafLists(), level));
    }
  }

  lemma {:induction false} ConcatSingles(items: seq<seq<byte>>)
    ensures Concat(Leaves(LeafLists(), items)) == items
  {
    if items != [] { ConcatSingles(items[1..]); }
  }

  /** The list itself comes first, so lists of one length stretch to one list only if they are equal. */
  lemma {:induction false} StretchExtends(items: seq<seq<byte>>)
    ensures items <= Stretch(items)
  {
    if items != [] {
      TopExtends(Leaves(LeafLists(), items));
      ConcatSingles(items);
    }
  }

  /** A shared root leaves the shorter list a prefix of the longer one. */
  lemma {:induction false} SharedRootIsPrefix<H(!new)>(h: Hasher<H>, xs: seq<seq<byte>>, ys: seq<seq<byte>>)
    requires CollisionFree(h) && xs != [] && |xs| <= |ys| && RootOf(h, xs) == RootOf(h, ys)
    ensures xs <= ys
  {
    RootsAgree(h, xs, ys);
    StretchExtends(xs);
    StretchExtends(ys);
  }
}
