/** The Merkle root from the top: the list is split, not paired up. */
module TopDown {
  import opened Words
  import opened Merkle

  /**
   The tree of height `k` over these nodes: its left half takes as many as it can hold. Nodes that leave the right
   half empty make a tree of two equal halves.
   */
  function Tree<H>(h: Hasher<H>, level: seq<H>, k: nat): (r: H)
    requires 0 < |level| <= Pow2(k)
    decreases k
  {
    if k == 0 then level[0]
    else if |level| <= Pow2(k - 1) then
      var half := Tree(h, level, k - 1);
      h.inner(half, half)
    else h.inner(Tree(h, level[..Pow2(k - 1)], k - 1), Tree(h, level[Pow2(k - 1)..], k - 1))
  }

  lemma PaddedSplits<H>(level: seq<H>, n: nat)
    requires n % 2 == 0 && n <= |level|
    ensures |Padded(level)| == n + |Padded(level[n..])| && Padded(level)[n..] == Padded(level[n..])
    ensures Padded(level[..n]) == Padded(level)[..n]
  {
  }

  lemma UpSplits<H>(h: Hasher<H>, level: seq<H>, l: seq<H>, r: seq<H>, m: nat)
    requires 2 * m <= |level| && l == level[..2 * m] && r == level[2 * m..]
    ensures Up(h, level) == Up(h, l) + Up(h, r) && |Up(h, l)| == m
  {
    PaddedSplits(level, 2 * m);
    forall i | 0 <= i < |Up(h, level)| ensures Up(h, level)[i] == (Up(h, l) + Up(h, r))[i] {
      UpAt(h, level, i);
      if i < m {
        UpAt(h, l, i);
      } else {
        UpAt(h, r, i - m);
        assert Padded(r)[2 * (i - m)] == Padded(level)[2 * m..][2 * (i - m)];
        assert Padded(r)[2 * (i - m) + 1] == Padded(level)[2 * m..][2 * (i - m) + 1];
      }
    }
  }

  /** A tree is the tree over the next level, one lower. */
  lemma {:induction false} TreeUp<H>(h: Hasher<H>, level: seq<H>, k: nat)
    requires k > 0 && 0 < |level| <= Pow2(k)
    ensures 0 < |Up(h, level)| <= Pow2(k - 1) && Tree(h, level, k) == Tree(h, Up(h, level), k - 1)
    decreases k, 1
  {
    if k == 1 {
      UpAt(h, level, 0);
    } else if |level| <= Pow2(k - 1) {
      TreeUp(h, level, k - 1);
    } else {
      HalvesUp(h, level, level[..Pow2(k - 1)], level[Pow2(k - 1)..], k);
    }
  }

  lemma {:induction false} HalvesUp<H>(h: Hasher<H>, level: seq<H>, l: seq<H>, r: seq<H>, k: nat)
    requires k > 1 && Pow2(k - 1) < |level| <= Pow2(k)
    requires l == level[..Pow2(k - 1)] && r == level[Pow2(k - 1)..]
    ensures 0 < |Up(h, level)| <= Pow2(k - 1) && Tree(h, level, k) == Tree(h, Up(h, level), k - 1)
    decreases k, 0
  {
    UpSplits(h, level, l, r, Pow2(k - 2));
    TreeUp(h, l, k - 1);
    TreeUp(h, r, k - 1);
    assert Up(h, level)[..Pow2(k - 2)] == Up(h, l) && Up(h, level)[Pow2(k - 2)..] == Up(h, r);
  }

  lemma {:induction false} TopIsTree<H>(h: Hasher<H>, level: seq<H>, k: nat)
    requires 0 < |level| <= Pow2(k) && (k > 0 ==> Pow2(k - 1) < |level|)
    ensures Top(h, level) == Tree(h, level, k)
    decreases |level|
  {
    if |level| > 1 {
      TreeUp(h, level, k);
      TopIsTree(h, Up(h, level), k - 1);
    }
  }

  /**
   The root of a list is the tree of the least height that holds its leaves, split from the top: of the leaves, the
   left half takes the largest power of two below their number. The root of the empty list is zero.
   */
  lemma {:induction false} RootIsTree<H>(h: Hasher<H>, items: seq<seq<byte>>, k: nat)
    requires |items| <= Pow2(k) && (k > 0 ==> Pow2(k - 1) < |items|)
    ensures items == [] ==> RootOf(h, items) == h.zero
    ensures items != [] ==>
              RootOf(h, items) == Tree(h, seq(|items|, i requires 0 <= i < |items| => h.leaf(items[i])), k)
  {
    if items != [] {
      TopIsTree(h, Leaves(h, items), k);
      assert seq(|items|, i requires 0 <= i < |items| => h.leaf(items[i])) == Leaves(h, items);
    }
  }
}
