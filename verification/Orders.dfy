/** Ties, ranks and weights in plain terms: the canonical tip, shard holders, the leader. */
module Orders {
  import opened Words
  import Contracts
  import Fork
  import Hrw
  import L = Ledger
  import Registry

  /* ----- Byte strings in order ----- */

  /** At the first place where they differ, `a` has the smaller byte. */
  ghost predicate SmallerAt(a: seq<byte>, b: seq<byte>, i: nat)
  {
    i < |a| && i < |b| && a[i] < b[i] && forall j :: 0 <= j < i ==> a[j] == b[j]
  }

  /** `a` comes before `b` as in a dictionary: a shorter word before its continuations. */
  ghost predicate Precedes(a: seq<byte>, b: seq<byte>)
  {
    (exists i: nat :: SmallerAt(a, b, i)) || a < b
  }

  lemma BelowPrecedes(a: Fork.Hash, b: Fork.Hash)
    ensures Fork.Below(a, b) <==> Precedes(a, b)
  {
    var d := Fork.FirstDifference(a, b);
    forall j | 0 <= j < d ensures a[j] == b[j] { assert a[..d][j] == b[..d][j]; }
    if Fork.Below(a, b) { assert SmallerAt(a, b, d); }
    if i: nat :| SmallerAt(a, b, i) { Fork.DifferenceAt(a, b, i); }
  }

  lemma {:induction false} BeforePrecedes(a: seq<byte>, b: seq<byte>)
    ensures Hrw.Before(a, b) <==> Precedes(a, b)
  {
    if a != [] && b != [] && a[0] == b[0] {
      BeforePrecedes(a[1..], b[1..]);
      if i: nat :| SmallerAt(a[1..], b[1..], i) { OnePlaceOn(a, b, i); }
      if i: nat :| SmallerAt(a, b, i) { OnePlaceOn(a, b, i - 1); }
      assert a == [a[0]] + a[1..] && b == [b[0]] + b[1..];
      assert a < b <==> a[1..] < b[1..];
    } else if a != [] && b != [] && a[0] < b[0] {
      assert SmallerAt(a, b, 0);
    }
  }

  lemma OnePlaceOn(a: seq<byte>, b: seq<byte>, i: nat)
    requires a != [] && b != [] && a[0] == b[0]
    ensures SmallerAt(a, b, i + 1) <==> SmallerAt(a[1..], b[1..], i)
  {
    if SmallerAt(a[1..], b[1..], i) {
      forall j | 0 <= j < i + 1 ensures a[j] == b[j] { if j > 0 { assert a[1..][j - 1] == b[1..][j - 1]; } }
    }
  }

  /* ----- The canonical tip ----- */

  /** The tip has the most cumulative weight, and of the blocks with as much its id comes first. */
  lemma TipIs(nodes: map<Fork.Hash, Fork.Entry>, id: Fork.Hash)
    ensures Fork.IsBest(nodes, id) <==>
              id in nodes && forall other :: other in nodes && other != id ==>
                nodes[other].cum < nodes[id].cum || (nodes[other].cum == nodes[id].cum && Precedes(id, other))
  {
    forall other { BelowPrecedes(id, other); }
  }

  /* ----- Holders ----- */

  /** `x` scores higher than `y`, or as high with the id that comes first. */
  ghost predicate Outranks(score: Hrw.Id -> u64, x: Hrw.Id, y: Hrw.Id)
  {
    score(y) < score(x) || (score(y) == score(x) && Precedes(x, y))
  }

  lemma {:induction false} AheadFollows(score: Hrw.Id -> u64, s: seq<Hrw.Id>, x: Hrw.Id, y: Hrw.Id)
    requires Hrw.Beats(score, y, x)
    ensures Hrw.Ahead(score, s, y) <= Hrw.Ahead(score, s, x)
    ensures y in s ==> Hrw.Ahead(score, s, y) < Hrw.Ahead(score, s, x)
  {
    if s != [] {
      AheadFollows(score, s[1..], x, y);
      if Hrw.Beats(score, s[0], y) { Hrw.BeatsTransitive(score, s[0], y, x); }
      Hrw.BeatsTotal(score, y, y);
    }
  }

  /** Every holder of a shard outranks every node that is listed and does not hold it. */
  lemma {:induction false} HoldersScoreHighest(score: Hrw.Id -> u64, nodes: seq<Hrw.Id>, r: nat, x: Hrw.Id, y: Hrw.Id)
    requires Hrw.Ahead(score, nodes, x) < r && y in nodes && Hrw.Ahead(score, nodes, y) >= r
    ensures Outranks(score, x, y)
  {
    if Hrw.Beats(score, y, x) { AheadFollows(score, nodes, x, y); }
    Hrw.BeatsTotal(score, x, y);
    BeforePrecedes(x, y);
  }

  /* ----- The leader ----- */

  /** How many entries a validator has: its weight, but one without a weight. */
  function Entries(e: Hrw.Election, v: Hrw.Id): (n: nat)
  {
    if e.weights.None? || v !in e.weights.value || e.weights.value[v] == 0 then 1 else e.weights.value[v]
  }

  lemma {:induction false} TopIsHighest(e: Hrw.Election, v: Hrw.Id, n: u64) returns (j: u64)
    requires n >= 1
    ensures j < n && e.score(v, j) == Hrw.TopScore(e, v, n)
    ensures forall i: u64 :: i < n ==> e.score(v, i) <= e.score(v, j)
    decreases n
  {
    if n == 1 {
      j := 0;
    } else {
      j := TopIsHighest(e, v, n - 1);
      if e.score(v, n - 1) > e.score(v, j) { j := n - 1; }
    }
  }

  /** Entry `j` of `v` is at least as high as every entry of `u`, and higher unless `v` is `u` or comes first. */
  ghost predicate Tops(e: Hrw.Election, v: Hrw.Id, j: u64, u: Hrw.Id)
  {
    forall i: u64 :: i < Entries(e, u) ==>
      e.score(u, i) < e.score(v, j) || (e.score(u, i) == e.score(v, j) && (u == v || Precedes(v, u)))
  }

  ghost predicate HasTopEntry(e: Hrw.Election, all: set<Hrw.Id>, v: Hrw.Id, j: u64)
  {
    j < Entries(e, v) && forall u :: u in all ==> Tops(e, v, j, u)
  }

  /** The leader is the candidate with an entry that no entry of any candidate exceeds; of the candidates with such
      an entry, the one that comes first. */
  lemma {:induction false} LeaderHasTopEntry(e: Hrw.Election, all: set<Hrw.Id>, v: Hrw.Id)
    requires v in all
    ensures Hrw.IsLeader(e, all, v) <==> exists j: u64 :: HasTopEntry(e, all, v, j)
  {
    var j := TopIsHighest(e, v, Hrw.Copies(e, v));
    if Hrw.IsLeader(e, all, v) {
      forall u | u in all ensures Tops(e, v, j, u) {
        var k := TopIsHighest(e, u, Hrw.Copies(e, u));
        BeforePrecedes(v, u);
        if u != v { assert Hrw.Beats(Hrw.Score(e), v, u); }
      }
      assert HasTopEntry(e, all, v, j);
    }
    if i: u64 :| HasTopEntry(e, all, v, i) {
      assert Tops(e, v, i, v);
      forall u | u in all && u != v ensures Hrw.Beats(Hrw.Score(e), v, u) {
        var k := TopIsHighest(e, u, Hrw.Copies(e, u));
        assert Tops(e, v, i, u);
        BeforePrecedes(v, u);
      }
    }
  }

  /* ----- Election weights ----- */

  /** A validator whose last proof lies less than the window back weighs one more than its score; with an older proof
      it weighs one. With a window of zero no proof is ever too old. */
  lemma WeightIs(cfg: L.Config, height: u64, v: L.Validator)
    requires v.score < 0xFFFF_FFFF_FFFF_FFFF && v.lastProof + cfg.storageWindow < 0x1_0000_0000_0000_0000
    ensures var recent := cfg.storageWindow == 0 || height - v.lastProof < cfg.storageWindow;
            Registry.Weight(cfg, height, v) == if recent then v.score + 1 else 1
  {
  }
}
