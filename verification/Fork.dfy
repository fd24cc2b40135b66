/** The block tree and the fork-choice rule: most cumulative weight, ties to the smallest id. */
module Fork {
  import opened Words

  type Hash = s: seq<byte> | |s| == 32
    witness [0, 0, 0, 0, 0, 0, 0, 0, 0, 0, 0, 0, 0, 0, 0, 0, 0, 0, 0, 0, 0, 0, 0, 0, 0, 0, 0, 0, 0, 0, 0, 0]

  const ZERO: Hash := [0, 0, 0, 0, 0, 0, 0, 0, 0, 0, 0, 0, 0, 0, 0, 0, 0, 0, 0, 0, 0, 0, 0, 0, 0, 0, 0, 0, 0, 0, 0, 0]

  /** The position of the first difference, or the length when there is none. */
  function FirstDifference(a: seq<byte>, b: seq<byte>): (i: nat)
    requires |a| == |b|
    ensures i <= |a| && a[..i] == b[..i] && (i < |a| ==> a[i] != b[i])
  {
    if a == [] || a[0] != b[0] then 0
    else
      var i := 1 + FirstDifference(a[1..], b[1..]);
      assert a[..i] == [a[0]] + a[1..][..i - 1] && b[..i] == [b[0]] + b[1..][..i - 1];
      i
  }

  /** Lexicographic order. */
  predicate Below(a: Hash, b: Hash)
  {
    var i := FirstDifference(a, b);
    i < 32 && a[i] < b[i]
  }

  method Less(a: Hash, b: Hash) returns (r: bool)
    ensures r == Below(a, b)
  {
    for i := 0 to 32
      invariant a[..i] == b[..i]
    {
      if a[i] != b[i] {
        DifferenceAt(a, b, i);
        return a[i] < b[i];
      }
    }
    assert a[..32] == a && b[..32] == b;
    return false;
  }

  lemma DifferenceAt(a: Hash, b: Hash, i: nat)
    requires i < 32 && a[..i] == b[..i] && a[i] != b[i]
    ensures FirstDifference(a, b) == i
  {
    var j := FirstDifference(a, b);
    forall k | 0 <= k < i ensures a[k] == b[k] { assert a[..i][k] == b[..i][k]; }
    forall k | 0 <= k < j ensures a[k] == b[k] { assert a[..j][k] == b[..j][k]; }
  }

  lemma BelowIrreflexive(a: Hash)
    ensures !Below(a, a)
  {
  }

  lemma BelowTotal(a: Hash, b: Hash)
    ensures a == b || Below(a, b) || Below(b, a)
  {
    var i := FirstDifference(a, b);
    if i < 32 {
      DifferenceAt(b, a, i);
    } else {
      assert a[..32] == a && b[..32] == b;
    }
  }

  lemma BelowTransitive(a: Hash, b: Hash, c: Hash)
    requires Below(a, b) && Below(b, c)
    ensures Below(a, c)
  {
    var i, j := FirstDifference(a, b), FirstDifference(b, c);
    var k := if i < j then i else j;
    assert a[..k] == a[..i][..k] && b[..k] == b[..i][..k] && b[..k] == b[..j][..k] && c[..k] == c[..j][..k];
    if i < j {
      assert b[..j][i] == c[..j][i];
    } else if j < i {
      assert a[..i][j] == b[..i][j];
    }
    DifferenceAt(a, c, k);
  }

  datatype Entry = Entry(parent: Hash, height: nat, cum: nat)

  /** `id` is preferred to `other`. */
  predicate Heavier(nodes: map<Hash, Entry>, id: Hash, other: Hash)
    requires id in nodes && other in nodes
  {
    nodes[id].cum > nodes[other].cum || (nodes[id].cum == nodes[other].cum && Below(id, other))
  }

  /** The canonical tip: preferred to every other block. */
  ghost predicate IsBest(nodes: map<Hash, Entry>, id: Hash)
  {
    id in nodes && forall other :: other in nodes && other != id ==> Heavier(nodes, id, other)
  }

  lemma HeavierTransitive(nodes: map<Hash, Entry>, a: Hash, b: Hash, c: Hash)
    requires a in nodes && b in nodes && c in nodes && Heavier(nodes, a, b) && Heavier(nodes, b, c)
    ensures Heavier(nodes, a, c)
  {
    if nodes[a].cum == nodes[c].cum { BelowTransitive(a, b, c); }
  }

  /** There is only one: the choice does not depend on the order in which blocks were met. */
  lemma BestIsUnique(nodes: map<Hash, Entry>, a: Hash, b: Hash)
    requires IsBest(nodes, a) && IsBest(nodes, b)
    ensures a == b
  {
    if a != b {
      assert Heavier(nodes, a, b) && Heavier(nodes, b, a);
      BelowTransitive(a, b, a);
    }
  }

  /** Every tree with a block in it has a canonical tip. */
  lemma {:induction false} BestExists(nodes: map<Hash, Entry>) returns (best: Hash)
    requires nodes != map[]
    ensures IsBest(nodes, best)
    decreases |nodes|
  {
    var id :| id in nodes;
    var rest := map x | x in nodes && x != id :: nodes[x];
    assert nodes == rest[id := nodes[id]];
    if rest == map[] { return id; }
    assert |nodes| == |rest| + 1;
    var b := BestExists(rest);
    BelowTotal(id, b);
    if Heavier(nodes, id, b) {
      best := id;
      forall other | other in nodes && other != id && other != b ensures Heavier(nodes, id, other) {
        assert Heavier(rest, b, other);
        HeavierTransitive(nodes, id, b, other);
      }
    } else {
      best := b;
      forall other | other in nodes && other != id && other != b ensures Heavier(nodes, b, other) {
        assert Heavier(rest, b, other);
      }
    }
  }

  /** The canonical tip; the zero hash of an empty tree. */
  ghost function Best(nodes: map<Hash, Entry>): (best: Hash)
    ensures nodes != map[] ==> IsBest(nodes, best)
  {
    if nodes == map[] then ZERO
    else
      BestIsThere(nodes);
      var b :| IsBest(nodes, b);
      b
  }

  lemma BestIsThere(nodes: map<Hash, Entry>)
    requires nodes != map[]
    ensures exists b :: IsBest(nodes, b)
  {
    var b := BestExists(nodes);
  }

  /** Adding a known block again changes nothing. */
  function Added(nodes: map<Hash, Entry>, id: Hash, parent: Hash, height: nat, weight: nat): (r: map<Hash, Entry>)
  {
    if id in nodes then nodes
    else nodes[id := Entry(parent, height, weight + (if parent in nodes then nodes[parent].cum else 0))]
  }

  /** Following parents, up to the zero hash, never comes back: `rank` falls from child to parent. */
  ghost predicate Acyclic(nodes: map<Hash, Entry>, rank: Hash -> nat)
  {
    forall id :: id in nodes ==> BelowChild(nodes, rank, id, nodes[id].parent)
  }

  ghost predicate BelowChild(nodes: map<Hash, Entry>, rank: Hash -> nat, id: Hash, parent: Hash)
  {
    parent in nodes && parent != ZERO ==> rank(parent) < rank(id)
  }

  ghost function Depth(nodes: map<Hash, Entry>, rank: Hash -> nat, id: Hash): (r: nat)
  {
    if id in nodes then rank(id) + 1 else 0
  }

  /** A block and its known ancestors; the zero hash is nobody's parent. */
  ghost function Line(nodes: map<Hash, Entry>, rank: Hash -> nat, id: Hash): (s: set<Hash>)
    requires Acyclic(nodes, rank)
    decreases if id in nodes then rank(id) else 0, 1
  {
    if id !in nodes then {} else {id} + Above(nodes, rank, nodes[id].parent, id)
  }

  /** The line from a parent on. */
  ghost function Above(nodes: map<Hash, Entry>, rank: Hash -> nat, id: Hash, child: Hash): (s: set<Hash>)
    requires Acyclic(nodes, rank) && child in nodes && nodes[child].parent == id
    decreases rank(child), 0
  {
    assert BelowChild(nodes, rank, child, id);
    if id == ZERO || id !in nodes then {} else Line(nodes, rank, id)
  }

  lemma {:induction false} LineSteps(nodes: map<Hash, Entry>, rank: Hash -> nat, id: Hash)
    requires Acyclic(nodes, rank)
    ensures forall x :: x in Line(nodes, rank, id) ==>
              x in nodes && Depth(nodes, rank, x) <= Depth(nodes, rank, id) && (x == ZERO ==> id == ZERO)
    ensures id in nodes ==> id in Line(nodes, rank, id)
    ensures id in nodes && nodes[id].parent != ZERO ==>
              Line(nodes, rank, id) == {id} + Line(nodes, rank, nodes[id].parent)
              && id !in Line(nodes, rank, nodes[id].parent)
    ensures id in nodes && nodes[id].parent == ZERO ==> Line(nodes, rank, id) == {id}
    decreases Depth(nodes, rank, id)
  {
    if id in nodes && nodes[id].parent != ZERO {
      assert BelowChild(nodes, rank, id, nodes[id].parent);
      LineSteps(nodes, rank, nodes[id].parent);
    }
  }

  /** The line of an ancestor is part of the line. */
  lemma {:induction false} LineNests(nodes: map<Hash, Entry>, rank: Hash -> nat, id: Hash, x: Hash)
    requires Acyclic(nodes, rank) && x in Line(nodes, rank, id)
    ensures Line(nodes, rank, x) <= Line(nodes, rank, id)
    decreases Depth(nodes, rank, id)
  {
    if x != id {
      LineSteps(nodes, rank, id);
      assert BelowChild(nodes, rank, id, nodes[id].parent);
      LineNests(nodes, rank, nodes[id].parent, x);
    }
  }

  class Tree {
    var nodes: map<Hash, Entry>

    constructor ()
      ensures nodes == map[]
    {
      nodes := map[];
    }

    method Add(id: Hash, parent: Hash, height: nat, weight: nat)
      modifies this
      ensures nodes == Added(old(nodes), id, parent, height, weight)
    {
      if id in nodes { return; }
      var cum := weight;
      if parent in nodes { cum := cum + nodes[parent].cum; }
      nodes := nodes[id := Entry(parent, height, cum)];
    }

    /** The blocks are visited in no particular order. */
    method Best() returns (best: Hash, bestCum: nat)
      ensures nodes == map[] ==> best == ZERO && bestCum == 0
      ensures nodes != map[] ==> IsBest(nodes, best) && bestCum == nodes[best].cum
    {
      best, bestCum := ZERO, 0;
      var first, rest := true, nodes.Keys;
      while rest != {}
        invariant rest <= nodes.Keys && (first <==> rest == nodes.Keys)
        invariant first ==> best == ZERO && bestCum == 0
        invariant !first ==> best in nodes && best !in rest && bestCum == nodes[best].cum
        invariant !first ==> forall other :: other in nodes && other !in rest && other != best ==>
                                               Heavier(nodes, best, other)
        decreases |rest|
      {
        var id :| id in rest;
        var e := nodes[id];
        var below := Less(id, best);
        if first || e.cum > bestCum || (e.cum == bestCum && below) {
          Overtakes(nodes, best, id, rest, first);
          best, bestCum, first := id, e.cum, false;
        } else {
          BelowTotal(id, best);
        }
        rest := rest - {id};
      }
    }

    /** Walks both branches back to their first shared block. */
    method CommonAncestor(a: Hash, b: Hash, ghost rank: Hash -> nat) returns (c: Hash, ok: bool)
      requires Acyclic(nodes, rank) && (ZERO in nodes ==> a != ZERO && b != ZERO)
      ensures ok <==> Line(nodes, rank, a) * Line(nodes, rank, b) != {}
      ensures ok ==>
                c in Line(nodes, rank, a) && c in Line(nodes, rank, b)
                && Line(nodes, rank, a) * Line(nodes, rank, b) == Line(nodes, rank, c)
      ensures !ok ==> c == ZERO
    {
      var seen: set<Hash> := {};
      var x := a;
      while x in nodes
        invariant Line(nodes, rank, a) == seen + Line(nodes, rank, x) && (x in nodes ==> x != ZERO)
        decreases Depth(nodes, rank, x)
      {
        seen := seen + {x};
        LineSteps(nodes, rank, x);
        assert BelowChild(nodes, rank, x, nodes[x].parent);
        if x == nodes[x].parent { assert false; }
        x := nodes[x].parent;
        if x == ZERO {
          assert seen == Line(nodes, rank, a);
          break;
        }
      }
      assert seen == Line(nodes, rank, a);
      LineSteps(nodes, rank, a);
      c, ok := FirstSeen(a, b, seen, rank);
    }

    /** The walk from `b` to the first block already seen. */
    method FirstSeen(ghost a: Hash, b: Hash, seen: set<Hash>, ghost rank: Hash -> nat) returns (c: Hash, ok: bool)
      requires Acyclic(nodes, rank) && (ZERO in nodes ==> b != ZERO) && seen == Line(nodes, rank, a) && ZERO !in seen
      ensures ok <==> seen * Line(nodes, rank, b) != {}
      ensures ok ==>
                c in seen && c in Line(nodes, rank, b) && seen * Line(nodes, rank, b) == Line(nodes, rank, c)
      ensures !ok ==> c == ZERO
    {
      var y := b;
      while true
        invariant y == ZERO ==> seen * Line(nodes, rank, b) == {}
        invariant y != ZERO ==>
                    seen * Line(nodes, rank, b) == seen * Line(nodes, rank, y)
                    && Line(nodes, rank, y) <= Line(nodes, rank, b)
        decreases if y == ZERO then 0 else 1 + Depth(nodes, rank, y)
      {
        LineSteps(nodes, rank, y);
        if y in seen {
          LineSteps(nodes, rank, a);
          LineNests(nodes, rank, a, y);
          assert y in seen * Line(nodes, rank, b);
          return y, true;
        }
        if y !in nodes || y == ZERO { break; }
        assert BelowChild(nodes, rank, y, nodes[y].parent);
        y := nodes[y].parent;
      }
      return ZERO, false;
    }

    method Height(id: Hash) returns (h: nat, ok: bool)
      ensures ok == (id in nodes) && h == (if ok then nodes[id].height else 0)
    {
      if id in nodes { return nodes[id].height, true; }
      return 0, false;
    }
  }

  /** A block preferred to the best so far is preferred to everything seen so far. */
  lemma Overtakes(nodes: map<Hash, Entry>, best: Hash, id: Hash, rest: set<Hash>, first: bool)
    requires id in nodes && id in rest && rest <= nodes.Keys && (first ==> rest == nodes.Keys)
    requires !first ==> best in nodes && best !in rest && Heavier(nodes, id, best)
    requires !first ==> forall other :: other in nodes && other !in rest && other != best ==>
                                          Heavier(nodes, best, other)
    ensures forall other :: other in nodes && other !in rest ==> Heavier(nodes, id, other)
  {
    forall other | other in nodes && other !in rest ensures Heavier(nodes, id, other) {
      if other != best { HeavierTransitive(nodes, id, best, other); }
    }
  }
}
