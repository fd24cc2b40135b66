/** Rendezvous hashing: shard holders and the storage-weighted leader, as choices by highest score. */
module Hrw {
  import opened Words
  import opened Sets

  type Id = seq<byte>

  /* ----- Byte strings in order ----- */

  predicate Before(a: Id, b: Id)
  {
    if b == [] then false
    else if a == [] then true
    else a[0] < b[0] || (a[0] == b[0] && Before(a[1..], b[1..]))
  }

  lemma {:induction false} BeforeTotal(a: Id, b: Id)
    ensures a == b || Before(a, b) || Before(b, a)
    ensures !(Before(a, b) && Before(b, a)) && !Before(a, a)
  {
    BeforeIrreflexive(a);
    if a != [] && b != [] {
      BeforeTotal(a[1..], b[1..]);
      if a[0] == b[0] && a[1..] == b[1..] { assert a == [a[0]] + a[1..] && b == [b[0]] + b[1..]; }
    }
  }

  lemma {:induction false} BeforeIrreflexive(a: Id)
    ensures !Before(a, a)
  {
    if a != [] { BeforeIrreflexive(a[1..]); }
  }

  lemma {:induction false} BeforeTransitive(a: Id, b: Id, c: Id)
    requires Before(a, b) && Before(b, c)
    ensures Before(a, c)
  {
    if a != [] && a[0] == b[0] && b[0] == c[0] { BeforeTransitive(a[1..], b[1..], c[1..]); }
  }

  /* ----- Ranking by score, ties to the smaller id ----- */

  predicate Beats(score: Id -> u64, x: Id, y: Id)
  {
    score(x) > score(y) || (score(x) == score(y) && Before(x, y))
  }

  lemma BeatsTotal(score: Id -> u64, x: Id, y: Id)
    ensures x == y || Beats(score, x, y) || Beats(score, y, x)
    ensures !(Beats(score, x, y) && Beats(score, y, x)) && !Beats(score, x, x)
  {
    BeforeTotal(x, y);
    BeforeIrreflexive(x);
  }

  lemma BeatsTransitive(score: Id -> u64, x: Id, y: Id, z: Id)
    requires Beats(score, x, y) && Beats(score, y, z)
    ensures Beats(score, x, z)
  {
    if score(x) == score(z) { BeforeTransitive(x, y, z); }
  }

  function Insert(score: Id -> u64, x: Id, s: seq<Id>): (r: seq<Id>)
    ensures |r| == |s| + 1 && multiset(r) == multiset(s) + multiset{x}
  {
    if s == [] then [x]
    else if Beats(score, x, s[0]) then [x] + s
    else
      assert s == [s[0]] + s[1..];
      [s[0]] + Insert(score, x, s[1..])
  }

  function Sort(score: Id -> u64, s: seq<Id>): (r: seq<Id>)
    ensures |r| == |s| && multiset(r) == multiset(s)
  {
    if s == [] then []
    else
      assert s == s[..|s| - 1] + [s[|s| - 1]];
      Insert(score, s[|s| - 1], Sort(score, s[..|s| - 1]))
  }

  ghost predicate Distinct(s: seq<Id>)
  {
    forall i, j :: 0 <= i < j < |s| ==> s[i] != s[j]
  }

  /** Each beats all that come after it. */
  ghost predicate Ranked(score: Id -> u64, s: seq<Id>)
  {
    forall i, j :: 0 <= i < j < |s| ==> Beats(score, s[i], s[j])
  }

  function Elements(s: seq<Id>): (r: set<Id>)
  {
    set x | x in s
  }

  lemma {:induction false} InsertRanks(score: Id -> u64, x: Id, s: seq<Id>)
    requires Ranked(score, s) && x !in s
    ensures Ranked(score, Insert(score, x, s))
  {
    if s != [] {
      if Beats(score, x, s[0]) {
        forall j | 0 < j < |s| ensures Beats(score, x, s[j]) { BeatsTransitive(score, x, s[0], s[j]); }
      } else {
        BeatsTotal(score, x, s[0]);
        InsertRanks(score, x, s[1..]);
        var r := Insert(score, x, s[1..]);
        forall j | 0 <= j < |r| ensures Beats(score, s[0], r[j]) {
          assert r[j] in multiset(r);
          assert r[j] in s[1..] || r[j] == x;
        }
      }
    }
  }

  lemma {:induction false} SortRanks(score: Id -> u64, s: seq<Id>)
    requires Distinct(s)
    ensures Ranked(score, Sort(score, s))
  {
    if s != [] {
      var front, last := s[..|s| - 1], s[|s| - 1];
      SortRanks(score, front);
      assert last !in front;
      assert last !in multiset(Sort(score, front));
      InsertRanks(score, last, Sort(score, front));
    }
  }

  lemma SortKeeps(score: Id -> u64, s: seq<Id>)
    ensures Elements(Sort(score, s)) == Elements(s)
  {
    forall x ensures x in Sort(score, s) <==> x in s {
      assert x in Sort(score, s) <==> x in multiset(Sort(score, s));
      assert x in s <==> x in multiset(s);
    }
  }

  /* ----- Holders ----- */

  /** How many of `nodes` beat `x`. */
  function RankOf(score: Id -> u64, nodes: set<Id>, x: Id): (n: nat)
  {
    |set y | y in nodes && Beats(score, y, x)|
  }

  /** The nodes that fewer than `r` others beat. */
  function HolderSet(score: Id -> u64, nodes: set<Id>, r: nat): (s: set<Id>)
  {
    set x | x in nodes && RankOf(score, nodes, x) < r
  }

  lemma {:induction false} PrefixSize(s: seq<Id>, k: nat)
    requires Distinct(s) && k <= |s|
    ensures |Elements(s[..k])| == k
  {
    if k > 0 {
      PrefixSize(s, k - 1);
      assert s[..k] == s[..k - 1] + [s[k - 1]];
      assert Elements(s[..k]) == Elements(s[..k - 1]) + {s[k - 1]};
    } else {
      assert Elements(s[..0]) == {};
    }
  }

  lemma RankedIsDistinct(score: Id -> u64, s: seq<Id>)
    requires Ranked(score, s)
    ensures Distinct(s)
  {
    forall i, j | 0 <= i < j < |s| ensures s[i] != s[j] { BeatsTotal(score, s[i], s[j]); }
  }

  /** In a ranked list, a node's position is its rank. */
  lemma PositionIsRank(score: Id -> u64, s: seq<Id>, k: nat)
    requires Ranked(score, s) && k < |s|
    ensures RankOf(score, Elements(s), s[k]) == k
  {
    RankedIsDistinct(score, s);
    PrefixSize(s, k);
    forall y | y in s && Beats(score, y, s[k]) ensures y in s[..k] {
      var i :| 0 <= i < |s| && s[i] == y;
      BeatsTotal(score, s[i], s[k]);
      assert s[..k][i] == y;
    }
    forall y | y in s[..k] ensures y in s && Beats(score, y, s[k]) {
      var j :| 0 <= j < k && s[..k][j] == y;
      assert s[j] == y;
    }
    assert (set y | y in Elements(s) && Beats(score, y, s[k])) == Elements(s[..k]);
  }

  /* ----- Lists that may repeat a node ----- */

  /** How many entries of the list beat `x`. */
  function Ahead(score: Id -> u64, s: seq<Id>, x: Id): (n: nat)
  {
    if s == [] then 0 else (if Beats(score, s[0], x) then 1 else 0) + Ahead(score, s[1..], x)
  }

  lemma {:induction false} AheadInsert(score: Id -> u64, y: Id, s: seq<Id>, x: Id)
    ensures Ahead(score, Insert(score, y, s), x) == Ahead(score, s, x) + if Beats(score, y, x) then 1 else 0
  {
    if s != [] && !Beats(score, y, s[0]) {
      AheadInsert(score, y, s[1..], x);
    } else {
      assert ([y] + s)[1..] == s;
    }
  }

  lemma {:induction false} AheadLast(score: Id -> u64, s: seq<Id>, y: Id, x: Id)
    ensures Ahead(score, s + [y], x) == Ahead(score, s, x) + if Beats(score, y, x) then 1 else 0
  {
    if s == [] {
      assert [] + [y] == [y] && [y][1..] == [];
    } else {
      AheadLast(score, s[1..], y, x);
      assert (s + [y])[1..] == s[1..] + [y];
    }
  }

  lemma {:induction false} AheadSort(score: Id -> u64, s: seq<Id>, x: Id)
    ensures Ahead(score, Sort(score, s), x) == Ahead(score, s, x)
  {
    if s != [] {
      var front, last := s[..|s| - 1], s[|s| - 1];
      assert s == front + [last];
      AheadLast(score, front, last, x);
      AheadSort(score, front, x);
      AheadInsert(score, last, Sort(score, front), x);
    }
  }

  /** None is beaten by one that comes after it. */
  ghost predicate Falling(score: Id -> u64, s: seq<Id>)
  {
    forall i, j :: 0 <= i < j < |s| ==> !Beats(score, s[j], s[i])
  }

  lemma {:induction false} InsertFalls(score: Id -> u64, x: Id, s: seq<Id>)
    requires Falling(score, s)
    ensures Falling(score, Insert(score, x, s))
  {
    if s == [] {
    } else if Beats(score, x, s[0]) {
      forall j | 0 <= j < |s| ensures !Beats(score, s[j], x) {
        if Beats(score, s[j], x) {
          BeatsTransitive(score, s[j], x, s[0]);
          BeatsTotal(score, s[j], s[0]);
        }
      }
    } else {
      InsertFalls(score, x, s[1..]);
      var r := Insert(score, x, s[1..]);
      forall j | 0 <= j < |r| ensures !Beats(score, r[j], s[0]) {
        assert r[j] in multiset(r);
        assert r[j] in s[1..] || r[j] == x;
      }
    }
  }

  lemma {:induction false} SortFalls(score: Id -> u64, s: seq<Id>)
    ensures Falling(score, Sort(score, s))
  {
    if s != [] {
      SortFalls(score, s[..|s| - 1]);
      InsertFalls(score, s[|s| - 1], Sort(score, s[..|s| - 1]));
    }
  }

  lemma {:induction false} NoneAhead(score: Id -> u64, s: seq<Id>, x: Id)
    requires forall j :: 0 <= j < |s| ==> !Beats(score, s[j], x)
    ensures Ahead(score, s, x) == 0
  {
    if s != [] { NoneAhead(score, s[1..], x); }
  }

  /** In a falling list a node first comes after exactly the entries that beat it. */
  lemma {:induction false} FirstAt(score: Id -> u64, s: seq<Id>, x: Id, n: nat)
    requires Falling(score, s) && x in s && n <= |s|
    ensures x in s[..n] <==> Ahead(score, s, x) < n
  {
    BeatsTotal(score, s[0], x);
    if s[0] == x {
      NoneAhead(score, s, x);
      if n > 0 { assert s[..n][0] == x; }
    } else {
      var k :| 0 <= k < |s| && s[k] == x;
      assert !Beats(score, s[k], s[0]);
      assert x == s[1..][k - 1];
      if n > 0 {
        FirstAt(score, s[1..], x, n - 1);
        assert s[..n] == [s[0]] + s[1..][..n - 1];
      }
    }
  }

  /** The top of the ranking is what fewer than `r` entries of the list beat. */
  lemma TopIsAhead(score: Id -> u64, nodes: seq<Id>, r: nat, n: nat, x: Id)
    requires n == (if r > |nodes| then |nodes| else r)
    ensures x in Sort(score, nodes)[..n] <==> x in nodes && Ahead(score, nodes, x) < r
  {
    var s := Sort(score, nodes);
    assert x in s <==> x in multiset(s);
    assert x in nodes <==> x in multiset(nodes);
    if x in nodes {
      SortFalls(score, nodes);
      AheadSort(score, nodes, x);
      FirstAt(score, s, x, n);
      FirstAt(score, s, x, |s|);
      assert s[..|s|] == s;
    }
  }

  /** One more node among those that may beat `x`. */
  lemma RankGrows(score: Id -> u64, nodes: set<Id>, y: Id, x: Id)
    requires y !in nodes
    ensures RankOf(score, {y} + nodes, x) == RankOf(score, nodes, x) + if Beats(score, y, x) then 1 else 0
  {
    var before, after := set z | z in nodes && Beats(score, z, x), set z | z in {y} + nodes && Beats(score, z, x);
    assert after == if Beats(score, y, x) then {y} + before else before;
  }

  lemma ElementsOf(s: seq<Id>)
    requires s != []
    ensures Elements(s) == {s[0]} + Elements(s[1..])
  {
    assert s == [s[0]] + s[1..];
  }

  /**
   Without repeats the entries that beat a node are the nodes that do, so being a holder is being in the
   holder set.
   */
  lemma {:induction false} AheadIsRank(score: Id -> u64, s: seq<Id>, x: Id)
    requires Distinct(s)
    ensures Ahead(score, s, x) == RankOf(score, Elements(s), x)
  {
    if s == [] {
      assert (set y | y in Elements(s) && Beats(score, y, x)) == {};
    } else {
      AheadIsRank(score, s[1..], x);
      ElementsOf(s);
      assert s[0] !in s[1..];
      RankGrows(score, Elements(s[1..]), s[0], x);
    }
  }

  method Holders(score: Id -> u64, nodes: seq<Id>, r: int) returns (out: seq<Id>)
    ensures forall x :: x in out <==> x in nodes && Ahead(score, nodes, x) < r
    ensures out == if r <= 0 then [] else Sort(score, nodes)[..if r > |nodes| then |nodes| else r]
    ensures Distinct(nodes) ==> Elements(out) == HolderSet(score, Elements(nodes), if r < 0 then 0 else r)
    ensures Distinct(nodes) ==> Distinct(out) && |out| == (if r < 0 then 0 else if r > |nodes| then |nodes| else r)
  {
    if r <= 0 || |nodes| == 0 {
      NoHolders(score, Elements(nodes));
      return [];
    }
    var rs: seq<Id> := [];
    var i := 0;
    while i < |nodes|
      invariant 0 <= i <= |nodes| && rs == Sort(score, nodes[..i])
    {
      assert nodes[..i + 1][..i] == nodes[..i];
      rs := Insert(score, nodes[i], rs);
      i := i + 1;
    }
    assert nodes[..i] == nodes;
    var n := if r > |rs| then |rs| else r;
    out := rs[..n];
    forall x ensures x in out <==> x in nodes && Ahead(score, nodes, x) < r { TopIsAhead(score, nodes, r, n, x); }
    if Distinct(nodes) { TopAreHolders(score, nodes, r, n); }
  }

  lemma NoHolders(score: Id -> u64, nodes: set<Id>)
    ensures HolderSet(score, nodes, 0) == {} && (nodes == {} ==> forall r: nat :: HolderSet(score, nodes, r) == {})
  {
  }

  lemma {:induction false} TopAreHolders(score: Id -> u64, nodes: seq<Id>, r: nat, n: nat)
    requires Distinct(nodes) && n == (if r > |nodes| then |nodes| else r)
    ensures var out := Sort(score, nodes)[..n];
            Distinct(out) && Elements(out) == HolderSet(score, Elements(nodes), r)
  {
    var s := Sort(score, nodes);
    SortRanks(score, nodes);
    SortKeeps(score, nodes);
    RankedIsDistinct(score, s);
    forall k | 0 <= k < |s| ensures RankOf(score, Elements(nodes), s[k]) == k { PositionIsRank(score, s, k); }
    forall x ensures x in s[..n] <==> x in HolderSet(score, Elements(nodes), r) {
      if x in s[..n] {
        var k :| 0 <= k < n && s[..n][k] == x;
        assert s[k] == x && x in Elements(s);
      }
      if x in HolderSet(score, Elements(nodes), r) {
        assert x in Elements(s);
        var k :| 0 <= k < |s| && s[k] == x;
        assert s[..n][k] == x;
      }
    }
  }

  method IsHolder(score: Id -> u64, nodeId: Id, nodes: seq<Id>, r: int) returns (b: bool)
    ensures b == (nodeId in nodes && Ahead(score, nodes, nodeId) < r)
    ensures Distinct(nodes) ==> b == (nodeId in HolderSet(score, Elements(nodes), if r < 0 then 0 else r))
  {
    var hs := Holders(score, nodes, r);
    b := IsAmong(nodeId, hs);
    assert Distinct(nodes) ==> (nodeId in hs <==> nodeId in Elements(hs));
  }

  method IsAmong(nodeId: Id, hs: seq<Id>) returns (b: bool)
    ensures b == (nodeId in hs)
  {
    for i := 0 to |hs|
      invariant forall j :: 0 <= j < i ==> hs[j] != nodeId
    {
      if hs[i] == nodeId { return true; }
    }
    return false;
  }

  /** `scores(i)` ranks the nodes for shard `i`. */
  method AssignedShards(scores: int -> Id -> u64, nodeId: Id, nodes: seq<Id>, total: int, r: int)
      returns (out: seq<int>)
    ensures forall i, j :: 0 <= i < j < |out| ==> out[i] < out[j]
    ensures forall k :: k in out <==> 0 <= k < total && nodeId in nodes && Ahead(scores(k), nodes, nodeId) < r
  {
    out := [];
    var i := 0;
    while i < total
      invariant 0 <= i && (total >= 0 ==> i <= total) && (total < 0 ==> i == 0)
      invariant forall i, j :: 0 <= i < j < |out| ==> out[i] < out[j]
      invariant forall j :: 0 <= j < |out| ==> out[j] < i
      invariant forall k :: k in out <==> 0 <= k < i && nodeId in nodes && Ahead(scores(k), nodes, nodeId) < r
    {
      var held := IsHolder(scores(i), nodeId, nodes, r);
      if held { out := out + [i]; }
      i := i + 1;
    }
  }

  /** The holders are a function of the set of nodes: the order they are listed in does not matter. */
  lemma {:induction false} HoldersIgnoreOrder(score: Id -> u64, nodes: seq<Id>, nodes': seq<Id>)
    requires Distinct(nodes) && Distinct(nodes') && Elements(nodes) == Elements(nodes')
    ensures Sort(score, nodes) == Sort(score, nodes')
  {
    SortRanks(score, nodes);
    SortRanks(score, nodes');
    SortKeeps(score, nodes);
    SortKeeps(score, nodes');
    RankedIsUnique(score, Sort(score, nodes), Sort(score, nodes'));
  }

  lemma {:induction false} RankedIsUnique(score: Id -> u64, s: seq<Id>, t: seq<Id>)
    requires Ranked(score, s) && Ranked(score, t) && Elements(s) == Elements(t)
    ensures s == t
  {
    RankedIsDistinct(score, s);
    RankedIsDistinct(score, t);
    PrefixSize(s, |s|);
    PrefixSize(t, |t|);
    assert s[..|s|] == s && t[..|t|] == t;
    forall k | 0 <= k < |s| ensures s[k] == t[k] {
      PositionIsRank(score, s, k);
      assert s[k] in Elements(t);
      var i :| 0 <= i < |t| && t[i] == s[k];
      PositionIsRank(score, t, i);
    }
  }

  /* ----- Adding a node ----- */

  lemma RankWithNew(score: Id -> u64, nodes: set<Id>, z: Id, x: Id)
    requires z !in nodes && x != z
    ensures RankOf(score, nodes + {z}, x) == RankOf(score, nodes, x) + (if Beats(score, z, x) then 1 else 0)
  {
    var old' := set y | y in nodes && Beats(score, y, x);
    var new' := set y | y in nodes + {z} && Beats(score, y, x);
    if Beats(score, z, x) { assert new' == old' + {z}; } else { assert new' == old'; }
  }

  /** Different nodes have different ranks. */
  lemma RankIsStrict(score: Id -> u64, nodes: set<Id>, x: Id, y: Id)
    requires x in nodes && y in nodes && Beats(score, x, y)
    ensures RankOf(score, nodes, x) < RankOf(score, nodes, y)
  {
    var a := set u | u in nodes && Beats(score, u, x);
    var b := set u | u in nodes && Beats(score, u, y);
    forall u | u in a ensures u in b { BeatsTransitive(score, u, x, y); }
    BeatsTotal(score, x, x);
    assert a <= b - {x};
    SubsetSize(a, b - {x});
  }

  /**
   A newcomer takes a shard from at most one holder, and only by taking its place; nobody else gains
   or loses one.
   */
  lemma {:induction false} NewcomerEvictsOne(score: Id -> u64, nodes: set<Id>, r: nat, z: Id)
    requires z !in nodes
    ensures var before, after := HolderSet(score, nodes, r), HolderSet(score, nodes + {z}, r);
            && after - {z} <= before
            && (before <= after || (z in after && exists x :: before - after == {x}))
  {
    var before, after := HolderSet(score, nodes, r), HolderSet(score, nodes + {z}, r);
    forall x | x in after && x != z ensures x in before { RankWithNew(score, nodes, z, x); }
    if x :| x in before && x !in after {
      RankWithNew(score, nodes, z, x);
      assert Beats(score, z, x) && RankOf(score, nodes, x) == r - 1;
      RankIsStrict(score, nodes + {z}, z, x);
      forall y | y in before - after ensures y == x {
        RankWithNew(score, nodes, z, y);
        BeatsTotal(score, x, y);
        if Beats(score, x, y) {
          RankIsStrict(score, nodes, x, y);
        } else if Beats(score, y, x) {
          RankIsStrict(score, nodes, y, x);
        }
      }
      assert before - after == {x};
    }
  }

  /* ----- The leader ----- */

  /** Validators without repeats, in order. */
  method ValidatorSet(validators: seq<Id>) returns (all: set<Id>, list: seq<Id>)
    ensures all == Elements(validators) && Elements(list) == all && Distinct(list)
    ensures forall i, j :: 0 <= i < j < |list| ==> Before(list[i], list[j])
  {
    all, list := {}, [];
    var unsorted: seq<Id> := [];
    for i := 0 to |validators|
      invariant all == Elements(validators[..i]) && Elements(unsorted) == all && Distinct(unsorted)
    {
      assert validators[..i + 1] == validators[..i] + [validators[i]];
      if validators[i] !in all {
        all := all + {validators[i]};
        unsorted := unsorted + [validators[i]];
      }
    }
    assert validators[..|validators|] == validators;
    list := Sort(Alike, unsorted);
    SortRanks(Alike, unsorted);
    SortKeeps(Alike, unsorted);
    RankedIsDistinct(Alike, list);
    forall i, j | 0 <= i < j < |list| ensures Before(list[i], list[j]) { assert Beats(Alike, list[i], list[j]); }
  }

  /** With equal scores the ranking is the order of ids. */
  function Alike(x: Id): (s: u64) { 0 }

  /** `score(v, j)` is the score of a validator's j-th entry; it has `copies(v)` of them, at least one. */
  datatype Election = Election(score: (Id, u64) -> u64, weights: Option<map<Id, u64>>)

  function Copies(e: Election, v: Id): (n: u64)
    ensures n >= 1
  {
    if e.weights.Some? && v in e.weights.value && e.weights.value[v] > 1 then e.weights.value[v] else 1
  }

  /** The best of a validator's first `n` entries. */
  function TopScore(e: Election, v: Id, n: u64): (s: u64)
    requires n >= 1
    decreases n
  {
    if n == 1 then e.score(v, 0)
    else
      var s, t := TopScore(e, v, n - 1), e.score(v, n - 1);
      if t > s then t else s
  }

  function Score(e: Election): (f: Id -> u64)
  {
    (v: Id) => TopScore(e, v, Copies(e, v))
  }

  /** A member of the set that beats all others. */
  ghost predicate IsLeader(e: Election, all: set<Id>, v: Id)
  {
    v in all && forall u :: u in all && u != v ==> Beats(Score(e), v, u)
  }

  lemma LeaderIsUnique(e: Election, all: set<Id>, v: Id, u: Id)
    requires IsLeader(e, all, v) && IsLeader(e, all, u)
    ensures v == u
  {
    BeatsTotal(Score(e), u, v);
  }

  /** The empty id stands for "no leader yet", so it is never elected over another. */
  function Candidates(validators: seq<Id>): (c: set<Id>)
  {
    Elements(validators) - {[]}
  }

  /** Every entry of every validator is compared with the best so far. */
  method LeaderFor(e: Election, validators: seq<Id>) returns (best: Id)
    ensures Candidates(validators) == {} ==> best == []
    ensures Candidates(validators) != {} ==> IsLeader(e, Candidates(validators), best)
  {
    var all, list := ValidatorSet(validators);
    best := [];
    var bestScore: u64 := 0;
    ghost var seen: seq<Id> := [];
    for i := 0 to |list|
      invariant Candidates(list[..i]) == Elements(seen) && forall u :: u in seen ==> u in list[..i]
      invariant Leads(e, seen, best, bestScore)
    {
      var v := list[i];
      assert list[..i + 1] == list[..i] + [v];
      assert v !in list[..i];
      forall u | u in seen ensures Before(u, v) { var k :| 0 <= k < i && list[..i][k] == u; assert list[k] == u; }
      best, bestScore := Entries(e, v, best, bestScore, seen);
      OneMore(list[..i], v, seen);
      if v != [] { seen := seen + [v]; }
    }
    assert list[..|list|] == list;
    assert Candidates(list) == Candidates(validators);
    forall u | u in Candidates(validators) ensures u in seen { assert u in Elements(seen); }
    if seen == [] { assert Elements(seen) == {}; } else { assert best in Elements(seen); }
  }

  lemma OneMore(list: seq<Id>, v: Id, seen: seq<Id>)
    requires Candidates(list) == Elements(seen)
    ensures Candidates(list + [v]) == Elements(if v == [] then seen else seen + [v])
  {
    assert Elements(list + [v]) == Elements(list) + {v} && Elements(seen + [v]) == Elements(seen) + {v};
  }

  /** The best of the validators seen so far, and its score. */
  ghost predicate Leads(e: Election, seen: seq<Id>, best: Id, score: u64)
  {
    [] !in seen
    && (seen == [] ==> best == [])
    && (seen != [] ==>
          best in seen && score == Score(e)(best) && forall u :: u in seen && u != best ==> Beats(Score(e), best, u))
  }

  /** All entries of one validator against the best so far. */
  method Entries(e: Election, v: Id, best0: Id, score0: u64, ghost seen: seq<Id>) returns (best: Id, bestScore: u64)
    requires v !in seen && (forall u :: u in seen ==> Before(u, v)) && Leads(e, seen, best0, score0)
    ensures Leads(e, if v == [] then seen else seen + [v], best, bestScore)
  {
    best, bestScore := best0, score0;
    var copies := Copies(e, v);
    var j: u64 := 0;
    if seen != [] { BeforeTotal(seen[0], v); }
    while j < copies
      invariant j <= copies
      invariant j == 0 ==> best == best0 && bestScore == score0
      invariant v == [] ==> best == []
      invariant j > 0 && v != [] ==>
                  best != [] && bestScore == (if best == v then TopScore(e, v, j) else score0)
                  && (best == v || best == best0)
      invariant j > 0 && v != [] && best == v && seen != [] ==> TopScore(e, v, j) > score0
      invariant j > 0 && v != [] && best != v ==> seen != [] && TopScore(e, v, j) <= score0
    {
      var s := e.score(v, j);
      if seen != [] { BeforeTotal(best0, v); }
      if best == [] || s > bestScore || (s == bestScore && Before(v, best)) {
        best, bestScore := v, s;
      }
      j := j + 1;
    }
    if v != [] && seen != [] {
      forall u | u in seen && u != best ensures Beats(Score(e), best, u) {
        if best == v && u != best0 { BeatsTransitive(Score(e), v, best0, u); }
      }
    }
  }

  /* ----- More weight ----- */

  lemma {:induction false} MoreEntries(e: Election, v: Id, m: u64, n: u64)
    requires 1 <= m <= n
    ensures TopScore(e, v, m) <= TopScore(e, v, n)
    decreases n
  {
    if m < n { MoreEntries(e, v, m, n - 1); }
  }

  lemma {:induction false} SameEntries(e: Election, e': Election, v: Id, n: u64)
    requires e.score == e'.score && n >= 1
    ensures TopScore(e, v, n) == TopScore(e', v, n)
    decreases n
  {
    if n > 1 { SameEntries(e, e', v, n - 1); }
  }

  /** Raising one validator's weight keeps the leader or makes that validator the leader. */
  lemma {:induction false} WeightIsMonotone(e: Election, e': Election, all: set<Id>, v: Id, leader: Id, leader': Id)
    requires e.score == e'.score && Copies(e, v) <= Copies(e', v)
             && forall u :: u in all && u != v ==> Copies(e, u) == Copies(e', u)
    requires IsLeader(e, all, leader) && IsLeader(e', all, leader')
    ensures leader' == leader || leader' == v
  {
    if leader' != v {
      forall u | u in all && u != leader' ensures Beats(Score(e), leader', u) {
        assert Beats(Score(e'), leader', u);
        SameEntries(e, e', leader', Copies(e, leader'));
        SameEntries(e, e', u, Copies(e, u));
        MoreEntries(e', u, Copies(e, u), Copies(e', u));
      }
      LeaderIsUnique(e, all, leader, leader');
    }
  }
}
