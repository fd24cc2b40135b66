/** The chain object: the methods that receive and produce blocks, proved against `Chain`. */
module ChainNode {
  import opened Words
  import opened Fork
  import opened Chain
  import opened Finality

  class ChainObject<S(0)> {
    const rules: Rules<S>
    ghost const origin: Origin<S>
    const tree: Tree
    var blockById: map<Hash, Block>
    var hasGenesis: bool
    var head: Header
    var state: S
    var replayBase: Option<S>
    var replayBaseId: Hash
    var replayBaseHeight: nat

    ghost function Value(): (n: Node<S>)
      reads this, tree
    {
      Node(tree.nodes, blockById, head, state, replayBase, replayBaseId, replayBaseHeight)
    }

    ghost predicate Valid()
      reads this, tree
    {
      hasGenesis ==> Inv(rules, origin, Value())
    }

    constructor (rules: Rules<S>, ghost origin: Origin<S>, state: S)
      ensures Valid() && !hasGenesis && fresh(tree) && tree.nodes == map[] && blockById == map[]
      ensures this.rules == rules && this.origin == origin && this.state == state
    {
      this.rules, this.origin, this.state := rules, origin, state;
      tree := new Tree();
      blockById, hasGenesis, head := map[], false, Header(0, ZERO, [], 0, 0, []);
      replayBase, replayBaseId, replayBaseHeight := None, ZERO, 0;
    }

    /** `funded` is the ledger with the funding table applied. */
    method Genesis(blk: Block, funded: S) returns (err: Option<ChainError>)
      requires Valid() && (!hasGenesis ==> tree.nodes == map[] && blockById == map[])
      requires origin == Origin(blk, funded) && GoodOrigin(rules, origin)
      modifies this, tree
      ensures Valid() && hasGenesis && err == (if old(hasGenesis) then Some(HasGenesis) else None)
      ensures Value() == if old(hasGenesis) then old(Value()) else Begin(rules, blk, funded)
    {
      if hasGenesis { return Some(HasGenesis); }
      state := funded;
      head := blk.header;
      hasGenesis := true;
      replayBase := Some(state);
      replayBaseId := rules.id(blk.header);
      replayBaseHeight := 0;
      tree.Add(replayBaseId, ZERO, 0, 1);
      blockById := blockById[replayBaseId := blk];
      BeginsWell(rules, origin);
      return None;
    }

    method RecordBlock(blk: Block)
      modifies this`blockById, tree
      ensures Value() == Record(rules, old(Value()), blk)
    {
      var id := rules.id(blk.header);
      tree.Add(id, blk.header.prev, blk.header.height, 1);
      blockById := blockById[id := blk];
    }

    /** Follows parents from `tip` until it reaches `stop`, then puts the blocks in ascending order. */
    method WalkDown(tip: Hash, stop: Hash) returns (path: seq<Block>, ok: bool)
      requires Linked(blockById)
      ensures ok == Walk(blockById, tip, stop).Some? && (ok ==> path == Walk(blockById, tip, stop).value)
    {
      var rev: seq<Block> := [];
      var id := tip;
      assert forall p :: p + Reversed(rev) == p;
      while id != stop
        invariant Walked(blockById, tip, stop, id, rev)
        decreases Rank(blockById, id)
      {
        if id !in blockById { return [], false; }
        var b := blockById[id];
        assert HasParent(blockById, b);
        rev := rev + [b];
        if b.header.prev == ZERO { return [], false; }
        id := b.header.prev;
        Deeper(blockById, tip, stop, id, rev[..|rev| - 1], b);
        assert rev == rev[..|rev| - 1] + [b];
      }
      path := ReverseInPlace(rev);
      assert [] + path == path;
      ok := true;
    }

    /** Applies blocks to a ledger, one after the other. */
    method ApplyBlocks(from: S, blocks: seq<Block>) returns (e: Exec<S>)
      ensures e == ApplyAll(rules, from, blocks)
    {
      e := Exec(from, true);
      var i := 0;
      while i < |blocks|
        invariant 0 <= i <= |blocks| && e.ok && ApplyAll(rules, from, blocks) == ApplyAll(rules, e.state, blocks[i..])
      {
        assert blocks[i..][1..] == blocks[i + 1..];
        e := Apply(rules, e.state, blocks[i]);
        if !e.ok { return; }
        i := i + 1;
      }
    }

    /** The canonical blocks between the base and height `target`, newest first. */
    method CollectFinal(target: nat) returns (rev: seq<Block>, ok: bool)
      requires Linked(blockById)
      ensures var w := Walk(blockById, rules.id(head), replayBaseId);
              ok == w.Some? && (ok ==> UpTo(w.value, target) == Reversed(rev))
    {
      rev := [];
      ghost var all: seq<Block> := [];
      var tip := rules.id(head);
      var id := tip;
      assert forall p :: p + Reversed(all) == p;
      while id != replayBaseId
        invariant Walked(blockById, tip, replayBaseId, id, all) && rev == Lower(all, target)
        decreases Rank(blockById, id)
      {
        if id !in blockById { return [], false; }
        var b := blockById[id];
        assert HasParent(blockById, b);
        if b.header.prev != ZERO { Deeper(blockById, tip, replayBaseId, b.header.prev, all, b); }
        LowerAdds(all, b, target);
        all := all + [b];
        if b.header.height <= target { rev := rev + [b]; }
        id := b.header.prev;
        if id == ZERO { return [], false; }
      }
      assert [] + Reversed(all) == Reversed(all);
      UpToReversed(all, target);
      ok := true;
    }

    /** Applies blocks given newest first, oldest first. */
    method ApplyBackwards(from: S, rev: seq<Block>) returns (e: Exec<S>)
      ensures e == ApplyAll(rules, from, Reversed(rev))
    {
      e := Exec(from, true);
      var i := |rev|;
      assert rev[..|rev|] == rev;
      while i > 0
        invariant 0 <= i <= |rev| && e.ok
                  && ApplyAll(rules, from, Reversed(rev)) == ApplyAll(rules, e.state, Reversed(rev[..i]))
      {
        i := i - 1;
        assert rev[..i + 1][..i] == rev[..i] && Reversed(rev[..i + 1])[1..] == Reversed(rev[..i]);
        e := Apply(rules, e.state, rev[i]);
        if !e.ok { return; }
      }
    }

    /** Moves the replay base up to the finality depth below the head. */
    method AdvanceFinality()
      requires Linked(blockById)
      modifies this`replayBase, this`replayBaseId, this`replayBaseHeight
      ensures Value() == Advance(rules, old(Value()))
    {
      if rules.depth == 0 || replayBase.None? || head.height < rules.depth { return; }
      var target := head.height - rules.depth;
      if target <= replayBaseHeight { return; }
      var rev, ok := CollectFinal(target);
      if !ok { return; }
      var e := ApplyBackwards(replayBase.value, rev);
      if !e.ok { return; }
      replayBase := Some(e.state);
      if |rev| > 0 {
        ReversedAt(rev, |rev| - 1);
        replayBaseId := rules.id(rev[0].header);
        replayBaseHeight := rev[0].header.height;
      }
    }

    method ReorgToBest() returns (err: Option<ChainError>)
      requires Linked(blockById)
      modifies this`head, this`state, this`replayBase, this`replayBaseId, this`replayBaseHeight
      ensures Stepped(Value(), err) == Follow(rules, old(Value()))
    {
      var best, _ := tree.Best();
      BestIsTheOne(tree.nodes, best);
      if best == rules.id(head) { return None; }
      var suffix, forward := WalkDown(best, rules.id(head));
      if forward {
        var e := ApplyBlocks(state, suffix);
        state := e.state;
        if !e.ok { return Some(ReorgReplay); }
        if |suffix| > 0 {
          head := suffix[|suffix| - 1].header;
          AdvanceFinality();
        }
        return None;
      }
      if replayBase.None? { return None; }
      var branch, ok := WalkDown(best, replayBaseId);
      if !ok { return None; }
      var e := ApplyBlocks(replayBase.value, branch);
      if !e.ok { return Some(ReorgReplay); }
      state := e.state;
      if |branch| > 0 {
        head := branch[|branch| - 1].header;
        AdvanceFinality();
      }
      return None;
    }

    /** Takes a block on any known branch, and makes the head follow the canonical tip. */
    method AcceptBlock(blk: Block) returns (err: Option<ChainError>)
      requires Valid() && rules.id(blk.header) != ZERO
      modifies this, tree
      ensures Valid() && hasGenesis == old(hasGenesis)
      ensures !hasGenesis ==> err == Some(NoGenesis) && Value() == old(Value())
      ensures hasGenesis ==>
                old(Inv(rules, origin, Value())) && Stepped(Value(), err) == old(Accept(rules, Value(), blk))
    {
      if !hasGenesis { return Some(NoGenesis); }
      AcceptKeeps(rules, origin, Value(), blk);
      var id := rules.id(blk.header);
      var _, known := tree.Height(id);
      if known { return None; }
      if !rules.authorized(state, blk.header) { return Some(Unauthorized); }
      if !rules.merkleOk(blk) { return Some(BadMerkle); }
      if !rules.bodyOk(blk) { return Some(BadBodyHash); }
      if blk.header.prev !in blockById { return Some(UnknownParent); }
      var parent := blockById[blk.header.prev];
      if blk.header.height != parent.header.height + 1 { return Some(BadHeight); }
      if blk.header.timestamp < parent.header.timestamp + blk.header.round * rules.blockTime { return Some(BadRound); }
      RecordLinks(rules, Value(), blk);
      RecordBlock(blk);
      err := ReorgToBest();
    }

    /** Builds, executes, seals and records a block on top of the head. */
    method ProduceBlock(p: Proposal<S>) returns (err: Option<ChainError>)
      requires Valid() && (hasGenesis ==> NoCollision(rules, Value(), Proposed(rules, Value(), p)))
      modifies this, tree
      ensures Valid() && hasGenesis == old(hasGenesis)
      ensures !hasGenesis ==> err == Some(NoGenesis) && Value() == old(Value())
      ensures hasGenesis ==>
                old(Inv(rules, origin, Value())) && Stepped(Value(), err) == old(Produce(rules, Value(), p))
    {
      if !hasGenesis { return Some(NoGenesis); }
      ProduceKeeps(rules, origin, Value(), p);
      ghost var b := Proposed(rules, Value(), p);
      var height, prev, body := head.height + 1, rules.id(head), p.build(state);
      var e := rules.apply(state, height, p.validator, body);
      state := e.state;
      if !e.ok { return Some(BadBlock); }
      RecordLinks(rules, Value().(head := b.header), b);
      Adopt(Header(height, prev, p.validator, p.timestamp, p.round, p.seal(state)), body);
      return None;
    }

    /** A sealed block becomes the head. */
    method Adopt(header: Header, body: seq<byte>)
      requires Linked(Record(rules, Value().(head := header), Block(header, body)).bodies)
      modifies this`head, this`blockById, this`replayBase, this`replayBaseId, this`replayBaseHeight, tree
      ensures Value() == Advance(rules, Record(rules, old(Value()).(head := header), Block(header, body)))
    {
      head := header;
      RecordBlock(Block(header, body));
      AdvanceFinality();
    }
  }

  method ReverseInPlace(blocks: seq<Block>) returns (r: seq<Block>)
    ensures r == Reversed(blocks)
  {
    r := blocks;
    var i, j := 0, |r| - 1;
    while i < j
      invariant 0 <= i <= |r| && j == |r| - 1 - i && |r| == |blocks|
      invariant forall k :: 0 <= k < i ==> r[k] == blocks[|r| - 1 - k] && r[|r| - 1 - k] == blocks[k]
      invariant forall k :: i <= k < |r| - i ==> r[k] == blocks[k]
    {
      r := r[i := r[j]][j := r[i]];
      i, j := i + 1, j - 1;
    }
    forall k | 0 <= k < |r| ensures r[k] == Reversed(blocks)[k] { ReversedAt(blocks, k); }
  }

  function Reversed(s: seq<Block>): (r: seq<Block>)
    ensures |r| == |s|
  {
    if s == [] then [] else [s[|s| - 1]] + Reversed(s[..|s| - 1])
  }

  lemma {:induction false} ReversedAt(s: seq<Block>, k: nat)
    requires k < |s|
    ensures Reversed(s)[k] == s[|s| - 1 - k]
  {
    if k > 0 { ReversedAt(s[..|s| - 1], k - 1); }
  }

  /** The blocks met so far, newest first, are the end of the path. */
  ghost predicate Walked(bodies: map<Hash, Block>, tip: Hash, stop: Hash, id: Hash, rev: seq<Block>)
    requires Linked(bodies)
  {
    match Walk(bodies, id, stop)
    case None => Walk(bodies, tip, stop).None?
    case Some(p) => Walk(bodies, tip, stop) == Some(p + Reversed(rev))
  }

  lemma {:induction false} Deeper(bodies: map<Hash, Block>, tip: Hash, stop: Hash, id: Hash, rev: seq<Block>, b: Block)
    requires Linked(bodies) && b.header.prev == id && id != ZERO
    requires exists child :: child in bodies && child != stop && bodies[child] == b
                             && Walked(bodies, tip, stop, child, rev)
    ensures Walked(bodies, tip, stop, id, rev + [b])
  {
    var child :| child in bodies && child != stop && bodies[child] == b && Walked(bodies, tip, stop, child, rev);
    assert (rev + [b])[..|rev|] == rev;
    if Walk(bodies, id, stop).Some? {
      var p := Walk(bodies, id, stop).value;
      assert p + [b] + Reversed(rev) == p + ([b] + Reversed(rev));
    }
  }

  /** The blocks no higher than `target`, in the order they are met. */
  function Lower(blocks: seq<Block>, target: nat): (r: seq<Block>)
  {
    if blocks == [] then []
    else
      var b := blocks[|blocks| - 1];
      Lower(blocks[..|blocks| - 1], target) + (if b.header.height <= target then [b] else [])
  }

  lemma {:induction false} LowerAdds(blocks: seq<Block>, b: Block, target: nat)
    ensures Lower(blocks + [b], target) == Lower(blocks, target) + (if b.header.height <= target then [b] else [])
  {
    assert (blocks + [b])[..|blocks|] == blocks;
  }

  lemma {:induction false} ReversedAdds(blocks: seq<Block>, b: Block)
    ensures Reversed(blocks + [b]) == [b] + Reversed(blocks)
  {
    assert (blocks + [b])[..|blocks|] == blocks;
  }

  /** Filtering while walking down, then reversing, is walking up and filtering. */
  lemma {:induction false} UpToReversed(blocks: seq<Block>, target: nat)
    ensures UpTo(Reversed(blocks), target) == Reversed(Lower(blocks, target))
  {
    if blocks != [] {
      var b, rest := blocks[|blocks| - 1], blocks[..|blocks| - 1];
      UpToReversed(rest, target);
      assert Reversed(blocks)[1..] == Reversed(rest);
      if b.header.height <= target { ReversedAdds(Lower(rest, target), b); }
      assert Lower(rest, target) + [] == Lower(rest, target);
    }
  }

  lemma BestIsTheOne(nodes: map<Hash, Entry>, best: Hash)
    requires if nodes == map[] then best == ZERO else IsBest(nodes, best)
    ensures best == Best(nodes)
  {
    if nodes != map[] { BestIsUnique(nodes, best, Best(nodes)); }
  }
}
