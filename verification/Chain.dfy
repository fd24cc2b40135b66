/**
 The chain as a value: the block tree, the bodies, the head, the live ledger and the replay base, and
 what accepting or producing a block makes of them. The ledger is any type `S` that blocks execute
 on; execution, hashing and header authorization are functions given with the rules.
 */
module Chain {
  import opened Words
  import opened Fork

  /** `seal` stands for the fields execution does not read: roots, shard shape, key and signature. */
  datatype Header = Header(height: nat, prev: Hash, validator: seq<byte>, timestamp: int, round: nat, seal: seq<byte>)

  datatype Block = Block(header: Header, body: seq<byte>)

  /** A ledger after an attempt to execute a block on it. */
  datatype Exec<+S> = Exec(state: S, ok: bool)

  datatype Rules<!S> = Rules(
    id: Header -> Hash,
    apply: (S, nat, seq<byte>, seq<byte>) -> Exec<S>,
    authorized: (S, Header) -> bool,
    merkleOk: Block -> bool,
    bodyOk: Block -> bool,
    blockTime: int,
    depth: nat)

  datatype ChainError = NoGenesis | HasGenesis | Unauthorized | BadMerkle | BadBodyHash | UnknownParent | BadHeight
      | BadRound | ReorgReplay | BadBlock

  /** What a node holds once it has a genesis block. */
  datatype Node<+S> = Node(
    nodes: map<Hash, Entry>, bodies: map<Hash, Block>, head: Header, state: S,
    base: Option<S>, baseId: Hash, baseHeight: nat)

  datatype Stepped<+S> = Stepped(node: Node<S>, err: Option<ChainError>)

  /* ----- Execution ----- */

  function Apply<S>(r: Rules<S>, s: S, b: Block): (e: Exec<S>)
  {
    r.apply(s, b.header.height, b.header.validator, b.body)
  }

  /** One block after the other, stopping at the first that fails. */
  function ApplyAll<S>(r: Rules<S>, s: S, bs: seq<Block>): (e: Exec<S>)
  {
    if bs == [] then Exec(s, true)
    else
      var e := Apply(r, s, bs[0]);
      if e.ok then ApplyAll(r, e.state, bs[1..]) else e
  }

  lemma {:induction false} ApplyAllInTurn<S>(r: Rules<S>, s: S, xs: seq<Block>, ys: seq<Block>)
    ensures var e := ApplyAll(r, s, xs);
            ApplyAll(r, s, xs + ys) == if e.ok then ApplyAll(r, e.state, ys) else e
    decreases xs
  {
    if xs == [] {
      assert xs + ys == ys;
    } else {
      assert (xs + ys)[1..] == xs[1..] + ys;
      var e := Apply(r, s, xs[0]);
      if e.ok { ApplyAllInTurn(r, e.state, xs[1..], ys); }
    }
  }

  /* ----- Bodies and paths ----- */

  /** Every stored block but the genesis block has its parent stored, one lower. */
  ghost predicate HasParent(bodies: map<Hash, Block>, b: Block)
  {
    if b.header.prev == ZERO then b.header.height == 0
    else b.header.prev in bodies && b.header.height == bodies[b.header.prev].header.height + 1
  }

  ghost predicate Linked(bodies: map<Hash, Block>)
  {
    ZERO !in bodies
    && forall id {:trigger HasParent(bodies, bodies[id])} :: id in bodies ==> HasParent(bodies, bodies[id])
  }

  ghost function Rank(bodies: map<Hash, Block>, id: Hash): (n: nat)
  {
    if id in bodies then bodies[id].header.height + 1 else 0
  }

  /** The blocks from `stop` (exclusive) up to `tip`, if `stop` is an ancestor of `tip`. */
  ghost function Walk(bodies: map<Hash, Block>, tip: Hash, stop: Hash): (p: Option<seq<Block>>)
    requires Linked(bodies)
    decreases Rank(bodies, tip)
  {
    if tip == stop then Some([])
    else if tip !in bodies || bodies[tip].header.prev == ZERO then None
    else
      assert HasParent(bodies, bodies[tip]);
      match Walk(bodies, bodies[tip].header.prev, stop)
      case None => None
      case Some(p) => Some(p + [bodies[tip]])
  }

  ghost predicate Ancestor(bodies: map<Hash, Block>, a: Hash, d: Hash)
    requires Linked(bodies)
  {
    Walk(bodies, d, a).Some?
  }

  /** The blocks of a path no higher than `target`. */
  function UpTo(p: seq<Block>, target: nat): (q: seq<Block>)
  {
    if p == [] then []
    else (if p[0].header.height <= target then [p[0]] else []) + UpTo(p[1..], target)
  }

  /* ----- Steps ----- */

  function Record<S>(r: Rules<S>, n: Node<S>, b: Block): (m: Node<S>)
  {
    var id := r.id(b.header);
    n.(nodes := Added(n.nodes, id, b.header.prev, b.header.height, 1), bodies := n.bodies[id := b])
  }

  /** The replay base moves up to `depth` below the head, if the blocks in between replay. */
  ghost function Advance<S>(r: Rules<S>, n: Node<S>): (m: Node<S>)
    requires Linked(n.bodies)
  {
    if r.depth == 0 || n.base.None? || n.head.height < r.depth || n.head.height - r.depth <= n.baseHeight then n
    else
      match Walk(n.bodies, r.id(n.head), n.baseId)
      case None => n
      case Some(p) =>
        var final := UpTo(p, n.head.height - r.depth);
        var e := ApplyAll(r, n.base.value, final);
        if !e.ok then n
        else if final == [] then n.(base := Some(e.state))
        else
          var last := final[|final| - 1].header;
          n.(base := Some(e.state), baseId := r.id(last), baseHeight := last.height)
  }

  /** The head follows the canonical tip: forward on the live ledger, or by replay from the base. */
  ghost function Follow<S>(r: Rules<S>, n: Node<S>): (x: Stepped<S>)
    requires Linked(n.bodies)
  {
    var best, head := Best(n.nodes), r.id(n.head);
    if best == head then Stepped(n, None)
    else
      match Walk(n.bodies, best, head)
      case Some(suffix) => Forward(r, n, suffix)
      case None =>
        if n.base.None? then Stepped(n, None)
        else
          match Walk(n.bodies, best, n.baseId)
          case None => Stepped(n, None)
          case Some(branch) => Rewind(r, n, branch)
  }

  ghost function Forward<S>(r: Rules<S>, n: Node<S>, suffix: seq<Block>): (x: Stepped<S>)
    requires Linked(n.bodies)
  {
    var e := ApplyAll(r, n.state, suffix);
    if !e.ok then Stepped(n.(state := e.state), Some(ReorgReplay))
    else Stepped(MoveHead(r, n.(state := e.state), suffix), None)
  }

  ghost function Rewind<S>(r: Rules<S>, n: Node<S>, branch: seq<Block>): (x: Stepped<S>)
    requires Linked(n.bodies) && n.base.Some?
  {
    var e := ApplyAll(r, n.base.value, branch);
    if !e.ok then Stepped(n, Some(ReorgReplay))
    else Stepped(MoveHead(r, n.(state := e.state), branch), None)
  }

  ghost function MoveHead<S>(r: Rules<S>, n: Node<S>, path: seq<Block>): (m: Node<S>)
    requires Linked(n.bodies)
  {
    if path == [] then n else Advance(r, n.(head := path[|path| - 1].header))
  }

  /** Why a block cannot be attached, if it cannot. */
  function Refusal<S>(r: Rules<S>, n: Node<S>, b: Block): (e: Option<ChainError>)
  {
    var h := b.header;
    if !r.authorized(n.state, h) then Some(Unauthorized)
    else if !r.merkleOk(b) then Some(BadMerkle)
    else if !r.bodyOk(b) then Some(BadBodyHash)
    else if h.prev !in n.bodies then Some(UnknownParent)
    else if h.height != n.bodies[h.prev].header.height + 1 then Some(BadHeight)
    else if h.timestamp < n.bodies[h.prev].header.timestamp + h.round * r.blockTime then Some(BadRound)
    else None
  }

  ghost function Accept<S>(r: Rules<S>, n: Node<S>, b: Block): (x: Stepped<S>)
    requires Linked(n.bodies) && n.nodes.Keys == n.bodies.Keys && r.id(b.header) != ZERO
  {
    if r.id(b.header) in n.nodes then Stepped(n, None)
    else if Refusal(r, n, b).Some? then Stepped(n, Refusal(r, n, b))
    else
      RecordLinks(r, n, b);
      Follow(r, Record(r, n, b))
  }

  /** A new block keeps the bodies linked. */
  lemma RecordLinks<S>(r: Rules<S>, n: Node<S>, b: Block)
    requires Linked(n.bodies) && r.id(b.header) != ZERO && HasParent(n.bodies, b)
    requires r.id(b.header) !in n.bodies || n.bodies[r.id(b.header)] == b
    ensures Linked(Record(r, n, b).bodies)
  {
    var id := r.id(b.header);
    var bodies := n.bodies[id := b];
    forall x | x in bodies ensures HasParent(bodies, bodies[x]) {
      assert x != id ==> HasParent(n.bodies, n.bodies[x]);
    }
  }

  /** What a producer decides; `build` and `seal` are the body and the seal, given the ledger. */
  datatype Proposal<!S> = Proposal(validator: seq<byte>, timestamp: int, round: nat, build: S -> seq<byte>,
                                   seal: S -> seq<byte>)

  /** The block a proposal makes on top of the head, once its body has been executed. */
  function Proposed<S>(r: Rules<S>, n: Node<S>, p: Proposal<S>): (b: Block)
  {
    var height, body := n.head.height + 1, p.build(n.state);
    var after := r.apply(n.state, height, p.validator, body).state;
    Block(Header(height, r.id(n.head), p.validator, p.timestamp, p.round, p.seal(after)), body)
  }

  /** The block's id is new, or the block is stored already. */
  ghost predicate NoCollision<S>(r: Rules<S>, n: Node<S>, b: Block)
  {
    r.id(b.header) != ZERO && (r.id(b.header) !in n.bodies || n.bodies[r.id(b.header)] == b)
  }

  ghost function Produce<S>(r: Rules<S>, n: Node<S>, p: Proposal<S>): (x: Stepped<S>)
    requires Linked(n.bodies) && r.id(n.head) in n.bodies && n.bodies[r.id(n.head)].header == n.head
    requires NoCollision(r, n, Proposed(r, n, p))
  {
    var b := Proposed(r, n, p);
    var e := Apply(r, n.state, b);
    if !e.ok then Stepped(n.(state := e.state), Some(BadBlock))
    else
      var m := n.(state := e.state, head := b.header);
      RecordLinks(r, m, b);
      Stepped(Advance(r, Record(r, m, b)), None)
  }

  /** A node that has just made its genesis block. */
  function Begin<S>(r: Rules<S>, g: Block, s: S): (n: Node<S>)
  {
    var id := r.id(g.header);
    Node(Added(map[], id, ZERO, 0, 1), map[id := g], g.header, s, Some(s), id, 0)
  }

  /* ----- Facts about paths ----- */

  /** A path climbs one block at a time and ends at its tip. */
  ghost predicate Climbs(p: seq<Block>, from: nat)
  {
    forall i :: 0 <= i < |p| ==> p[i].header.height == from + 1 + i
  }

  lemma {:induction false} WalkClimbs(bodies: map<Hash, Block>, tip: Hash, stop: Hash)
    requires Linked(bodies) && Walk(bodies, tip, stop).Some? && stop in bodies
    ensures var p := Walk(bodies, tip, stop).value;
            && tip in bodies && Climbs(p, bodies[stop].header.height)
            && bodies[tip].header.height == bodies[stop].header.height + |p|
            && (p != [] ==> p[|p| - 1] == bodies[tip])
    decreases Rank(bodies, tip)
  {
    if tip != stop {
      assert HasParent(bodies, bodies[tip]);
      WalkClimbs(bodies, bodies[tip].header.prev, stop);
    }
  }

  lemma {:induction false} WalkJoins(bodies: map<Hash, Block>, tip: Hash, mid: Hash, stop: Hash)
    requires Linked(bodies) && Walk(bodies, tip, mid).Some? && Walk(bodies, mid, stop).Some? && mid in bodies
             && stop in bodies
    ensures Walk(bodies, tip, stop) == Some(Walk(bodies, mid, stop).value + Walk(bodies, tip, mid).value)
    decreases Rank(bodies, tip)
  {
    var q := Walk(bodies, mid, stop).value;
    if tip == mid {
      assert q + [] == q;
    } else {
      var prev := bodies[tip].header.prev;
      assert HasParent(bodies, bodies[tip]);
      WalkJoins(bodies, prev, mid, stop);
      WalkClimbs(bodies, tip, mid);
      WalkClimbs(bodies, mid, stop);
      var p := Walk(bodies, prev, mid).value;
      assert q + (p + [bodies[tip]]) == q + p + [bodies[tip]];
    }
  }

  /** More blocks do not change the paths there are. */
  lemma {:induction false} WalkStays(bodies: map<Hash, Block>, more: map<Hash, Block>, tip: Hash, stop: Hash)
    requires Linked(bodies) && Linked(more) && tip in bodies
             && forall x :: x in bodies ==> x in more && more[x] == bodies[x]
    ensures Walk(more, tip, stop) == Walk(bodies, tip, stop)
    decreases Rank(bodies, tip)
  {
    if tip != stop && bodies[tip].header.prev != ZERO {
      assert HasParent(bodies, bodies[tip]);
      WalkStays(bodies, more, bodies[tip].header.prev, stop);
    }
  }

  /** Two ancestors of a block are on one line. */
  lemma {:induction false} AncestorsLineUp(bodies: map<Hash, Block>, a: Hash, b: Hash, d: Hash)
    requires Linked(bodies) && a in bodies && b in bodies && Ancestor(bodies, a, d) && Ancestor(bodies, b, d)
    requires bodies[a].header.height <= bodies[b].header.height
    ensures Ancestor(bodies, a, b)
    decreases Rank(bodies, d)
  {
    if b != d {
      WalkClimbs(bodies, d, b);
      assert HasParent(bodies, bodies[d]);
      AncestorsLineUp(bodies, a, b, bodies[d].header.prev);
    }
  }

  lemma {:induction false} UpToIsPrefix(p: seq<Block>, from: nat, target: nat)
    requires Climbs(p, from) && from <= target <= from + |p|
    ensures UpTo(p, target) == p[..target - from]
    decreases p
  {
    if p == [] {
    } else if target == from {
      forall i | 0 <= i < |p| ensures p[i].header.height > target { }
      NoneUpTo(p, target);
    } else {
      forall i | 0 <= i < |p[1..]| ensures p[1..][i].header.height == from + 1 + 1 + i { assert p[1..][i] == p[i + 1]; }
      UpToIsPrefix(p[1..], from + 1, target);
      assert p[..target - from] == [p[0]] + p[1..][..target - from - 1];
    }
  }

  lemma {:induction false} NoneUpTo(p: seq<Block>, target: nat)
    requires forall i :: 0 <= i < |p| ==> p[i].header.height > target
    ensures UpTo(p, target) == []
  {
    if p != [] {
      forall i | 0 <= i < |p[1..]| ensures p[1..][i].header.height > target { assert p[1..][i] == p[i + 1]; }
      NoneUpTo(p[1..], target);
    }
  }

  /** A path can be cut at any height on it. */
  lemma {:induction false} WalkSplits(bodies: map<Hash, Block>, tip: Hash, stop: Hash, k: nat) returns (mid: Hash)
    requires Linked(bodies) && Walk(bodies, tip, stop).Some? && stop in bodies && k <= |Walk(bodies, tip, stop).value|
    ensures mid in bodies && Ancestor(bodies, mid, tip)
            && Walk(bodies, mid, stop) == Some(Walk(bodies, tip, stop).value[..k])
    decreases Rank(bodies, tip)
  {
    var p := Walk(bodies, tip, stop).value;
    WalkClimbs(bodies, tip, stop);
    if k == |p| {
      mid := tip;
      assert p[..k] == p;
    } else {
      var prev := bodies[tip].header.prev;
      assert HasParent(bodies, bodies[tip]);
      mid := WalkSplits(bodies, prev, stop, k);
      assert p[..k] == Walk(bodies, prev, stop).value[..k];
      assert tip != mid by { WalkClimbs(bodies, mid, stop); }
    }
  }

  /** The block of a path at a given height, and the part of the path up to it. */
  lemma {:induction false} CutAt(bodies: map<Hash, Block>, tip: Hash, stop: Hash, target: nat) returns (mid: Hash)
    requires Linked(bodies) && stop in bodies && Walk(bodies, tip, stop).Some? && tip in bodies
    requires bodies[stop].header.height < target <= bodies[tip].header.height
    ensures mid in bodies && Ancestor(bodies, mid, tip) && Ancestor(bodies, stop, mid)
            && bodies[mid].header.height == target
    ensures Walk(bodies, mid, stop).value == UpTo(Walk(bodies, tip, stop).value, target)
    ensures var p := Walk(bodies, mid, stop).value; p != [] && p[|p| - 1] == bodies[mid]
  {
    var p, from := Walk(bodies, tip, stop).value, bodies[stop].header.height;
    WalkClimbs(bodies, tip, stop);
    UpToIsPrefix(p, from, target);
    mid := WalkSplits(bodies, tip, stop, target - from);
    WalkClimbs(bodies, mid, stop);
  }
}
