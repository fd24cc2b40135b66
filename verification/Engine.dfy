/** The storage engine: which headers it authorizes, and when a node may produce. */
module Engine {
  import opened Words
  import opened Hrw

  datatype AuthError = BadSignature | UnauthorizedValidator | NotLeader

  /** A place in the chain that one validator is elected for. */
  datatype Slot = Slot(height: u64, prev: seq<byte>, round: nat)

  /** The validators and their weights as the ledger has them; `score` is the hash of a slot, a validator and a copy. */
  datatype Committee = Committee(validators: seq<Id>, weights: Option<map<Id, u64>>, score: (Slot, Id, u64) -> u64)

  function ElectionFor(c: Committee, s: Slot): (e: Election)
  {
    Election((v: Id, j: u64) => c.score(s, v, j), c.weights)
  }

  /** The validator is elected for the slot: no entry of another exceeds its best, and ties go to the smaller address.
      Only where the empty address is the one validator is it taken for elected. */
  ghost predicate Elected(c: Committee, s: Slot, v: Id)
  {
    if Candidates(c.validators) == {} then v == [] else IsLeader(ElectionFor(c, s), Candidates(c.validators), v)
  }

  /** A validator's signed header is authorized at height zero, and above it if the validator is elected. */
  ghost predicate Authorized(c: Committee, s: Slot, v: Id, signed: bool)
  {
    signed && v in c.validators && (s.height == 0 || Elected(c, s, v))
  }

  /** The election: its winner is a validator wherever there is one. */
  method Leader(c: Committee, s: Slot) returns (best: Id)
    ensures forall v :: Elected(c, s, v) <==> v == best
    ensures c.validators != [] ==> best in c.validators
  {
    best := LeaderFor(ElectionFor(c, s), c.validators);
    var candidates := Candidates(c.validators);
    if candidates != {} {
      forall v | IsLeader(ElectionFor(c, s), candidates, v) ensures v == best {
        LeaderIsUnique(ElectionFor(c, s), candidates, v, best);
      }
    } else if c.validators != [] {
      var v := c.validators[0];
      assert v in Elements(c.validators) && v !in candidates;
    }
  }

  method AuthorizeHeader(c: Committee, s: Slot, v: Id, signed: bool) returns (err: Option<AuthError>)
    ensures err.None? <==> Authorized(c, s, v, signed)
    ensures err.Some? ==> err.value == if !signed then BadSignature
                                       else if v !in c.validators then UnauthorizedValidator else NotLeader
  {
    if !signed { return Some(BadSignature); }
    var all, list := ValidatorSet(c.validators);
    if v !in all { return Some(UnauthorizedValidator); }
    if s.height == 0 { return None; }
    var leader := Leader(c, s);
    if v != leader { return Some(NotLeader); }
    return None;
  }

  /** `proving` tells whether the node passes its storage proofs, or is not asked to. What it may produce is
      authorized everywhere. */
  method CanProduce(c: Committee, s: Slot, self: Id, proving: bool) returns (b: bool)
    ensures b <==> self != [] && self in c.validators && Elected(c, s, self) && proving
    ensures b ==> Authorized(c, s, self, true)
  {
    var all, list := ValidatorSet(c.validators);
    if self == [] || self !in all { return false; }
    var leader := Leader(c, s);
    if leader != self { return false; }
    return proving;
  }

  /** Above the genesis block no two validators are authorized for one slot. */
  lemma OneAuthor(c: Committee, s: Slot, v: Id, u: Id)
    requires s.height > 0 && Authorized(c, s, v, true) && Authorized(c, s, u, true)
    ensures v == u
  {
    if Candidates(c.validators) != {} { LeaderIsUnique(ElectionFor(c, s), Candidates(c.validators), v, u); }
  }
}
