/** The ledger object in the hands of the chain: funded at genesis, carried forward, rewound. */
module LedgerLife {
  import opened Words
  import opened Txs
  import opened Contracts
  import opened LedgerState
  import opened Supply
  import L = Ledger

  /* ----- Genesis ----- */

  /** Balances of the funding table, its total minted, one validator. */
  method Fund(ledger: LedgerObject, funding: map<Address, u64>, validator: Address)
    requires ledger.Value() == L.State(map[], map[], 0, 0, map[], [])
    modifies ledger
    ensures ledger.Value() == Genesis(funding, validator)
  {
    var premine := Premine(ledger, funding);
    ledger.minted := premine;
    ledger.validators := ledger.validators[validator := L.Validator(0, true, 0, false, 0, 0)];
    ledger.height := 0;
  }

  method Premine(ledger: LedgerObject, funding: map<Address, u64>) returns (premine: u64)
    requires ledger.accounts == map[]
    modifies ledger`accounts
    ensures ledger.accounts == Funded(funding) && premine == Wrap(Sum(funding))
  {
    premine := 0;
    var rest := funding.Keys;
    FundsEnds(funding);
    while rest != {}
      invariant rest <= funding.Keys && premine == Wrap(Sum(Except(funding, rest)))
      invariant ledger.accounts == Funded(Except(funding, rest))
    {
      var a :| a in rest;
      FundsOne(funding, rest, a);
      CreditOne(ledger, funding, rest, a);
      premine := Total(Sum(Except(funding, rest)), premine, funding[a]);
      rest := rest - {a};
    }
  }

  method CreditOne(ledger: LedgerObject, funding: map<Address, u64>, ghost rest: set<Address>, a: Address)
    requires rest <= funding.Keys && a in rest && ledger.accounts == Funded(Except(funding, rest))
    modifies ledger`accounts
    ensures ledger.accounts == Funded(Except(funding, rest - {a}))
  {
    FundsOne(funding, rest, a);
    ledger.Credit(a, funding[a]);
  }

  method Total(ghost sum: nat, premine: u64, x: u64) returns (r: u64)
    requires premine == Wrap(sum)
    ensures r == Wrap(sum + x)
  {
    return Wrap(premine + x);
  }

  ghost function Funded(funding: map<Address, u64>): (r: map<Address, Account>)
  {
    map a | a in funding :: NO_ACCOUNT.(balance := funding[a])
  }

  ghost function Except(funding: map<Address, u64>, rest: set<Address>): (r: map<Address, u64>)
  {
    map a | a in funding && a !in rest :: funding[a]
  }

  lemma FundsEnds(funding: map<Address, u64>)
    ensures Except(funding, funding.Keys) == map[] && Except(funding, {}) == funding
    ensures Funded(map[]) == map[] && Sum(map[]) == 0
  {
  }

  lemma FundsOne(funding: map<Address, u64>, rest: set<Address>, a: Address)
    requires rest <= funding.Keys && a in rest
    ensures var done, next := Except(funding, rest), Except(funding, rest - {a});
            && Sum(next) == Sum(done) + funding[a] && Get(Funded(done), a) == NO_ACCOUNT
            && Funded(next) == Funded(done)[a := NO_ACCOUNT.(balance := funding[a])]
  {
    var done, next := Except(funding, rest), Except(funding, rest - {a});
    SumWithout(next, a);
    assert next - {a} == done;
  }

  /* ----- Forward and back ----- */

  /** The ledger after these blocks, if all are accepted. */
  function Along(cfg: L.Config, s: L.State, bs: seq<L.Block>): (r: Option<L.State>)
    decreases bs
  {
    if bs == [] then Some(s)
    else
      match L.ApplyBlock(cfg, s, bs[0])
      case Rejected(_, _) => None
      case Accepted(s') => Along(cfg, s', bs[1..])
  }

  /** The events of each of these blocks. */
  function LogsAlong(cfg: L.Config, s: L.State, bs: seq<L.Block>): (r: seq<seq<Log>>)
    decreases bs
  {
    if bs == [] then []
    else
      match L.ApplyBlock(cfg, s, bs[0])
      case Rejected(_, _) => []
      case Accepted(s') => [s'.lastLogs] + LogsAlong(cfg, s', bs[1..])
  }

  lemma OneMore(cfg: L.Config, s: L.State, bs: seq<L.Block>, i: nat, o: L.Outcome)
    requires i < |bs| && o == L.ApplyBlock(cfg, s, bs[i])
    ensures o.Rejected? ==> Along(cfg, s, bs[i..]) == None && LogsAlong(cfg, s, bs[i..]) == []
    ensures o.Accepted? ==> Along(cfg, s, bs[i..]) == Along(cfg, o.s, bs[i + 1..])
    ensures o.Accepted? ==> LogsAlong(cfg, s, bs[i..]) == [o.s.lastLogs] + LogsAlong(cfg, o.s, bs[i + 1..])
  {
    assert bs[i..][1..] == bs[i + 1..];
  }

  /** The next block, if it is accepted. */
  method Step(ledger: LedgerObject, bs: seq<L.Block>, i: nat) returns (ok: bool)
    requires i < |bs|
    modifies ledger
    ensures !ok ==>
              Along(ledger.cfg, old(ledger.Value()), bs[i..]) == None
              && LogsAlong(ledger.cfg, old(ledger.Value()), bs[i..]) == []
    ensures ok ==> Along(ledger.cfg, old(ledger.Value()), bs[i..]) == Along(ledger.cfg, ledger.Value(), bs[i + 1..])
    ensures ok ==>
              LogsAlong(ledger.cfg, old(ledger.Value()), bs[i..]) == [ledger.lastLogs] + LogsAlong(ledger.cfg,
                  ledger.Value(), bs[i + 1..])
  {
    ghost var s := ledger.Value();
    var err := ledger.ApplyBlock(bs[i]);
    OneMore(ledger.cfg, s, bs, i, Ended(err, ledger.Value()));
    return err.None?;
  }

  /** `stored` of `all` are stored, `rest` are not. */
  ghost predicate Stored(stored: seq<seq<Log>>, rest: seq<seq<Log>>, all: seq<seq<Log>>)
  {
    stored + rest == all
  }

  lemma NoneStored(all: seq<seq<Log>>)
    ensures Stored([], all, all) == true
  {
  }

  lemma OneStored(stored: seq<seq<Log>>, x: seq<Log>, rest: seq<seq<Log>>, next: seq<seq<Log>>, all: seq<seq<Log>>)
    requires Stored(stored, rest, all) && rest == [x] + next
    ensures Stored(stored + [x], next, all) == true
  {
    assert stored + [x] + next == stored + ([x] + next);
  }

  lemma AllStored(stored: seq<seq<Log>>, rest: seq<seq<Log>>, all: seq<seq<Log>>)
    requires Stored(stored, rest, all) && rest == []
    ensures stored == all
  {
  }

  /** A fast-forward stores, for each block, the events it emitted. */
  method FastForward(ledger: LedgerObject, suffix: seq<L.Block>) returns (ok: bool, stored: seq<seq<Log>>)
    modifies ledger
    ensures ok == Along(ledger.cfg, old(ledger.Value()), suffix).Some?
    ensures ok ==> Some(ledger.Value()) == Along(ledger.cfg, old(ledger.Value()), suffix)
    ensures stored == LogsAlong(ledger.cfg, old(ledger.Value()), suffix)
  {
    ok, stored := true, [];
    ghost var s, all := ledger.Value(), LogsAlong(ledger.cfg, ledger.Value(), suffix);
    ghost var rest := all;
    NoneStored(all);
    assert suffix[0..] == suffix;
    var i := 0;
    while i < |suffix|
      invariant ok && 0 <= i <= |suffix| && Stored(stored, rest, all) == true
      invariant rest == LogsAlong(ledger.cfg, ledger.Value(), suffix[i..])
      invariant Along(ledger.cfg, ledger.Value(), suffix[i..]) == Along(ledger.cfg, s, suffix)
    {
      ok := Step(ledger, suffix, i);
      if !ok {
        AllStored(stored, rest, all);
        return;
      }
      ghost var next := LogsAlong(ledger.cfg, ledger.Value(), suffix[i + 1..]);
      OneStored(stored, ledger.lastLogs, rest, next, all);
      stored, rest := stored + [ledger.lastLogs], next;
      i := i + 1;
    }
    AllStored(stored, rest, all);
  }

  /**
   A rewind replays the branch on a copy of the base and takes it over. What it stores as the events
   of every block of the branch are those of the head it abandons.
   */
  method Rewind(ledger: LedgerObject, base: LedgerObject, branch: seq<L.Block>)
      returns (ok: bool, stored: seq<seq<Log>>)
    requires base != ledger && base.cfg == ledger.cfg
    modifies ledger
    ensures ok == Along(ledger.cfg, base.Value().(lastLogs := []), branch).Some?
    ensures ok ==>
              ledger.Value() == Along(ledger.cfg, base.Value().(lastLogs := []),
                                      branch).value.(lastLogs := old(ledger.lastLogs))
    ensures ok ==> |stored| == |branch| && forall i :: 0 <= i < |stored| ==> stored[i] == old(ledger.lastLogs)
    ensures !ok ==> ledger.Value() == old(ledger.Value()) && stored == []
  {
    stored := [];
    var copy := base.Clone();
    ok := Replay(copy, branch);
    if !ok { return; }
    ledger.ReplaceWith(copy);
    for i := 0 to |branch|
      invariant |stored| == i && forall j :: 0 <= j < i ==> stored[j] == ledger.lastLogs
    {
      stored := stored + [ledger.lastLogs];
    }
  }

  /** The blocks in turn, stopping at the first that is refused. */
  method Replay(ledger: LedgerObject, blocks: seq<L.Block>) returns (ok: bool)
    modifies ledger
    ensures ok == Along(ledger.cfg, old(ledger.Value()), blocks).Some?
    ensures ok ==> Some(ledger.Value()) == Along(ledger.cfg, old(ledger.Value()), blocks)
  {
    ok := true;
    ghost var s := ledger.Value();
    var i := 0;
    while i < |blocks|
      invariant ok && 0 <= i <= |blocks|
      invariant Along(ledger.cfg, ledger.Value(), blocks[i..]) == Along(ledger.cfg, s, blocks)
    {
      ok := Step(ledger, blocks, i);
      if !ok { return; }
      i := i + 1;
    }
  }
}
