/** Genesis from a configuration: whatever order its funding table is visited in, every node makes the same start. */
module Bootstrap {
  import opened Words
  import opened Fork
  import opened Chain
  import opened ChainNode
  import opened Finality
  import opened LedgerLife
  import opened LedgerState
  import opened Txs
  import Hrw
  import L = Ledger
  import Supply
  import Wire

  /* ----- The funding table in order ----- */

  /** The funded addresses, ascending. */
  ghost predicate Lists(addrs: seq<Address>, funding: map<Address, u64>)
  {
    Hrw.Ranked(ByAddress(), addrs) && Hrw.Elements(addrs) == funding.Keys
  }

  /** No score, so ties go to the smaller address. */
  function ByAddress(): (score: Hrw.Id -> u64)
  {
    a => 0
  }

  lemma {:induction false} OneOrder(funding: map<Address, u64>, addrs: seq<Address>, addrs': seq<Address>)
    requires Lists(addrs, funding) && Lists(addrs', funding)
    ensures addrs == addrs'
  {
    Hrw.RankedIsUnique(ByAddress(), addrs, addrs');
  }

  /** The addresses as the map yields them, sorted. */
  method Sorted(funding: map<Address, u64>) returns (addrs: seq<Address>)
    ensures Lists(addrs, funding)
  {
    var found, rest := [], funding.Keys;
    while rest != {}
      invariant rest <= funding.Keys && Hrw.Distinct(found) && Hrw.Elements(found) == funding.Keys - rest
    {
      var a :| a in rest;
      assert a !in Hrw.Elements(found);
      assert Hrw.Elements(found + [a]) == Hrw.Elements(found) + {a};
      found, rest := found + [a], rest - {a};
    }
    addrs := [];
    for i := 0 to |found|
      invariant addrs == Hrw.Sort(ByAddress(), found[..i])
    {
      assert found[..i + 1][..i] == found[..i];
      addrs := Hrw.Insert(ByAddress(), found[i], addrs);
    }
    assert found[..|found|] == found;
    Hrw.SortRanks(ByAddress(), found);
    Hrw.SortKeeps(ByAddress(), found);
  }

  /* ----- The block ----- */

  /** A coinbase for each funded address, in order. */
  function FundingTxs(funding: map<Address, u64>, addrs: seq<Address>): (txs: seq<Tx>)
    requires forall a :: a in addrs ==> a in funding
    ensures |txs| == |addrs| && forall i :: 0 <= i < |addrs| ==> txs[i] == FundingTx(addrs[i], funding[addrs[i]])
  {
    if addrs == [] then [] else [FundingTx(addrs[0], funding[addrs[0]])] + FundingTxs(funding, addrs[1..])
  }

  function FundingTx(a: Address, amount: u64): (t: Tx)
  {
    Tx([], a, amount, 0, 0, 0, TRANSFER, 0, [], [], [])
  }

  /** What the chain is configured with; `seal` makes the roots and the signature. */
  datatype Launch = Launch(funding: map<Address, u64>, validator: Address, timestamp: int, seal: seq<Tx> -> seq<byte>)

  function BlockOf(c: Launch, addrs: seq<Address>): (b: Block)
    requires forall a :: a in addrs ==> a in c.funding
  {
    var txs := FundingTxs(c.funding, addrs);
    Block(Header(0, ZERO, c.validator, c.timestamp, 0, c.seal(txs)), Wire.BodyBytes(txs))
  }

  /** The genesis block of a configuration. */
  ghost predicate IsGenesis(c: Launch, b: Block)
  {
    exists addrs :: Lists(addrs, c.funding) && (forall a :: a in addrs ==> a in c.funding) && b == BlockOf(c, addrs)
  }

  /** Every node makes the same one. */
  lemma {:induction false} GenesisIsUnique(c: Launch, b: Block, b': Block)
    requires IsGenesis(c, b) && IsGenesis(c, b')
    ensures b == b'
  {
    var addrs :| Lists(addrs, c.funding) && (forall a :: a in addrs ==> a in c.funding) && b == BlockOf(c, addrs);
    var addrs' :| Lists(addrs', c.funding) && (forall a :: a in addrs' ==> a in c.funding) && b' == BlockOf(c, addrs');
    OneOrder(c.funding, addrs, addrs');
  }

  method MakeGenesis(c: Launch) returns (b: Block)
    ensures IsGenesis(c, b)
  {
    var addrs := Sorted(c.funding);
    assert forall a :: a in addrs ==> a in Hrw.Elements(addrs);
    var txs := MakeTxs(c.funding, addrs);
    var body := Wire.EncodeTxs(txs);
    b := Block(Header(0, ZERO, c.validator, c.timestamp, 0, c.seal(txs)), body);
    assert b == BlockOf(c, addrs);
  }

  method MakeTxs(funding: map<Address, u64>, addrs: seq<Address>) returns (txs: seq<Tx>)
    requires forall a :: a in addrs ==> a in funding
    ensures txs == FundingTxs(funding, addrs)
  {
    txs := [];
    for i := 0 to |addrs|
      invariant |txs| == i && forall j :: 0 <= j < i ==> txs[j] == FundingTx(addrs[j], funding[addrs[j]])
    {
      txs := txs + [FundingTx(addrs[i], funding[addrs[i]])];
    }
  }

  /* ----- The start of a node ----- */

  /** The block made, the ledger funded, and the chain begun with both; once. */
  method Start(chain: ChainObject<L.State>, ledger: LedgerObject, c: Launch, ghost genesis: Block)
    returns (err: Option<ChainError>)
    requires chain.Valid() && (!chain.hasGenesis ==> chain.tree.nodes == map[] && chain.blockById == map[])
    requires !chain.hasGenesis ==> ledger.Value() == L.State(map[], map[], 0, 0, map[], [])
    requires IsGenesis(c, genesis) && chain.origin == Origin(genesis, Supply.Genesis(c.funding, c.validator))
    requires GoodOrigin(chain.rules, chain.origin)
    modifies chain, chain.tree, ledger
    ensures chain.Valid() && err == (if old(chain.hasGenesis) then Some(HasGenesis) else None)
    ensures err.None? ==> chain.Value() == Begin(chain.rules, genesis, Supply.Genesis(c.funding, c.validator))
                          && ledger.Value() == Supply.Genesis(c.funding, c.validator)
    ensures err.Some? ==> chain.Value() == old(chain.Value()) && ledger.Value() == old(ledger.Value())
  {
    if chain.hasGenesis { return Some(HasGenesis); }
    var b := MakeGenesis(c);
    GenesisIsUnique(c, b, genesis);
    Fund(ledger, c.funding, c.validator);
    var funded := L.State(ledger.accounts, ledger.validators, ledger.height, ledger.minted, ledger.faucetClaims,
                          ledger.lastLogs);
    err := chain.Genesis(b, funded);
  }
}
