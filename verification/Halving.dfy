/** The subsidy in plain numbers: what a block at each height pays. */
module Halving {
  import opened Words
  import opened Division
  import Economy

  /** The supply cap and the first subsidy, in the smallest unit. */
  const CAP: nat := 2_100_000_000_000_000
  const FIRST: nat := 5_000_000_000

  function Least(a: int, b: int): (c: int)
  {
    if a < b then a else b
  }

  lemma {:induction false} ShiftDivides(v: nat, n: nat)
    ensures Economy.ShiftRight(v, n) == v / Pow2(n)
  {
    if n > 0 {
      ShiftDivides(v / 2, n - 1);
      DividesInTurn(v, 2, Pow2(n - 1));
    }
  }

  lemma {:induction false} Pow2Grows(m: nat, n: nat)
    requires m <= n
    ensures Pow2(m) <= Pow2(n)
    decreases n
  {
    if m < n { Pow2Grows(m, n - 1); }
  }

  /**
   The subsidy at a height: 50 coins halved once for every 210,000 blocks, rounded down, or what is left of the
   21 million coins if that is less; nothing once they are all minted.
   */
  lemma SubsidyIs(height: nat, minted: u64)
    ensures Economy.BlockReward(height, minted) ==
            if minted >= CAP then 0 else Least(CAP - minted, FIRST / Pow2(height / 210_000))
  {
    ShiftDivides(FIRST, height / 210_000);
    if height / 210_000 >= 64 {
      Pow2Grows(64, height / 210_000);
      Pow2Of64();
      QuotientIs(FIRST, Pow2(height / 210_000), 0, FIRST);
    }
  }

  /** The cap does not cut the subsidy short. */
  ghost predicate Uncapped(height: nat, minted: u64)
  {
    minted < CAP && FIRST / Pow2(height / 210_000) <= CAP - minted
  }

  /** Wherever the cap does not cut it short, the subsidy 210,000 blocks later is half of it, rounded down. */
  lemma SubsidyHalves(height: nat, minted: u64, minted': u64)
    requires Uncapped(height, minted) && Uncapped(height + 210_000, minted')
    ensures Economy.BlockReward(height + 210_000, minted') == Economy.BlockReward(height, minted) / 2
  {
    SubsidyIs(height, minted);
    SubsidyIs(height + 210_000, minted');
    var n := height / 210_000;
    assert (height + 210_000) / 210_000 == n + 1;
    ShiftDivides(FIRST, n);
    ShiftDivides(FIRST, n + 1);
    Economy.ShiftHalves(FIRST, n);
  }

  /** In the first period the subsidy is 50 coins, as long as the cap leaves as much. */
  lemma FirstSubsidy(height: nat, minted: u64)
    requires height < 210_000 && minted + FIRST <= CAP
    ensures Economy.BlockReward(height, minted) == 50 * 100_000_000
  {
    SubsidyIs(height, minted);
  }
}
