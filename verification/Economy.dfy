/** $SHARD monetary policy: a supply cap and a halving subsidy. */
module Economy {
  import opened Words

  const COIN: u64 := 100_000_000
  const MAX_SUPPLY: u64 := 21_000_000 * COIN
  const INITIAL_REWARD: u64 := 50 * COIN
  const HALVING_INTERVAL: u64 := 210_000
  const MIN_BOND: u64 := 1_000 * COIN

  /** `v >> n`. */
  function ShiftRight(v: nat, n: nat): (r: nat)
    ensures r <= v
  {
    if n == 0 then v else ShiftRight(v / 2, n - 1)
  }

  function BlockReward(height: nat, minted: u64): (r: u64)
    ensures minted <= MAX_SUPPLY ==> minted + r <= MAX_SUPPLY
    ensures r <= INITIAL_REWARD
  {
    if minted >= MAX_SUPPLY then 0
    else
      var halvings := height / HALVING_INTERVAL;
      if halvings >= 64 then 0
      else
        var reward := ShiftRight(INITIAL_REWARD, halvings);
        var remaining := MAX_SUPPLY - minted;
        if reward > remaining then remaining else reward
  }

  lemma {:induction false} ShiftHalves(v: nat, n: nat)
    ensures ShiftRight(v, n + 1) == ShiftRight(v, n) / 2
  {
    if n > 0 { ShiftHalves(v / 2, n - 1); }
  }

  lemma {:induction false} ShiftFalls(v: nat, m: nat, n: nat)
    requires m <= n
    ensures ShiftRight(v, n) <= ShiftRight(v, m)
    decreases n
  {
    if m < n {
      ShiftFalls(v, m, n - 1);
      ShiftHalves(v, n - 1);
    }
  }

  /** The subsidy never grows, neither with height nor with what has been minted. */
  lemma {:induction false} RewardFalls(h: nat, h': nat, minted: u64, minted': u64)
    requires h <= h' && minted <= minted'
    ensures BlockReward(h', minted') <= BlockReward(h, minted)
  {
    ShiftFalls(INITIAL_REWARD, h / HALVING_INTERVAL, h' / HALVING_INTERVAL);
  }

  /** Blocks at any heights, one after the other, each minting its subsidy. */
  function Emitted(heights: seq<nat>, minted: u64): (r: nat)
    requires minted <= MAX_SUPPLY
    ensures minted <= r <= MAX_SUPPLY
  {
    if heights == [] then minted else Emitted(heights[1..], minted + BlockReward(heights[0], minted))
  }
}
