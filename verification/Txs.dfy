/** Transactions and logs. */
module Txs {
  import opened Words

  type Address = seq<byte>

  const TRANSFER: byte := 0
  const DEPLOY: byte := 1
  const CALL: byte := 2
  const REGISTER: byte := 3
  const UNREGISTER: byte := 4
  const SLASH: byte := 5
  const FAUCET: byte := 6
  const STORAGE_PROOF: byte := 7

  datatype Tx = Tx(
    from: Address, to: Address, amount: u64, fee: u64, nonce: u64, chainId: u64, kind: byte, gas: u64,
    data: seq<byte>, pubKey: seq<byte>, sig: seq<byte>)
  {
    predicate IsCoinbase() { from == [] }
  }

  datatype Log = Log(contract: Address, topics: seq<u64>, txIndex: int)
}
