/** Transaction ids, taken to be collision-free, and the status a node tracks for each. */
module Transactions {

  type TxId = nat

  function Ids(list: seq<TxId>): set<TxId> {
    set t | t in list
  }

  datatype Status = Voting | FallbackResolution | Finalized | Rejected
}
