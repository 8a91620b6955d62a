/** The chain data the indexer handles without interpreting it. */
module ChainTypes {

  /** A block height (int64 in the source; the model does not bound it). */
  type Height = int

  /** A block time, as an opaque instant. */
  type Time = int

  type Hash = seq<bv8>

  /** A raw transaction as carried in a block; `hash` is what `tx.Hash()` returns. */
  datatype RawTx = RawTx(bytes: seq<bv8>, hash: Hash)

  /** The part of the RPC's block result the indexer and its actions read. */
  datatype Block = Block(height: Height, time: Time, txs: seq<RawTx>)
}
