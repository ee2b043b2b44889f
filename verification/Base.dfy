/** Identifiers and small datatypes shared by every component of the indexer. */
module Base {

  datatype Option<+T> = None | Some(value: T)

  type Byte = b: int | 0 <= b < 256 witness 0

  /** A script hash. `OP_RETURN_HASH` is the fixed hash that stands for burned outputs (main.rs:59). */
  datatype FullHash = OP_RETURN_HASH | ScriptHash(id: nat)

  datatype OutPoint = OutPoint(txid: nat, vout: nat)

  datatype Location = Location(outpoint: OutPoint, offset: nat)

  type LowerTick = seq<Byte>

  /** A token tick as deployed, together with its case fold. The fold is a function of the bytes in
      the source; here every tick carries its own, so all results hold for every fold. */
  datatype Tick = Tick(bytes: seq<Byte>, lower: LowerTick)

  datatype TxPrevout = TxPrevout(scriptHash: FullHash, value: nat)

  /** An output, with what the script classifier says about it. */
  datatype TxOut = TxOut(value: nat, scriptHash: FullHash, opReturn: bool, unspendable: bool)

  datatype TxIn = TxIn(outpoint: OutPoint, scriptSig: seq<Byte>)

  datatype Tx = Tx(txid: nat, coinbase: bool, inputs: seq<TxIn>, outputs: seq<TxOut>)
}
