/**
 * The rows the IBC action writes (indexer/actions/ibc/ibc_models.go) and the
 * database as an append-only sequence of rows whose primary keys stay unique.
 */
module IbcModels {
  import opened Wrappers
  import opened ChainTypes

  /** A Tx row; keyed by its hash. */
  datatype TxRow = TxRow(
    hash: Hash, timestamp: Time, chainID: string, blockHeight: Height, rawLog: string,
    code: nat, feeAmount: string, feeDenom: string, gasUsed: int, gasWanted: int)

  /**
   * A MsgTransfer row; keyed by (TxHash, MsgIndex). A TxHash whose pgtype Set
   * failed stays undefined (None).
   */
  datatype TransferRow = TransferRow(
    txHash: Option<Hash>, msgIndex: nat, signer: string, sender: string, receiver: string,
    amount: string, denom: string, srcChannel: string, srcPort: string, route: string)

  /** The shared shape of MsgRecvPacket, MsgTimeout and MsgAcknowledgement rows. */
  datatype PacketRow = PacketRow(
    txHash: Option<Hash>, msgIndex: nat, signer: string,
    srcChannel: string, dstChannel: string, srcPort: string, dstPort: string)

  datatype Table = Txs | MsgTransfers | MsgRecvPackets | MsgTimeouts | MsgAcknowledgements

  /** A primary key: the table, the tx hash and (for message rows) the message index. */
  datatype RowKey = RowKey(table: Table, hash: Option<Hash>, msgIndex: nat)

  datatype Row =
    | TxRecord(tx: TxRow)
    | TransferRecord(transfer: TransferRow)
    | RecvPacketRecord(packet: PacketRow)
    | TimeoutRecord(packet: PacketRow)
    | AckRecord(packet: PacketRow)
  {
    function Key(): RowKey {
      match this
      case TxRecord(t) => RowKey(Txs, Some(t.hash), 0)
      case TransferRecord(t) => RowKey(MsgTransfers, t.txHash, t.msgIndex)
      case RecvPacketRecord(p) => RowKey(MsgRecvPackets, p.txHash, p.msgIndex)
      case TimeoutRecord(p) => RowKey(MsgTimeouts, p.txHash, p.msgIndex)
      case AckRecord(p) => RowKey(MsgAcknowledgements, p.txHash, p.msgIndex)
    }
  }

  ghost predicate UniqueKeys(rows: seq<Row>) {
    forall i, j :: 0 <= i < j < |rows| ==> rows[i].Key() != rows[j].Key()
  }

  predicate KeyFree(rows: seq<Row>, row: Row) {
    forall r <- rows :: r.Key() != row.Key()
  }

  /**
   * DB.Create: the row is stored unless its key is taken or the database
   * rejects it for a reason outside the model (`fault`).
   */
  function Insert(fault: Row -> bool, rows: seq<Row>, row: Row): seq<Row> {
    if !fault(row) && KeyFree(rows, row) then rows + [row] else rows
  }

  /** An insert only appends, stores the row exactly when accepted, and keeps keys unique. */
  lemma InsertKeepsKeysUnique(fault: Row -> bool, rows: seq<Row>, row: Row)
    requires UniqueKeys(rows)
    ensures UniqueKeys(Insert(fault, rows, row))
    ensures Insert(fault, rows, row) == rows || Insert(fault, rows, row) == rows + [row]
    ensures row in Insert(fault, rows, row) <==> row in rows || (!fault(row) && KeyFree(rows, row))
  {
  }

  const DuplicateKey: Error := "duplicate key value violates unique constraint"
  const Rejected: Error := "insert rejected by the database"

  /** The database handle; `rows` only ever grows. */
  class Store {
    const fault: Row -> bool
    var rows: seq<Row>

    constructor (fault: Row -> bool)
      ensures this.fault == fault && rows == []
    {
      this.fault := fault;
      rows := [];
    }

    method Create(row: Row) returns (err: Option<Error>)
      modifies this`rows
      ensures rows == Insert(fault, old(rows), row)
      ensures err.None? <==> rows == old(rows) + [row]
    {
      if fault(row) {
        return Some(Rejected);
      }
      if !KeyFree(rows, row) {
        return Some(DuplicateKey);
      }
      rows := rows + [row];
      return None;
    }
  }
}
