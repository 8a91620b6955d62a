/**
 * The ics20_transfers block action (indexer/actions/ibc/ibc.go): for every tx
 * of a block, a Tx row and one row per IBC transfer or channel message.
 * Decoding, QueryTx, pgtype's Set and the context are given as oracles; the
 * database is a Store.
 */
module Ibc {
  import opened Wrappers
  import opened ChainTypes
  import opened IbcTypes
  import opened IbcModels

  /** The name under which the action is configured. */
  const BlockActionName: string := "ics20_transfers"

  /** Whether pgtype's Set succeeds on a value, for the three column types used. */
  datatype PgTypes = PgTypes(setBytea: Hash -> bool, setTimestamp: Time -> bool, setJsonb: string -> bool)

  /** The context as checked before tx `i`: ctx.Err() once it is done, None before. */
  type Context = nat -> Option<Error>

  datatype IBCTransferAction = IBCTransferAction(actionName: string) {

    function Name(): string {
      actionName
    }

    /** Execute is IndexIBCTransfers. */
    method Execute(db: Store, client: Client, pg: PgTypes, ctx: Context, block: Block) returns (err: Option<Error>)
      modifies db
      ensures var r := IndexedFrom(db.fault, old(db.rows), client, pg, ctx, block, 0);
        err == r.err && db.rows == r.rows
    {
      err := IndexIBCTransfers(db, client, pg, ctx, block);
    }

    /** IndexIBCTransfers (lines 60-179). */
    method IndexIBCTransfers(db: Store, client: Client, pg: PgTypes, ctx: Context, block: Block) returns (err: Option<Error>)
      modifies db
      ensures var r := IndexedFrom(db.fault, old(db.rows), client, pg, ctx, block, 0);
        err == r.err && db.rows == r.rows
    {
      ghost var goal := IndexedFrom(db.fault, db.rows, client, pg, ctx, block, 0);
      for index := 0 to |block.txs|
        invariant goal == IndexedFrom(db.fault, db.rows, client, pg, ctx, block, index)
      {
        if ctx(index).Some? {
          return ctx(index);
        }
        ghost var rowsBefore := db.rows;
        var tx := block.txs[index];
        var decoded := client.decode(tx);
        if decoded.Err? {
          continue;  // "Failed to decode tx"
        }
        var sdkTx := decoded.value;
        var queried := client.queryTx(tx.hash);
        if queried.Err? {
          continue;  // "Failed to query tx results"
        }
        var txRes := queried.value;
        var feeAmount, feeDenom;
        if |sdkTx.fee| == 0 {
          feeAmount, feeDenom := "0", "";
        } else {
          feeAmount, feeDenom := sdkTx.fee[0].amount, sdkTx.fee[0].denom;
        }
        if !pg.setBytea(tx.hash) {
          continue;  // "Failed to set tx hash on Tx model"
        }
        if !pg.setTimestamp(block.time) {
          continue;  // "Failed to set block time on Tx model"
        }
        var rawLog := txRes.log;
        if txRes.code > 0 {
          rawLog := ErrorLogPrefix + txRes.log + ErrorLogSuffix;
        }
        if !pg.setJsonb(rawLog) {
          continue;  // "Failed to set raw log on Tx model"
        }
        var dbTx := TxRow(tx.hash, block.time, client.chainID, block.height, rawLog,
                          txRes.code, feeAmount, feeDenom, txRes.gasUsed, txRes.gasWanted);
        var _ := db.Create(TxRecord(dbTx));  // the outcome is only logged
        ghost var afterTx := db.rows;
        for msgIndex := 0 to |sdkTx.msgs|
          invariant HandledMsgs(db.fault, afterTx, pg, sdkTx.msgs, 0, tx.hash)
                    == HandledMsgs(db.fault, db.rows, pg, sdkTx.msgs, msgIndex, tx.hash)
        {
          HandleIBCMsg(db, pg, sdkTx.msgs[msgIndex], msgIndex, block.height, tx.hash);
        }
        assert db.rows == IndexedTx(db.fault, rowsBefore, client, pg, block, tx);
      }
      return None;
    }

    /** HandleIBCMsg (lines 206-334): at most one row, keyed by (hash, msgIndex). */
    method HandleIBCMsg(db: Store, pg: PgTypes, msg: Msg, msgIndex: nat, height: Height, hash: Hash)
      modifies db
      ensures db.rows == HandledMsg(db.fault, old(db.rows), pg, msg, msgIndex, hash)
    {
      // a failed TxHash.Set is only logged: the row goes in with an undefined hash
      var txHash: Option<Hash> := if pg.setBytea(hash) then Some(hash) else None;
      match msg {
        case MsgTransfer(port, channel, token, sender, receiver, route) =>
          var transfer := TransferRow(txHash, msgIndex, sender, sender, receiver, token.amount, token.denom, channel, port, route);
          var _ := db.Create(TransferRecord(transfer));
        case MsgRecvPacket(p, signer) =>
          var recv := PacketRow(txHash, msgIndex, signer, p.sourceChannel, p.destinationChannel, p.sourcePort, p.destinationPort);
          var _ := db.Create(RecvPacketRecord(recv));
        case MsgTimeout(p, signer) =>
          var timeout := PacketRow(txHash, msgIndex, signer, p.sourceChannel, p.destinationChannel, p.sourcePort, p.destinationPort);
          var _ := db.Create(TimeoutRecord(timeout));
        case MsgAcknowledgement(p, signer) =>
          var ack := PacketRow(txHash, msgIndex, signer, p.sourceChannel, p.destinationChannel, p.sourcePort, p.destinationPort);
          var _ := db.Create(AckRecord(ack));
        case OtherMsg(_) =>
      }
    }
  }

  /** NewIBCTransfer: a fresh action named BlockActionName. */
  function NewIBCTransfer(): (a: IBCTransferAction)
    ensures a.Name() == BlockActionName
  {
    IBCTransferAction(BlockActionName)
  }

  // ---------------------------------------------------------------------------
  // Specification

  /** The row a message maps to: transfers and the three packet messages; nothing otherwise. */
  function MsgRow(msg: Msg, msgIndex: nat, txHash: Option<Hash>): Option<Row> {
    match msg
    case MsgTransfer(port, channel, token, sender, receiver, route) =>
      Some(TransferRecord(TransferRow(txHash, msgIndex, sender, sender, receiver, token.amount, token.denom, channel, port, route)))
    case MsgRecvPacket(p, signer) =>
      Some(RecvPacketRecord(PacketRow(txHash, msgIndex, signer, p.sourceChannel, p.destinationChannel, p.sourcePort, p.destinationPort)))
    case MsgTimeout(p, signer) =>
      Some(TimeoutRecord(PacketRow(txHash, msgIndex, signer, p.sourceChannel, p.destinationChannel, p.sourcePort, p.destinationPort)))
    case MsgAcknowledgement(p, signer) =>
      Some(AckRecord(PacketRow(txHash, msgIndex, signer, p.sourceChannel, p.destinationChannel, p.sourcePort, p.destinationPort)))
    case OtherMsg(_) => None
  }

  /** The hash a message row carries: undefined when pgtype refuses it. */
  function RowHash(pg: PgTypes, hash: Hash): Option<Hash> {
    if pg.setBytea(hash) then Some(hash) else None
  }

  function HandledMsg(fault: Row -> bool, rows: seq<Row>, pg: PgTypes, msg: Msg, msgIndex: nat, hash: Hash): seq<Row> {
    match MsgRow(msg, msgIndex, RowHash(pg, hash))
    case None => rows
    case Some(row) => Insert(fault, rows, row)
  }

  /** Handling messages `from` .. end of a tx, each with its position as msgIndex. */
  function HandledMsgs(fault: Row -> bool, rows: seq<Row>, pg: PgTypes, msgs: seq<Msg>, from: nat, hash: Hash): seq<Row>
    decreases |msgs| - from
  {
    if from >= |msgs| then rows
    else HandledMsgs(fault, HandledMsg(fault, rows, pg, msgs[from], from, hash), pg, msgs, from + 1, hash)
  }

  /** The Tx row built for a decoded and queried tx (lines 104-126, 151-155). */
  function TxRowOf(client: Client, block: Block, tx: RawTx, d: DecodedTx, res: TxResult): TxRow {
    var fee := SelectFee(d.fee);
    TxRow(tx.hash, block.time, client.chainID, block.height, RawLog(res.code, res.log),
          res.code, fee.0, fee.1, res.gasUsed, res.gasWanted)
  }

  /** The rows one tx adds (lines 71-176). */
  function IndexedTx(fault: Row -> bool, rows: seq<Row>, client: Client, pg: PgTypes, block: Block, tx: RawTx): seq<Row> {
    match client.decode(tx)
    case Err(_) => rows
    case Ok(d) =>
      match client.queryTx(tx.hash)
      case Err(_) => rows
      case Ok(res) =>
        if !pg.setBytea(tx.hash) || !pg.setTimestamp(block.time) || !pg.setJsonb(RawLog(res.code, res.log)) then rows
        else HandledMsgs(fault, Insert(fault, rows, TxRecord(TxRowOf(client, block, tx, d, res))), pg, d.msgs, 0, tx.hash)
  }

  datatype Indexed = Indexed(err: Option<Error>, rows: seq<Row>)

  /** IndexIBCTransfers from tx `from` on: stop with ctx.Err() at the first cancelled check. */
  function IndexedFrom(fault: Row -> bool, rows: seq<Row>, client: Client, pg: PgTypes, ctx: Context, block: Block, from: nat): Indexed
    decreases |block.txs| - from
  {
    if from >= |block.txs| then Indexed(None, rows)
    else if ctx(from).Some? then Indexed(ctx(from), rows)
    else IndexedFrom(fault, IndexedTx(fault, rows, client, pg, block, block.txs[from]), client, pg, ctx, block, from + 1)
  }

  /** The rows of messages `from` .. end, in order, as a clean database would store them. */
  function MsgRows(msgs: seq<Msg>, from: nat, txHash: Option<Hash>): seq<Row>
    decreases |msgs| - from
  {
    if from >= |msgs| then []
    else (match MsgRow(msgs[from], from, txHash) case Some(r) => [r] case None => []) + MsgRows(msgs, from + 1, txHash)
  }

  // ---------------------------------------------------------------------------
  // Properties

  /**
   * The action returns an error exactly when the context is found cancelled
   * before some tx, and then it is ctx.Err() from the first such check.
   */
  lemma {:induction false} IndexErrorIffCancelled(fault: Row -> bool, rows: seq<Row>, client: Client, pg: PgTypes, ctx: Context, block: Block, from: nat)
    ensures var r := IndexedFrom(fault, rows, client, pg, ctx, block, from);
      && (r.err.Some? <==> exists i :: from <= i < |block.txs| && ctx(i).Some?)
      && (r.err.Some? ==> exists i :: from <= i < |block.txs| && ctx(i).Some? && r.err == ctx(i)
                                      && forall j :: from <= j < i ==> ctx(j).None?)
    decreases |block.txs| - from
  {
    if from < |block.txs| && ctx(from).None? {
      IndexErrorIffCancelled(fault, IndexedTx(fault, rows, client, pg, block, block.txs[from]), client, pg, ctx, block, from + 1);
    }
  }

  /** Whether the database refuses rows never changes what the action returns. */
  lemma {:induction false} IndexIgnoresInsertFailures(f1: Row -> bool, r1: seq<Row>, f2: Row -> bool, r2: seq<Row>,
                                                       client: Client, pg: PgTypes, ctx: Context, block: Block, from: nat)
    ensures IndexedFrom(f1, r1, client, pg, ctx, block, from).err == IndexedFrom(f2, r2, client, pg, ctx, block, from).err
    decreases |block.txs| - from
  {
    if from < |block.txs| && ctx(from).None? {
      IndexIgnoresInsertFailures(f1, IndexedTx(f1, r1, client, pg, block, block.txs[from]),
                                 f2, IndexedTx(f2, r2, client, pg, block, block.txs[from]), client, pg, ctx, block, from + 1);
    }
  }

  lemma {:induction false} HandledMsgsKeepRows(fault: Row -> bool, rows: seq<Row>, pg: PgTypes, msgs: seq<Msg>, from: nat, hash: Hash)
    requires UniqueKeys(rows)
    ensures var out := HandledMsgs(fault, rows, pg, msgs, from, hash);
      && UniqueKeys(out) && |rows| <= |out| && out[..|rows|] == rows
      && forall r :: r in out && r !in rows ==>
           exists k :: from <= k < |msgs| && MsgRow(msgs[k], k, RowHash(pg, hash)) == Some(r)
    decreases |msgs| - from
  {
    if from < |msgs| {
      var next := HandledMsg(fault, rows, pg, msgs[from], from, hash);
      match MsgRow(msgs[from], from, RowHash(pg, hash)) {
        case None =>
        case Some(row) => InsertKeepsKeysUnique(fault, rows, row);
      }
      HandledMsgsKeepRows(fault, next, pg, msgs, from + 1, hash);
      var out := HandledMsgs(fault, next, pg, msgs, from + 1, hash);
      assert out[..|next|][..|rows|] == out[..|rows|];
    }
  }

  /**
   * The database only grows: a tx keeps every earlier row, keeps primary keys
   * unique, and each message row it adds is the row of the message at its
   * msgIndex.
   */
  lemma IndexedTxKeepsRows(fault: Row -> bool, rows: seq<Row>, client: Client, pg: PgTypes, block: Block, tx: RawTx)
    requires UniqueKeys(rows)
    ensures var out := IndexedTx(fault, rows, client, pg, block, tx);
      && UniqueKeys(out) && |rows| <= |out| && out[..|rows|] == rows
      && forall r :: r in out && r !in rows && !r.TxRecord? ==>
           exists d, k :: client.decode(tx) == Ok(d) && 0 <= k < |d.msgs|
                          && MsgRow(d.msgs[k], k, RowHash(pg, tx.hash)) == Some(r)
  {
    match client.decode(tx) {
      case Err(_) =>
      case Ok(d) =>
        match client.queryTx(tx.hash) {
          case Err(_) =>
          case Ok(res) =>
            if pg.setBytea(tx.hash) && pg.setTimestamp(block.time) && pg.setJsonb(RawLog(res.code, res.log)) {
              var txRow := TxRecord(TxRowOf(client, block, tx, d, res));
              var withTx := Insert(fault, rows, txRow);
              InsertKeepsKeysUnique(fault, rows, txRow);
              HandledMsgsKeepRows(fault, withTx, pg, d.msgs, 0, tx.hash);
              var out := HandledMsgs(fault, withTx, pg, d.msgs, 0, tx.hash);
              assert out[..|withTx|][..|rows|] == out[..|rows|];
            }
        }
    }
  }

  /** Over a whole block the database only grows and its primary keys stay unique. */
  lemma {:induction false} IndexKeepsRows(fault: Row -> bool, rows: seq<Row>, client: Client, pg: PgTypes, ctx: Context, block: Block, from: nat)
    requires UniqueKeys(rows)
    ensures var out := IndexedFrom(fault, rows, client, pg, ctx, block, from).rows;
      UniqueKeys(out) && |rows| <= |out| && out[..|rows|] == rows
    decreases |block.txs| - from
  {
    if from < |block.txs| && ctx(from).None? {
      var next := IndexedTx(fault, rows, client, pg, block, block.txs[from]);
      IndexedTxKeepsRows(fault, rows, client, pg, block, block.txs[from]);
      IndexKeepsRows(fault, next, client, pg, ctx, block, from + 1);
      var out := IndexedFrom(fault, next, client, pg, ctx, block, from + 1).rows;
      assert out[..|next|][..|rows|] == out[..|rows|];
    }
  }

  /** A message row is keyed by the tx hash it carries and by its message index. */
  lemma MsgRowKey(msg: Msg, msgIndex: nat, txHash: Option<Hash>)
    ensures MsgRow(msg, msgIndex, txHash).Some? <==> !msg.OtherMsg?
    ensures MsgRow(msg, msgIndex, txHash).Some? ==>
      var k := MsgRow(msg, msgIndex, txHash).value.Key();
      k.hash == txHash && k.msgIndex == msgIndex && k.table != Txs
  {
  }

  /** The step of HandledMsgsOnCleanStore: one message on a database that refuses no message row. */
  lemma HandledMsgOnCleanStore(fault: Row -> bool, rows: seq<Row>, pg: PgTypes, msgs: seq<Msg>, from: nat, hash: Hash)
    requires from < |msgs|
    requires forall r: Row :: !r.TxRecord? ==> !fault(r)
    requires forall r <- rows :: r.Key().table == Txs || r.Key().hash != RowHash(pg, hash) || r.Key().msgIndex < from
    ensures var th := RowHash(pg, hash);
      var next := HandledMsg(fault, rows, pg, msgs[from], from, hash);
      && rows + MsgRows(msgs, from, th) == next + MsgRows(msgs, from + 1, th)
      && forall r <- next :: r.Key().table == Txs || r.Key().hash != th || r.Key().msgIndex < from + 1
  {
    var th := RowHash(pg, hash);
    MsgRowKey(msgs[from], from, th);
    var row := MsgRow(msgs[from], from, th);
    var here: seq<Row> := if row.Some? then [row.value] else [];
    assert MsgRows(msgs, from, th) == here + MsgRows(msgs, from + 1, th);
    var next := rows + here;
    if row.Some? {
      assert KeyFree(rows, row.value) by {
        forall r <- rows ensures r.Key() != row.value.Key() {
        }
      }
      assert HandledMsg(fault, rows, pg, msgs[from], from, hash) == next;
    } else {
      assert next == rows;
    }
    forall r <- next ensures r.Key().table == Txs || r.Key().hash != th || r.Key().msgIndex < from + 1 {
      if r !in rows {
        assert r == row.value;
      }
    }
  }

  /**
   * With a database that refuses no message row and holds no message row of
   * this tx hash, every IBC message of the tx is stored, in order, keyed by
   * its position.
   */
  lemma {:induction false} HandledMsgsOnCleanStore(fault: Row -> bool, rows: seq<Row>, pg: PgTypes, msgs: seq<Msg>, from: nat, hash: Hash)
    requires forall r: Row :: !r.TxRecord? ==> !fault(r)
    requires forall r <- rows :: r.Key().table == Txs || r.Key().hash != RowHash(pg, hash) || r.Key().msgIndex < from
    ensures HandledMsgs(fault, rows, pg, msgs, from, hash) == rows + MsgRows(msgs, from, RowHash(pg, hash))
    decreases |msgs| - from
  {
    if from < |msgs| {
      HandledMsgOnCleanStore(fault, rows, pg, msgs, from, hash);
      HandledMsgsOnCleanStore(fault, HandledMsg(fault, rows, pg, msgs[from], from, hash), pg, msgs, from + 1, hash);
    }
  }

  /** Whether a tx gets as far as the Tx row insert: decoded, queried and every `Set` accepted (lines 71-168). */
  predicate TxAccepted(client: Client, pg: PgTypes, block: Block, tx: RawTx) {
    && client.decode(tx).Ok?
    && client.queryTx(tx.hash).Ok?
    && pg.setBytea(tx.hash)
    && pg.setTimestamp(block.time)
    && pg.setJsonb(RawLog(client.queryTx(tx.hash).value.code, client.queryTx(tx.hash).value.log))
  }

  /** A tx that fails to decode, to be queried or to be converted by pgtype adds no row at all. */
  lemma IndexedTxSkipped(fault: Row -> bool, rows: seq<Row>, client: Client, pg: PgTypes, block: Block, tx: RawTx)
    requires !TxAccepted(client, pg, block, tx)
    ensures IndexedTx(fault, rows, client, pg, block, tx) == rows
  {
  }

  /**
   * An accepted tx goes through one Tx row insert and then stores the rows of
   * all its IBC messages, whether or not the database took the Tx row.
   */
  lemma IndexedTxAccepted(fault: Row -> bool, rows: seq<Row>, client: Client, pg: PgTypes, block: Block, tx: RawTx)
    requires TxAccepted(client, pg, block, tx)
    requires forall r: Row :: !r.TxRecord? ==> !fault(r)
    requires forall r <- rows :: r.Key().table == Txs || r.Key().hash != Some(tx.hash)
    ensures var txRow := TxRecord(TxRowOf(client, block, tx, client.decode(tx).value, client.queryTx(tx.hash).value));
      var msgRows := MsgRows(client.decode(tx).value.msgs, 0, Some(tx.hash));
      && IndexedTx(fault, rows, client, pg, block, tx) == Insert(fault, rows, txRow) + msgRows
      && (fault(txRow) ==> IndexedTx(fault, rows, client, pg, block, tx) == rows + msgRows)
  {
    var d := client.decode(tx).value;
    var txRow := TxRecord(TxRowOf(client, block, tx, d, client.queryTx(tx.hash).value));
    var afterTx := Insert(fault, rows, txRow);
    assert forall r <- afterTx :: r.Key().table == Txs || r.Key().hash != RowHash(pg, tx.hash) || r.Key().msgIndex < 0;
    HandledMsgsOnCleanStore(fault, afterTx, pg, d.msgs, 0, tx.hash);
  }

  /**
   * Once the context is found done before tx `i`, the action returns that
   * error and processes no further tx: the rows are those of txs `from` .. i-1.
   */
  lemma {:induction false} IndexStopsAtCancel(fault: Row -> bool, rows: seq<Row>, client: Client, pg: PgTypes, ctx: Context,
                                              block: Block, from: nat, i: nat)
    requires from <= i < |block.txs|
    requires ctx(i).Some?
    requires forall j :: from <= j < i ==> ctx(j).None?
    ensures IndexedFrom(fault, rows, client, pg, ctx, block, from)
         == Indexed(ctx(i), IndexedFrom(fault, rows, client, pg, ctx, block.(txs := block.txs[..i]), from).rows)
    decreases i - from
  {
    var before := block.(txs := block.txs[..i]);
    if from < i {
      assert before.txs[from] == block.txs[from];
      IndexStopsAtCancel(fault, IndexedTx(fault, rows, client, pg, block, block.txs[from]), client, pg, ctx, block, from + 1, i);
    }
  }
}
