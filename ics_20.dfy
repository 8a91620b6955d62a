/**
 * The older twin of the IBC action (indexer/actions/ibc/ics_20.go). It writes
 * through Insert*Row helpers instead of gorm models, has no cancellation check
 * and no pgtype conversions. The helpers are not part of this model: a Sink
 * records the calls made to them, and what each call returns is an oracle.
 */
module Ics20 {
  import opened Wrappers
  import opened ChainTypes
  import opened IbcTypes
  import opened IbcModels
  import Ibc

  const BlockActionName: string := "ics20_transfers"

  /** One call of an Insert*Row helper, with its arguments in the order passed. */
  datatype InsertCall =
    | InsertTxRow(hash: Hash, rawLog: string, feeAmount: string, feeDenom: string, height: Height,
                  gasUsed: int, gasWanted: int, time: Time, code: nat)
    | InsertMsgTransferRow(hash: Hash, denom: string, srcChannel: string, route: string, amount: string,
                           signer: string, sender: string, receiver: string, srcPort: string, msgIndex: nat)
    | InsertMsgRecvPacketRow(hash: Hash, signer: string, srcChannel: string, dstChannel: string,
                             srcPort: string, dstPort: string, msgIndex: nat)
    | InsertMsgTimeoutRow(hash: Hash, signer: string, srcChannel: string, dstChannel: string,
                          srcPort: string, dstPort: string, msgIndex: nat)
    | InsertMsgAckRow(hash: Hash, signer: string, srcChannel: string, dstChannel: string,
                      srcPort: string, dstPort: string, msgIndex: nat)

  /** The Insert*Row helpers: every call is recorded; its error is `result(call)`. */
  class Sink {
    const result: InsertCall -> Option<Error>
    var calls: seq<InsertCall>

    constructor (result: InsertCall -> Option<Error>)
      ensures this.result == result && calls == []
    {
      this.result := result;
      calls := [];
    }

    method Insert(call: InsertCall) returns (err: Option<Error>)
      modifies this`calls
      ensures calls == old(calls) + [call] && err == result(call)
    {
      calls := calls + [call];
      err := result(call);
    }
  }

  datatype IBCTransfer = IBCTransfer(actionName: string) {

    function Name(): string {
      actionName
    }

    /** Execute is IndexIBCTransfers. */
    method Execute(sink: Sink, client: Client, block: Block) returns (err: Option<Error>)
      modifies sink
      ensures err == None
      ensures sink.calls == old(sink.calls) + BlockCalls(client, block, 0)
    {
      err := IndexIBCTransfers(sink, client, block);
    }

    /** IndexIBCTransfers (lines 48-110): never fails. */
    method IndexIBCTransfers(sink: Sink, client: Client, block: Block) returns (err: Option<Error>)
      modifies sink
      ensures err == None
      ensures sink.calls == old(sink.calls) + BlockCalls(client, block, 0)
    {
      ghost var goal := AfterBlock(sink.calls, client, block, 0);
      AfterBlockAppends(sink.calls, client, block, 0);
      for index := 0 to |block.txs|
        invariant goal == AfterBlock(sink.calls, client, block, index)
      {
        var tx := block.txs[index];
        var decoded := client.decode(tx);
        if decoded.Err? {
          continue;  // "Failed to decode tx"
        }
        var sdkTx := decoded.value;
        var queried := client.queryTx(tx.hash);
        if queried.Err? {
          continue;  // "Failed to query tx results"
        }
        var txRes := queried.value;
        var feeAmount, feeDenom;
        if |sdkTx.fee| == 0 {
          feeAmount, feeDenom := "0", "";
        } else {
          feeAmount, feeDenom := sdkTx.fee[0].amount, sdkTx.fee[0].denom;
        }
        var insertErr;
        if txRes.code > 0 {
          var json := ErrorLogPrefix + txRes.log + ErrorLogSuffix;
          insertErr := sink.Insert(InsertTxRow(tx.hash, json, feeAmount, feeDenom, block.height,
                                               txRes.gasUsed, txRes.gasWanted, block.time, txRes.code));
        } else {
          insertErr := sink.Insert(InsertTxRow(tx.hash, txRes.log, feeAmount, feeDenom, block.height,
                                               txRes.gasUsed, txRes.gasWanted, block.time, txRes.code));
        }
        // insertErr is only logged
        ghost var afterTx := sink.calls;
        for msgIndex := 0 to |sdkTx.msgs|
          invariant AfterMsgs(afterTx, sdkTx.msgs, 0, tx.hash) == AfterMsgs(sink.calls, sdkTx.msgs, msgIndex, tx.hash)
        {
          HandleIBCMsg(sink, sdkTx.msgs[msgIndex], msgIndex, block.height, tx.hash);
        }
      }
      return None;
    }

    /** HandleIBCMsg (lines 134-183): at most one insert call; its error is only logged. */
    method HandleIBCMsg(sink: Sink, msg: Msg, msgIndex: nat, height: Height, hash: Hash)
      modifies sink
      ensures sink.calls == old(sink.calls) + MsgCallOf(msg, msgIndex, hash)
    {
      match msg {
        case MsgTransfer(port, channel, token, sender, receiver, route) =>
          var _ := sink.Insert(InsertMsgTransferRow(hash, token.denom, channel, route, token.amount,
                                                    sender, sender, receiver, port, msgIndex));
        case MsgRecvPacket(p, signer) =>
          var _ := sink.Insert(InsertMsgRecvPacketRow(hash, signer, p.sourceChannel, p.destinationChannel,
                                                      p.sourcePort, p.destinationPort, msgIndex));
        case MsgTimeout(p, signer) =>
          var _ := sink.Insert(InsertMsgTimeoutRow(hash, signer, p.sourceChannel, p.destinationChannel,
                                                   p.sourcePort, p.destinationPort, msgIndex));
        case MsgAcknowledgement(p, signer) =>
          var _ := sink.Insert(InsertMsgAckRow(hash, signer, p.sourceChannel, p.destinationChannel,
                                               p.sourcePort, p.destinationPort, msgIndex));
        case OtherMsg(_) =>
      }
    }
  }

  /** NewIBCTransfer (lines 29-34). */
  function NewIBCTransfer(): (a: IBCTransfer)
    ensures a.Name() == BlockActionName
  {
    IBCTransfer(BlockActionName)
  }

  // ---------------------------------------------------------------------------
  // Specification

  /** The insert call a message leads to: none for a message of another type. */
  function MsgCallOf(msg: Msg, msgIndex: nat, hash: Hash): seq<InsertCall> {
    match msg
    case MsgTransfer(port, channel, token, sender, receiver, route) =>
      [InsertMsgTransferRow(hash, token.denom, channel, route, token.amount, sender, sender, receiver, port, msgIndex)]
    case MsgRecvPacket(p, signer) =>
      [InsertMsgRecvPacketRow(hash, signer, p.sourceChannel, p.destinationChannel, p.sourcePort, p.destinationPort, msgIndex)]
    case MsgTimeout(p, signer) =>
      [InsertMsgTimeoutRow(hash, signer, p.sourceChannel, p.destinationChannel, p.sourcePort, p.destinationPort, msgIndex)]
    case MsgAcknowledgement(p, signer) =>
      [InsertMsgAckRow(hash, signer, p.sourceChannel, p.destinationChannel, p.sourcePort, p.destinationPort, msgIndex)]
    case OtherMsg(_) => []
  }

  /** The calls for messages `from` .. end, each with its position as msgIndex. */
  function MsgCalls(msgs: seq<Msg>, from: nat, hash: Hash): seq<InsertCall>
    decreases |msgs| - from
  {
    if from >= |msgs| then [] else MsgCallOf(msgs[from], from, hash) + MsgCalls(msgs, from + 1, hash)
  }

  /** The calls one tx leads to: none when decoding or QueryTx fails. */
  function TxCalls(client: Client, block: Block, tx: RawTx): seq<InsertCall> {
    match client.decode(tx)
    case Err(_) => []
    case Ok(d) =>
      match client.queryTx(tx.hash)
      case Err(_) => []
      case Ok(res) =>
        var fee := SelectFee(d.fee);
        [InsertTxRow(tx.hash, RawLog(res.code, res.log), fee.0, fee.1, block.height,
                     res.gasUsed, res.gasWanted, block.time, res.code)]
        + MsgCalls(d.msgs, 0, tx.hash)
  }

  /** The calls for txs `from` .. end of the block, in order. */
  function BlockCalls(client: Client, block: Block, from: nat): seq<InsertCall>
    decreases |block.txs| - from
  {
    if from >= |block.txs| then [] else TxCalls(client, block, block.txs[from]) + BlockCalls(client, block, from + 1)
  }

  /** The recorded calls after handling messages `from` .. end, starting from `calls`. */
  function AfterMsgs(calls: seq<InsertCall>, msgs: seq<Msg>, from: nat, hash: Hash): seq<InsertCall>
    decreases |msgs| - from
  {
    if from >= |msgs| then calls else AfterMsgs(calls + MsgCallOf(msgs[from], from, hash), msgs, from + 1, hash)
  }

  /** The recorded calls after one tx, starting from `calls`. */
  function AfterTx(calls: seq<InsertCall>, client: Client, block: Block, tx: RawTx): seq<InsertCall> {
    match client.decode(tx)
    case Err(_) => calls
    case Ok(d) =>
      match client.queryTx(tx.hash)
      case Err(_) => calls
      case Ok(res) =>
        var fee := SelectFee(d.fee);
        AfterMsgs(calls + [InsertTxRow(tx.hash, RawLog(res.code, res.log), fee.0, fee.1, block.height,
                                       res.gasUsed, res.gasWanted, block.time, res.code)],
                  d.msgs, 0, tx.hash)
  }

  /** The recorded calls after txs `from` .. end of the block, starting from `calls`. */
  function AfterBlock(calls: seq<InsertCall>, client: Client, block: Block, from: nat): seq<InsertCall>
    decreases |block.txs| - from
  {
    if from >= |block.txs| then calls else AfterBlock(AfterTx(calls, client, block, block.txs[from]), client, block, from + 1)
  }

  function IsIbcMsg(msg: Msg): bool {
    !msg.OtherMsg?
  }

  /** The message index a message call carries (0 for a Tx call). */
  function CallIndex(c: InsertCall): nat {
    if c.InsertTxRow? then 0 else c.msgIndex
  }

  /** The row the gorm-based action stores for the same data. */
  function RowOfCall(c: InsertCall, chainID: string): Row {
    match c
    case InsertTxRow(hash, rawLog, feeAmount, feeDenom, height, gasUsed, gasWanted, time, code) =>
      TxRecord(TxRow(hash, time, chainID, height, rawLog, code, feeAmount, feeDenom, gasUsed, gasWanted))
    case InsertMsgTransferRow(hash, denom, srcChannel, route, amount, signer, sender, receiver, srcPort, msgIndex) =>
      TransferRecord(TransferRow(Some(hash), msgIndex, signer, sender, receiver, amount, denom, srcChannel, srcPort, route))
    case InsertMsgRecvPacketRow(hash, signer, srcChannel, dstChannel, srcPort, dstPort, msgIndex) =>
      RecvPacketRecord(PacketRow(Some(hash), msgIndex, signer, srcChannel, dstChannel, srcPort, dstPort))
    case InsertMsgTimeoutRow(hash, signer, srcChannel, dstChannel, srcPort, dstPort, msgIndex) =>
      TimeoutRecord(PacketRow(Some(hash), msgIndex, signer, srcChannel, dstChannel, srcPort, dstPort))
    case InsertMsgAckRow(hash, signer, srcChannel, dstChannel, srcPort, dstPort, msgIndex) =>
      AckRecord(PacketRow(Some(hash), msgIndex, signer, srcChannel, dstChannel, srcPort, dstPort))
  }

  function RowsOfCalls(cs: seq<InsertCall>, chainID: string): seq<Row> {
    if |cs| == 0 then [] else [RowOfCall(cs[0], chainID)] + RowsOfCalls(cs[1..], chainID)
  }

  function CountIbcMsgs(msgs: seq<Msg>, from: nat): nat
    decreases |msgs| - from
  {
    if from >= |msgs| then 0 else (if IsIbcMsg(msgs[from]) then 1 else 0) + CountIbcMsgs(msgs, from + 1)
  }

  // ---------------------------------------------------------------------------
  // Properties

  /**
   * Message calls: one per IBC message, none for others, all about the tx's
   * hash, in the order of the messages with msgIndex equal to the position.
   */
  lemma {:induction false} MsgCallsByPosition(msgs: seq<Msg>, from: nat, hash: Hash)
    ensures var cs := MsgCalls(msgs, from, hash);
      && |cs| == CountIbcMsgs(msgs, from)
      && (forall c <- cs :: !c.InsertTxRow? && c.hash == hash && from <= c.msgIndex < |msgs| && IsIbcMsg(msgs[c.msgIndex]))
      && (forall i, j :: 0 <= i < j < |cs| ==> CallIndex(cs[i]) < CallIndex(cs[j]))
    decreases |msgs| - from
  {
    if from < |msgs| {
      MsgCallsByPosition(msgs, from + 1, hash);
      var rest := MsgCalls(msgs, from + 1, hash);
      var cs := MsgCalls(msgs, from, hash);
      assert cs == MsgCallOf(msgs[from], from, hash) + rest;
      forall i, j | 0 <= i < j < |cs| ensures CallIndex(cs[i]) < CallIndex(cs[j]) {
        if IsIbcMsg(msgs[from]) && i == 0 {
          assert cs[j] == rest[j - 1] && cs[j] in rest;
        }
      }
    }
  }

  /**
   * A tx that fails to decode or to be queried leads to no call; otherwise the
   * first call is InsertTxRow with the raw log wrapped as {"error":"..."}
   * exactly when the code is non-zero, followed by one call per IBC message.
   */
  lemma TxCallsShape(client: Client, block: Block, tx: RawTx)
    ensures var cs := TxCalls(client, block, tx);
      && (cs == [] <==> client.decode(tx).Err? || client.queryTx(tx.hash).Err?)
      && (cs != [] ==>
            var d := client.decode(tx).value;
            var res := client.queryTx(tx.hash).value;
            && cs[0].InsertTxRow? && cs[0].hash == tx.hash && cs[0].code == res.code
            && (res.code > 0 ==> cs[0].rawLog == ErrorLogPrefix + res.log + ErrorLogSuffix)
            && (res.code == 0 ==> cs[0].rawLog == res.log)
            && (|d.fee| == 0 ==> cs[0].feeAmount == "0" && cs[0].feeDenom == "")
            && (|d.fee| > 0 ==> cs[0].feeAmount == d.fee[0].amount && cs[0].feeDenom == d.fee[0].denom)
            && |cs| == 1 + CountIbcMsgs(d.msgs, 0)
            && forall c <- cs[1..] :: !c.InsertTxRow?)
  {
    match client.decode(tx) {
      case Err(_) =>
      case Ok(d) =>
        match client.queryTx(tx.hash) {
          case Err(_) =>
          case Ok(res) =>
            MsgCallsByPosition(d.msgs, 0, tx.hash);
            var cs := TxCalls(client, block, tx);
            assert cs[1..] == MsgCalls(d.msgs, 0, tx.hash);
        }
    }
  }

  lemma {:induction false} RowsOfCallsAppend(a: seq<InsertCall>, b: seq<InsertCall>, chainID: string)
    ensures RowsOfCalls(a + b, chainID) == RowsOfCalls(a, chainID) + RowsOfCalls(b, chainID)
    decreases |a|
  {
    if |a| == 0 {
      assert a + b == b;
    } else {
      assert (a + b)[1..] == a[1..] + b;
      RowsOfCallsAppend(a[1..], b, chainID);
    }
  }

  /** The two versions agree on message data: each call is the row the other stores. */
  lemma {:induction false} MsgCallsMatchIbcRows(msgs: seq<Msg>, from: nat, hash: Hash, chainID: string)
    ensures RowsOfCalls(MsgCalls(msgs, from, hash), chainID) == Ibc.MsgRows(msgs, from, Some(hash))
    decreases |msgs| - from
  {
    if from < |msgs| {
      MsgCallsMatchIbcRows(msgs, from + 1, hash, chainID);
      RowsOfCallsAppend(MsgCallOf(msgs[from], from, hash), MsgCalls(msgs, from + 1, hash), chainID);
    }
  }

  /**
   * When pgtype accepts every value, the database refuses nothing and holds no
   * row of this tx hash, the gorm-based action stores exactly the rows of the
   * calls this version makes for the tx, in the same order.
   */
  lemma TxCallsMatchIbcRows(fault: Row -> bool, rows: seq<Row>, client: Client, pg: Ibc.PgTypes, block: Block, tx: RawTx)
    requires forall r :: !fault(r)
    requires forall h :: pg.setBytea(h)
    requires forall t :: pg.setTimestamp(t)
    requires forall s :: pg.setJsonb(s)
    requires forall r <- rows :: r.Key().hash != Some(tx.hash)
    ensures Ibc.IndexedTx(fault, rows, client, pg, block, tx) == rows + RowsOfCalls(TxCalls(client, block, tx), client.chainID)
  {
    match client.decode(tx) {
      case Err(_) =>
      case Ok(d) =>
        match client.queryTx(tx.hash) {
          case Err(_) =>
          case Ok(res) =>
            var txRow := TxRecord(Ibc.TxRowOf(client, block, tx, d, res));
            assert KeyFree(rows, txRow);
            assert Insert(fault, rows, txRow) == rows + [txRow];
            Ibc.IndexedTxAccepted(fault, rows, client, pg, block, tx);
            MsgCallsMatchIbcRows(d.msgs, 0, tx.hash, client.chainID);
            var fee := SelectFee(d.fee);
            var call := InsertTxRow(tx.hash, RawLog(res.code, res.log), fee.0, fee.1, block.height,
                                    res.gasUsed, res.gasWanted, block.time, res.code);
            RowsOfCallsAppend([call], MsgCalls(d.msgs, 0, tx.hash), client.chainID);
            assert RowOfCall(call, client.chainID) == txRow;
        }
    }
  }

  /** Recording calls one after another appends the calls in order. */
  lemma {:induction false} AfterMsgsAppends(calls: seq<InsertCall>, msgs: seq<Msg>, from: nat, hash: Hash)
    ensures AfterMsgs(calls, msgs, from, hash) == calls + MsgCalls(msgs, from, hash)
    decreases |msgs| - from
  {
    if from < |msgs| {
      var here := MsgCallOf(msgs[from], from, hash);
      AfterMsgsAppends(calls + here, msgs, from + 1, hash);
      assert (calls + here) + MsgCalls(msgs, from + 1, hash) == calls + (here + MsgCalls(msgs, from + 1, hash));
    } else {
      assert calls + [] == calls;
    }
  }

  lemma AfterTxAppends(calls: seq<InsertCall>, client: Client, block: Block, tx: RawTx)
    ensures AfterTx(calls, client, block, tx) == calls + TxCalls(client, block, tx)
  {
    match client.decode(tx) {
      case Err(_) => assert calls + [] == calls;
      case Ok(d) =>
        match client.queryTx(tx.hash) {
          case Err(_) => assert calls + [] == calls;
          case Ok(res) =>
            var fee := SelectFee(d.fee);
            var txCall := InsertTxRow(tx.hash, RawLog(res.code, res.log), fee.0, fee.1, block.height,
                                      res.gasUsed, res.gasWanted, block.time, res.code);
            AfterMsgsAppends(calls + [txCall], d.msgs, 0, tx.hash);
            assert (calls + [txCall]) + MsgCalls(d.msgs, 0, tx.hash) == calls + ([txCall] + MsgCalls(d.msgs, 0, tx.hash));
        }
    }
  }

  lemma {:induction false} AfterBlockAppends(calls: seq<InsertCall>, client: Client, block: Block, from: nat)
    ensures AfterBlock(calls, client, block, from) == calls + BlockCalls(client, block, from)
    decreases |block.txs| - from
  {
    if from < |block.txs| {
      var tx := block.txs[from];
      var here, rest := TxCalls(client, block, tx), BlockCalls(client, block, from + 1);
      assert (calls + here) + rest == calls + (here + rest);
      AfterTxAppends(calls, client, block, tx);
      AfterBlockAppends(AfterTx(calls, client, block, tx), client, block, from + 1);
    } else {
      assert calls + [] == calls;
    }
  }
}
