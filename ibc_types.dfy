/**
 * What the IBC actions read from the chain: decoded transactions, their
 * messages and their results, and the two derivations both actions share
 * (fee selection and the raw log).
 */
module IbcTypes {
  import opened Wrappers
  import opened ChainTypes

  /** An sdk.Coin; `amount` is the text `Amount.String()` gives. */
  datatype Coin = Coin(amount: string, denom: string)

  /** The routing part of a channel packet. */
  datatype Packet = Packet(sourcePort: string, sourceChannel: string, destinationPort: string, destinationChannel: string)

  /** The message types the actions tell apart; every other type is `OtherMsg`. */
  datatype Msg =
    | MsgTransfer(sourcePort: string, sourceChannel: string, token: Coin, sender: string, receiver: string, route: string)
    | MsgRecvPacket(packet: Packet, signer: string)
    | MsgTimeout(packet: Packet, signer: string)
    | MsgAcknowledgement(packet: Packet, signer: string)
    | OtherMsg(typeUrl: string)

  /** A decoded transaction: its fee coins (GetFee) and messages (GetMsgs). */
  datatype DecodedTx = DecodedTx(fee: seq<Coin>, msgs: seq<Msg>)

  /** The TxResult part of QueryTx's answer; `code` is an unsigned 32-bit value. */
  datatype TxResult = TxResult(code: nat, log: string, gasUsed: int, gasWanted: int)

  /** The chain client's collaborators: its chain ID, the tx decoder and QueryTx by hash. */
  datatype Client = Client(chainID: string, decode: RawTx -> Result<DecodedTx>, queryTx: Hash -> Result<TxResult>)

  /** Fee amount and denom: the first fee coin, or "0" and "" when there is none. */
  function SelectFee(fee: seq<Coin>): (string, string) {
    if |fee| == 0 then ("0", "") else (fee[0].amount, fee[0].denom)
  }

  const ErrorLogPrefix: string := "{\"error\":\""
  const ErrorLogSuffix: string := "\"}"

  /** The raw log stored for a tx: the log wrapped as {"error":"..."} when the code is non-zero. */
  function RawLog(code: nat, log: string): string {
    if code > 0 then ErrorLogPrefix + log + ErrorLogSuffix else log
  }

  /** Reads the log text back out of a stored raw log. */
  function LogText(code: nat, raw: string): string {
    if code > 0 && |raw| >= |ErrorLogPrefix| + |ErrorLogSuffix|
       && raw[..|ErrorLogPrefix|] == ErrorLogPrefix && raw[|raw| - |ErrorLogSuffix|..] == ErrorLogSuffix
    then raw[|ErrorLogPrefix|..|raw| - |ErrorLogSuffix|]
    else raw
  }

  /**
   * The raw log keeps the whole log text: wrapped in {"error":"..."} exactly
   * when the code is non-zero, and recoverable from it.
   */
  lemma RawLogRoundTrip(code: nat, log: string)
    ensures LogText(code, RawLog(code, log)) == log
    ensures code == 0 ==> RawLog(code, log) == log
    ensures code > 0 ==> |RawLog(code, log)| == |log| + 12
  {
  }
}
