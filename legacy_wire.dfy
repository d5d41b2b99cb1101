/** What the two older engines (peer.cpp and node.cpp) share: the JSON-array
    messages `[type+id, ...]`, the node error texts, the textual call ids,
    and the log of application callbacks they invoke. */
module LegacyWire {
  import opened Common
  import opened Requests

  /** prepareHdr: the type character followed by the id; parse_message reads
      the type back as the first character and the id as the rest. */
  function PrepareHdr(t: char, id: string): (h: string)
    ensures |h| == |id| + 1 && h[0] == t && h[1..] == id
  {
    [t] + id
  }

  /** A message as the JSON array it is serialized from, or a binary frame. */
  datatype Outbound = Text(items: seq<Value>) | Binary(data: string)

  /** prepareMessage(type, id, data): the header, then the items of `data`. */
  function PrepareMessage(t: char, id: string, data: seq<Value>): Outbound
  {
    Text([Str(PrepareHdr(t, id))] + data)
  }

  /** prepareMessage1(type, id, value): the header and one value. */
  function PrepareMessage1(t: char, id: string, v: Value): Outbound
  {
    Text([Str(PrepareHdr(t, id)), v])
  }

  // ---------------------------------------------------------------------
  // Node errors

  const NoError := 0
  const UnexpectedBinaryFrame := 1
  const MessageParseError := 2
  const InvalidMessageFormat := 3
  const InvalidMessageFormatCall := 4
  const InvalidMessageFormatResult := 5
  const InvalidMessageFormatException := 6
  const InvalidMessageFormatUnknownMethod := 7
  const InvalidMessageFormatTopicUpdate := 8
  const UnknownMessageType := 9
  const MessageProcessingError := 10
  const UnsupportedVersion := 11
  const UnhandledException := 12

  /** error_to_string: a text for each of the thirteen node errors. */
  function ErrorToString(e: int): (s: string)
    ensures s != "Undetermined error" <==> NoError <= e <= UnhandledException
  {
    if e == NoError then "No error"
    else if e == UnexpectedBinaryFrame then "Unexpected binary frame"
    else if e == MessageParseError then "Message parse error"
    else if e == InvalidMessageFormat then "Invalid message format"
    else if e == InvalidMessageFormatCall then "Invalid message format - message C - Call"
    else if e == InvalidMessageFormatResult then "Invalid message format - message R - Result"
    else if e == InvalidMessageFormatException then "Invalid message format - message E - Exception"
    else if e == InvalidMessageFormatUnknownMethod then "Invalid message format - message ? - Unknown method"
    else if e == InvalidMessageFormatTopicUpdate then "Invalid message format - message T - Topic update"
    else if e == UnknownMessageType then "Unknown message type"
    else if e == MessageProcessingError then "Internal node error while processing a message"
    else if e == UnsupportedVersion then "Unsupported version"
    else if e == UnhandledException then "Unhandled exception"
    else "Undetermined error"
  }

  // ---------------------------------------------------------------------
  // Call ids

  /** `_call_id` is an `unsigned int`. */
  const CounterModulus: nat := 0x1_0000_0000

  type Counter = x: nat | x < CounterModulus

  /** `int id = _call_id++; std::to_string(id)`: the counter read as a
      32-bit signed number, in decimal. */
  function CallIdText(counter: nat): string
    requires counter < CounterModulus
  {
    IntToDecimal(if counter < 0x8000_0000 then counter else counter - CounterModulus)
  }

  /** Distinct counter values give distinct call ids. */
  lemma CallIdTextInjective(a: nat, b: nat)
    requires a < CounterModulus && b < CounterModulus
    requires CallIdText(a) == CallIdText(b)
    ensures a == b
  {
    var x := if a < 0x8000_0000 then a else a - CounterModulus;
    var y := if b < 0x8000_0000 then b else b - CounterModulus;
    StrToLOfDecimal(x, "");
    StrToLOfDecimal(y, "");
  }

  // ---------------------------------------------------------------------
  // Application callbacks

  /** A callback the engine invoked.  Callbacks are identified by the token
      their owner registered them under. */
  datatype Invocation =
    | Responded(callback: nat, response: Response)
    | TopicHandlerCalled(handler: nat, data: Value)
    /** The unsubscribe request stored for `topic` was called (node.cpp
        passes the topic to it, peer.cpp calls it without arguments). */
    | UnsubscribeCalled(topic: string, request: nat)
    | BinaryCalled(binaryId: nat, binaryCallback: nat, ok: bool, content: string)
    | DisconnectCalled(disconnectCallback: nat)

  /** The function start_publish returns: bound to a topic, or the
      always-false function handed out while disconnected. */
  datatype PublishFn = Live(topic: string) | Inert
}
