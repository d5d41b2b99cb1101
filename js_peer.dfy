/** The canonical browser peer (tests/web/umq.js, class `Peer`): the line
    oriented wire codec, the dispatcher for inbound frames, the request
    correlation table, topics, one-shot callbacks, discovery and the two
    variable maps.  The WebSocket is reduced to the frames handed to
    `ws.send`, whether `ws.close` was asked for, and the events the
    environment delivers (a text frame, the close that runs `#cleanup`). */
module JsPeer {
  import opened Common

  // PeerError codes
  const NoError := 0
  const UnexpectedBinaryFrame := 1
  const MessageParseError := 2
  const UnknownMessageType := 3
  const MessageProcessingError := 4
  const UnsupportedVersion := 5
  const UnhandledException := 6
  const MethodNotFound := 7
  const CallbackIsNotRegistered := 8

  /** Peer.version, compared with the id of an inbound welcome. */
  const Version := "1.0.0"

  /** The text `e.toString()` gives for the TypeError thrown when an
      unregistered callback `s` (undefined) is called. */
  const UndefinedCallText := "TypeError: s is not a function"

  /** An error code as the engine passes it on: normally a number, but
      `#send_response` hands over the whole message of an ExecutionError. */
  datatype Code = Num(n: int) | Text(s: string)

  /** `code + ""`: what string concatenation makes of a code. */
  function CodeText(c: Code): string
  {
    match c
    case Num(n) => IntToDecimal(n)
    case Text(s) => s
  }

  /** Peer.error_to_string: a description for each numeric PeerError code,
      "Undetermined error" for anything else (a switch with strict equality,
      so a string never matches). */
  function ErrorToString(c: Code): string
  {
    match c
    case Text(_) => "Undetermined error"
    case Num(n) =>
      if n == NoError then "No error"
      else if n == UnexpectedBinaryFrame then "Unexpected binary frame"
      else if n == MessageParseError then "Message parse error"
      else if n == UnknownMessageType then "Unknown message type"
      else if n == MessageProcessingError then "Internal node error while processing a message"
      else if n == UnsupportedVersion then "Unsupported version"
      else if n == UnhandledException then "Unhandled exception"
      else if n == MethodNotFound then "Method not found"
      else if n == CallbackIsNotRegistered then "Callback not registered"
      else "Undetermined error"
  }
  /** Exactly the nine numeric PeerError codes have a description of their own. */
  lemma ErrorDescribed(c: Code)
    ensures ErrorToString(c) != "Undetermined error" <==> c.Num? && 0 <= c.n <= 8
  {
  }


  /** The two error classes a promise can be rejected with, by message. */
  datatype Failure = Exception(message: string) | ExecutionError(message: string)

  /** Peer.disconnect_exception(): what every request still pending, or
      made while disconnected, is rejected with. */
  function DisconnectException(): Failure
  {
    ExecutionError("-1 Peer disconnected")
  }

  // ---------------------------------------------------------------------
  // Wire codec

  /** Peer.split(c, s): the whole text when `c` does not occur, otherwise the
      text before and the text after its first occurrence. */
  function Split(c: char, s: string): (parts: seq<string>)
    ensures c !in s ==> parts == [s]
    ensures c in s ==> |parts| == 2 && parts[0] + [c] + parts[1] == s && c !in parts[0]
  {
    match Find(s, c)
    case None => [s]
    case Some(p) =>
      assert s == s[..p] + [c] + s[p + 1..];
      [s[..p], s[p + 1..]]
  }

  /** A text with exactly one way to be cut at a first `c` is cut there. */
  lemma SplitUnique(c: char, a: string, b: string)
    requires c !in a
    ensures Split(c, a + [c] + b) == [a, b]
  {
    var s := a + [c] + b;
    FindAt(a, c, b);
    assert s[..|a|] == a && s[|a| + 1..] == b;
  }

  /** `type + id`: a frame without payload. */
  function Frame(t: char, id: string): string { [t] + id }

  /** `type + id + "\n" + payload`. */
  function FrameWith(t: char, id: string, payload: string): string { [t] + id + "\n" + payload }

  function MethodCallFrame(id: string, name: string, args: string): string
  {
    FrameWith('M', id, name + "\n" + args)
  }

  function CallbackFrame(id: string, name: string, args: string): string
  {
    FrameWith('C', id, name + "\n" + args)
  }

  function ResultFrame(id: string, data: string): string { FrameWith('R', id, data) }

  function ExceptionFrame(id: string, text: string): string { FrameWith('E', id, text) }

  /** #send_execute_error(id, code): the code, a space and its description. */
  function ExecutionErrorFrame(id: string, code: Code): string
  {
    FrameWith('!', id, CodeText(code) + " " + ErrorToString(code))
  }

  function DiscoverFrame(id: string, query: string): string { FrameWith('?', id, query) }

  function HelloFrame(data: string): string { FrameWith('H', Version, data) }

  /** #send_node_error(error): a connection-level exception (empty id). */
  function NodeErrorFrame(error: int): string
  {
    ExceptionFrame("", IntToDecimal(error) + " " + ErrorToString(Num(error)))
  }
  /** What #send_node_error reports to `#on_error`: an Exception carrying the
      code and its description. */
  function NodeErrorReport(error: int): ErrorReport
  {
    Reported(Exception(IntToDecimal(error) + " " + ErrorToString(Num(error))))
  }


  /** An inbound frame after `#parse_msg` has cut it up: the header's first
      character picks the case, the rest of the header is the id. */
  datatype Inbound =
    | CallbackIn(id: string, name: string, args: Option<string>)
    | MethodCallIn(id: string, name: string, args: Option<string>)
    | ResultIn(id: string, data: Option<string>)
    | ExceptionIn(id: string, data: Option<string>)
    | ExecutionErrorIn(id: string, data: Option<string>)
    | DiscoverIn(id: string, query: Option<string>)
    | TopicUpdateIn(id: string, data: Option<string>)
    | UnsubscribeIn(id: string)
    | TopicCloseIn(id: string)
    | VarSetIn(id: string, data: Option<string>)
    | VarUnsetIn(id: string)
    | WelcomeIn(version: string, data: Option<string>)
    | UnknownType   // no case matches: unknownMessageType
    | NoPayload     // a call or callback frame without "\n": splitting `undefined` throws

  /** The second part of a split, `undefined` (None) when there is none. */
  function Rest(parts: seq<string>): Option<string>
  {
    if |parts| == 2 then Some(parts[1]) else None
  }

  /** #parse_msg: split at the first "\n" into header and data, the header
      into a type character and an id; call and callback data are split
      once more into a name and the arguments. */
  function ParseMsg(msg: string): Inbound
  {
    var parts := Split('\n', msg);
    var header := parts[0];
    if header == [] then UnknownType else Classify(header[0], header[1..], Rest(parts))
  }

  /** The `switch (type)` of #parse_msg. */
  function Classify(t: char, id: string, data: Option<string>): Inbound
  {
    match t
    case 'C' => (match data
                 case None => NoPayload
                 case Some(d) => var p := Split('\n', d); CallbackIn(id, p[0], Rest(p)))
    case 'M' => (match data
                 case None => NoPayload
                 case Some(d) => var p := Split('\n', d); MethodCallIn(id, p[0], Rest(p)))
    case 'R' => ResultIn(id, data)
    case 'E' => ExceptionIn(id, data)
    case '!' => ExecutionErrorIn(id, data)
    case '?' => DiscoverIn(id, data)
    case 'T' => TopicUpdateIn(id, data)
    case 'U' => UnsubscribeIn(id)
    case 'Z' => TopicCloseIn(id)
    case 'S' => VarSetIn(id, data)
    case 'X' => VarUnsetIn(id)
    case 'W' => WelcomeIn(id, data)
    case _ => UnknownType
  }

  /** The frames the `#send_*` builders can produce: ids and names free of
      "\n", payloads present (the codec has no escaping). */
  predicate Encodable(m: Inbound)
  {
    match m
    case CallbackIn(id, name, args) => '\n' !in id && '\n' !in name && args.Some?
    case MethodCallIn(id, name, args) => '\n' !in id && '\n' !in name && args.Some?
    case ResultIn(id, data) => '\n' !in id && data.Some?
    case ExceptionIn(id, data) => '\n' !in id && data.Some?
    case ExecutionErrorIn(id, data) => '\n' !in id && data.Some?
    case DiscoverIn(id, query) => '\n' !in id && query.Some?
    case TopicUpdateIn(id, data) => '\n' !in id && data.Some?
    case UnsubscribeIn(id) => '\n' !in id
    case TopicCloseIn(id) => '\n' !in id
    case VarSetIn(id, data) => '\n' !in id && data.Some?
    case VarUnsetIn(id) => '\n' !in id
    case WelcomeIn(version, data) => '\n' !in version && data.Some?
    case UnknownType => false
    case NoPayload => false
  }

  /** The type character the `#send_*` builder writes for a message. */
  function TypeChar(m: Inbound): char
    requires Encodable(m)
  {
    match m
    case CallbackIn(_, _, _) => 'C'
    case MethodCallIn(_, _, _) => 'M'
    case ResultIn(_, _) => 'R'
    case ExceptionIn(_, _) => 'E'
    case ExecutionErrorIn(_, _) => '!'
    case DiscoverIn(_, _) => '?'
    case TopicUpdateIn(_, _) => 'T'
    case UnsubscribeIn(_) => 'U'
    case TopicCloseIn(_) => 'Z'
    case VarSetIn(_, _) => 'S'
    case VarUnsetIn(_) => 'X'
    case WelcomeIn(_, _) => 'W'
  }

  /** What follows the type character in the header: the id (the version
      for a welcome). */
  function Head(m: Inbound): string
    requires Encodable(m)
  {
    if m.WelcomeIn? then m.version else m.id
  }

  /** The text after the first "\n", if the frame has one: a call's method
      name and arguments, otherwise the message's data. */
  function Payload(m: Inbound): Option<string>
    requires Encodable(m)
  {
    match m
    case CallbackIn(_, name, args) => Some(name + "\n" + args.value)
    case MethodCallIn(_, name, args) => Some(name + "\n" + args.value)
    case ResultIn(_, data) => data
    case ExceptionIn(_, data) => data
    case ExecutionErrorIn(_, data) => data
    case DiscoverIn(_, query) => query
    case TopicUpdateIn(_, data) => data
    case VarSetIn(_, data) => data
    case WelcomeIn(_, data) => data
    case UnsubscribeIn(_) => None
    case TopicCloseIn(_) => None
    case VarUnsetIn(_) => None
  }

  /** The frame the matching `#send_*` builder writes for a message. */
  function Encode(m: Inbound): string
    requires Encodable(m)
  {
    match Payload(m)
    case Some(p) => FrameWith(TypeChar(m), Head(m), p)
    case None => Frame(TypeChar(m), Head(m))
  }

  lemma ParseFrameWith(t: char, id: string, payload: string)
    requires t != '\n' && '\n' !in id
    ensures ParseMsg(FrameWith(t, id, payload)) == Classify(t, id, Some(payload))
  {
    SplitUnique('\n', [t] + id, payload);
    assert ([t] + id)[1..] == id;
  }

  lemma ParseFrame(t: char, id: string)
    requires t != '\n' && '\n' !in id
    ensures ParseMsg(Frame(t, id)) == Classify(t, id, None)
  {
    assert Frame(t, id)[1..] == id;
  }

  /** The dispatcher's switch recovers a message from its type character,
      head and payload. */
  lemma ClassifyInverts(m: Inbound)
    requires Encodable(m)
    ensures Classify(TypeChar(m), Head(m), Payload(m)) == m
  {
    if m.CallbackIn? || m.MethodCallIn? {
      SplitUnique('\n', m.name, m.args.value);
    }
  }

  /** Every frame a peer builds is read back by #parse_msg as the same
      message: type, id, and for calls the method name and the arguments. */
  lemma {:induction false} ParseEncoded(m: Inbound)
    requires Encodable(m)
    ensures ParseMsg(Encode(m)) == m
  {
    ClassifyInverts(m);
    match Payload(m)
    case Some(p) => ParseFrameWith(TypeChar(m), Head(m), p);
    case None => ParseFrame(TypeChar(m), Head(m));
  }

  /** The frame builders agree with Encode. */
  lemma BuildersEncode(id: string, name: string, args: string)
    requires '\n' !in id && '\n' !in name
    ensures Encode(MethodCallIn(id, name, Some(args))) == MethodCallFrame(id, name, args)
    ensures Encode(CallbackIn(id, name, Some(args))) == CallbackFrame(id, name, args)
    ensures Encode(ResultIn(id, Some(args))) == ResultFrame(id, args)
    ensures Encode(ExceptionIn(id, Some(args))) == ExceptionFrame(id, args)
    ensures Encode(DiscoverIn(id, Some(args))) == DiscoverFrame(id, args)
  {
  }

  /** The method-call frame round trip, spelled out. */
  lemma MethodCallRoundTrip(id: string, name: string, args: string)
    requires '\n' !in id && '\n' !in name
    ensures ParseMsg(MethodCallFrame(id, name, args)) == MethodCallIn(id, name, Some(args))
  {
    ParseEncoded(MethodCallIn(id, name, Some(args)));
  }

  /** The error report a peer receives for a node error frame is a
      connection-level exception: an empty id, the code and its description. */
  lemma NodeErrorIsConnectionLevel(code: int)
    ensures ParseMsg(NodeErrorFrame(code))
         == ExceptionIn("", Some(IntToDecimal(code) + " " + ErrorToString(Num(code))))
  {
    ParseEncoded(ExceptionIn("", Some(IntToDecimal(code) + " " + ErrorToString(Num(code)))));
  }

  // ---------------------------------------------------------------------
  // Discovery replies

  /** String.prototype.split: every occurrence of `c` cuts. */
  function SplitAll(c: char, s: string): (parts: seq<string>)
    ensures |parts| >= 1
    decreases |s|
  {
    match Find(s, c)
    case None => [s]
    case Some(p) => [s[..p]] + SplitAll(c, s[p + 1..])
  }

  /** `lines.filter(x => x.substr(0, 1) == t).map(x => x.substr(1))`. */
  function Tagged(lines: seq<string>, t: char): seq<string>
  {
    if lines == [] then []
    else (if |lines[0]| > 0 && lines[0][0] == t then [lines[0][1..]] else []) + Tagged(lines[1..], t)
  }

  /** What `discover` returns to the application. */
  datatype Discovery =
    | Documentation(text: string)
    | Listing(methods: seq<string>, routes: seq<string>)
    | NoText   // the result carried no data: `undefined.substr` throws

  /** The client half of `discover`: a reply starting with 'D' is a
      documentation text, anything else a list of 'M' (method) and 'R'
      (route) lines. */
  function DiscoverResult(x: Option<string>): Discovery
  {
    match x
    case None => NoText
    case Some(s) =>
      if |s| > 0 && s[0] == 'D' then Documentation(s[1..])
      else
        var lines := SplitAll('\n', s);
        Listing(Tagged(lines, 'M'), Tagged(lines, 'R'))
  }

  /** The text the server half of discovery builds for an empty query: one
      "M" + name + "\n" line per method, in enumeration order. */
  function MethodListing(names: seq<string>): string
  {
    if names == [] then "" else MethodListing(names[..|names| - 1]) + "M" + names[|names| - 1] + "\n"
  }

  lemma {:induction false} MethodListingCons(name: string, names: seq<string>)
    ensures MethodListing([name] + names) == "M" + name + "\n" + MethodListing(names)
    decreases |names|
  {
    if names != [] {
      var all := [name] + names;
      assert all[..|all| - 1] == [name] + names[..|names| - 1];
      MethodListingCons(name, names[..|names| - 1]);
    }
  }

  predicate NoNewline(names: seq<string>)
  {
    forall i | 0 <= i < |names| :: '\n' !in names[i]
  }

  /** The listing a peer answers an empty discovery with is read back by
      `discover` as exactly its method names, in order, and no routes. */
  lemma {:induction false} ListingRoundTrip(names: seq<string>)
    requires NoNewline(names)
    ensures DiscoverResult(Some(MethodListing(names))) == Listing(names, [])
    decreases |names|
  {
    ListingLines(names);
    if names != [] {
      MethodListingCons(names[0], names[1..]);
      assert [names[0]] + names[1..] == names;
    }
  }

  /** A line free of the separator comes off the front of a split whole. */
  lemma SplitAllCons(c: char, line: string, rest: string)
    requires c !in line
    ensures SplitAll(c, line + [c] + rest) == [line] + SplitAll(c, rest)
  {
    var s := line + [c] + rest;
    FindAt(line, c, rest);
    assert s[..|line|] == line && s[|line| + 1..] == rest;
  }

  lemma TaggedCons(line: string, lines: seq<string>, t: char)
    ensures Tagged([line] + lines, t)
         == (if |line| > 0 && line[0] == t then [line[1..]] else []) + Tagged(lines, t)
  {
    assert ([line] + lines)[1..] == lines;
  }

  lemma {:induction false} ListingLines(names: seq<string>)
    requires NoNewline(names)
    ensures var lines := SplitAll('\n', MethodListing(names));
            Tagged(lines, 'M') == names && Tagged(lines, 'R') == []
    decreases |names|
  {
    if names == [] {
      assert SplitAll('\n', "") == [""];
    } else {
      var head := "M" + names[0];
      var rest := MethodListing(names[1..]);
      MethodListingCons(names[0], names[1..]);
      assert [names[0]] + names[1..] == names;
      SplitAllCons('\n', head, rest);
      ListingLines(names[1..]);
      TaggedCons(head, SplitAll('\n', rest), 'M');
      TaggedCons(head, SplitAll('\n', rest), 'R');
      assert head[1..] == names[0];
    }
  }

  // ---------------------------------------------------------------------
  // Engine state

  /** What a pending request was created for; it fixes the frame
      #create_request sends under the new id (`call`, `call_callback` and
      `discover`, with missing arguments already replaced by ""). */
  datatype RequestKind =
    | MethodCallRequest(name: string, args: string)
    | CallbackCallRequest(name: string, args: string)
    | DiscoverRequest(query: string)

  function RequestFrame(kind: RequestKind, id: string): string
  {
    match kind
    case MethodCallRequest(name, args) => MethodCallFrame(id, name, args)
    case CallbackCallRequest(name, args) => CallbackFrame(id, name, args)
    case DiscoverRequest(query) => DiscoverFrame(id, query)
  }

  /** `x || ""` for an optional text. */
  function OrEmpty(x: Option<string>): string
  {
    match x
    case None => ""
    case Some(t) => t
  }

  /** String concatenation of an optional text: "undefined" when absent. */
  function OrUndefined(x: Option<string>): string
  {
    match x
    case None => "undefined"
    case Some(t) => t
  }

  /** The state of a request's promise right after #create_request. */
  datatype Started = Pending(id: string) | RejectedAtOnce(error: Failure)

  /** How a pending promise was settled: `ok(data)` or `err(error)`. */
  datatype Outcome = Fulfilled(value: Option<string>) | Rejected(error: Failure)

  datatype Settlement = Settlement(id: string, outcome: Outcome)

  /** A JavaScript function value supplied by the application, identified by
      its source text (which is also what it becomes when used as a key). */
  datatype Handler = Handler(source: string)

  /** The publish function registered in `#topics`, with its `onunsubscribe`. */
  datatype Publication = Publication(onUnsubscribe: Option<Handler>)

  /** An entry of `methods`, with its `doc` property. */
  datatype Method = Method(doc: Option<string>)

  /** Progress of the hello/welcome exchange: whether `#welcome_done` is set
      and whether the welcome promise has been resolved. */
  datatype Handshake = NotStarted | AwaitingWelcome | Welcomed(data: Option<string>)

  /** Application code the engine runs, in order. */
  datatype Invocation =
    | SubscriberCalled(handler: Handler, data: Option<string>)   // None: null/undefined
    | HookCalled(hook: Handler)
    | MethodCalled(name: string, request: string)
    | CallbackCalled(handler: Handler, request: string)

  /** What reaches `#on_error`. */
  datatype ErrorReport = RawData(data: Option<string>) | Reported(error: Failure)

  /** The value a method or callback handler resolves to. */
  datatype Response =
    | Undefined
    | ReturnedExecutionError(message: string)
    | ReturnedException(message: string)
    | Value(text: string)   // anything else, by its toString()

  datatype HandlerOutcome = Returned(response: Response) | Threw(text: string)

  /** What a subscription handler does with the value it is given. */
  datatype Verdict = Accepts | Declines | Throws

  /** How the application's code behaves while one inbound frame is handled. */
  datatype Reactions = Reactions(
    methodOutcome: HandlerOutcome,
    callbackOutcome: HandlerOutcome,
    subscriber: Verdict,
    hookThrows: bool)

  /** `new Request(data, ...)`: a String object, "undefined" when there was no data. */
  function RequestText(data: Option<string>): string { OrUndefined(data) }

  /** The message of `new Exception(data)` / `new ExecutionError(data)`. */
  function MessageText(data: Option<string>): string { OrEmpty(data) }

  /** #send_response: the frame that answers request `id` with a handler's value. */
  function ResponseFrame(id: string, r: Response): string
  {
    match r
    case Undefined => ResultFrame(id, "")
    case ReturnedExecutionError(m) => ExecutionErrorFrame(id, Text(m))
    case ReturnedException(m) => ExceptionFrame(id, m)
    case Value(t) => ResultFrame(id, t)
  }

  /** The answer to an inbound call: the response, or an unhandledException
      carrying the thrown value's text. */
  function ReplyFrame(id: string, o: HandlerOutcome): string
  {
    match o
    case Returned(r) => ResponseFrame(id, r)
    case Threw(t) => ExceptionFrame(id, IntToDecimal(UnhandledException) + " " + t)
  }

  /** Whatever a handler does, the caller reads the reply as a result, an
      exception or an execution error for its own request id. */
  lemma ReplyAnswersCaller(id: string, o: HandlerOutcome)
    requires '\n' !in id
    ensures var m := ParseMsg(ReplyFrame(id, o));
            (m.ResultIn? || m.ExceptionIn? || m.ExecutionErrorIn?) && m.id == id && m.data.Some?
    ensures o == Returned(Undefined) ==> ParseMsg(ReplyFrame(id, o)) == ResultIn(id, Some(""))
  {
    match o
    case Returned(Undefined) => ParseEncoded(ResultIn(id, Some("")));
    case Returned(ReturnedExecutionError(m)) =>
      ParseEncoded(ExecutionErrorIn(id, Some(m + " " + ErrorToString(Text(m)))));
    case Returned(ReturnedException(m)) => ParseEncoded(ExceptionIn(id, Some(m)));
    case Returned(Value(t)) => ParseEncoded(ResultIn(id, Some(t)));
    case Threw(t) => ParseEncoded(ExceptionIn(id, Some(IntToDecimal(UnhandledException) + " " + t)));
  }

  /** The frame a failed promise is answered with on the wire decides what
      settles the caller's request: the settlement a result, exception or
      execution error frame carries, if any. */
  function Answer(m: Inbound): Option<Settlement>
  {
    match m
    case ResultIn(id, data) => Some(Settlement(id, Fulfilled(data)))
    case ExceptionIn(id, data) =>
      if id == "" then None else Some(Settlement(id, Rejected(Exception(MessageText(data)))))
    case ExecutionErrorIn(id, data) =>
      if id == "" then None else Some(Settlement(id, Rejected(ExecutionError(MessageText(data)))))
    case _ => None
  }

  /** Ids #create_request has handed out while the counter was below `n`. */
  predicate IssuedBelow(id: string, n: nat)
  {
    |id| > 0 && AllDigits(id) && DigitsValue(id) < n
  }

  /** Ids reg_callback has handed out while the counter was below `n`:
      a decimal number followed by "_cb". */
  predicate CallbackIdBelow(id: string, n: nat)
  {
    |id| > 3 && id[|id| - 3..] == "_cb" && AllDigits(id[..|id| - 3]) && DigitsValue(id[..|id| - 3]) < n
  }

  /** The fields of a peer that handling an inbound message can change,
      besides the pending requests and their settlements (see `Answer`). */
  datatype State = State(
    callbacks: map<string, Handler>,
    subscriptions: map<string, Handler>,
    topics: map<string, Publication>,
    peerVars: map<string, Option<string>>,
    handshake: Handshake,
    sent: seq<string>,
    invocations: seq<Invocation>,
    errors: seq<ErrorReport>,
    closeRequested: bool)

  /** #send_node_error on a state: the frame, the close request, the report. */
  function NodeErrorAfter(s: State, code: int): State
  {
    s.(sent := s.sent + [NodeErrorFrame(code)], closeRequested := true,
       errors := s.errors + [NodeErrorReport(code)])
  }

  /** The frame #on_discover answers a query with. */
  function DiscoverReply(id: string, query: Option<string>, methods: map<string, Method>, order: seq<string>): string
  {
    if OrEmpty(query) == "" then ResultFrame(id, MethodListing(order))
    else if query.value in methods then ResultFrame(id, OrUndefined(methods[query.value].doc))
    else ExceptionFrame(id, IntToDecimal(MethodNotFound) + " " + ErrorToString(Num(MethodNotFound)))
  }

  /** #on_callback on a state: a registered callback is taken out of the
      table, runs and its outcome is the reply; an unregistered one gets
      callbackIsNotRegistered and then the unhandled-exception reply. */
  function AfterCallback(s: State, id: string, name: string, args: Option<string>, outcome: HandlerOutcome): State
  {
    if name in s.callbacks then
      s.(callbacks := s.callbacks - {name},
         invocations := s.invocations + [CallbackCalled(s.callbacks[name], RequestText(args))],
         sent := s.sent + [ReplyFrame(id, outcome)])
    else
      s.(sent := s.sent + [ExecutionErrorFrame(id, Num(CallbackIsNotRegistered)), ReplyFrame(id, Threw(UndefinedCallText))])
  }

  /** #on_call on a state: an exposed method runs and its outcome is the
      reply; an unknown one gets methodNotFound. */
  function AfterCall(s: State, methods: map<string, Method>, id: string, name: string, args: Option<string>,
                     outcome: HandlerOutcome): State
  {
    if name in methods then
      s.(invocations := s.invocations + [MethodCalled(name, RequestText(args))],
         sent := s.sent + [ReplyFrame(id, outcome)])
    else
      s.(sent := s.sent + [ExecutionErrorFrame(id, Num(MethodNotFound))])
  }

  /** #on_topic_update on a state, with #parse_msg's catch around it. */
  function AfterTopicUpdate(s: State, id: string, data: Option<string>, verdict: Verdict): State
  {
    if id !in s.subscriptions then
      s.(subscriptions := s.subscriptions - {id}, sent := s.sent + [Frame('U', id)])
    else
      var called := s.(invocations := s.invocations + [SubscriberCalled(s.subscriptions[id], data)]);
      match verdict
      case Accepts => called
      case Declines => called.(subscriptions := s.subscriptions - {id}, sent := s.sent + [Frame('U', id)])
      case Throws => NodeErrorAfter(called, MessageProcessingError)
  }

  /** #on_unsubscribe on a state, with #parse_msg's catch around it. */
  function AfterUnsubscribe(s: State, id: string, hookThrows: bool): State
  {
    var hook := if id in s.topics then s.topics[id].onUnsubscribe else None;
    var called := s.(topics := s.topics - {id},
                     invocations := s.invocations + (if hook.Some? then [HookCalled(hook.value)] else []));
    if hook.Some? && hookThrows then NodeErrorAfter(called, MessageProcessingError) else called
  }

  /** #on_topic_close on a state, with #parse_msg's catch around it: the
      entry deleted is the one keyed by the handler's text. */
  function AfterTopicClose(s: State, id: string, verdict: Verdict): State
  {
    if id !in s.subscriptions then s
    else
      var n := s.subscriptions[id];
      var called := s.(invocations := s.invocations + [SubscriberCalled(n, None)]);
      if verdict == Throws then NodeErrorAfter(called, MessageProcessingError)
      else called.(subscriptions := s.subscriptions - {n.source})
  }

  /** #on_welcome on a state, with #parse_msg's catch around it. */
  function AfterWelcome(s: State, version: string, data: Option<string>): State
  {
    if version != Version then NodeErrorAfter(s, UnsupportedVersion)
    else if s.handshake == NotStarted then NodeErrorAfter(s, MessageProcessingError)
    else if s.handshake == AwaitingWelcome then s.(handshake := Welcomed(data))
    else s
  }

  /** What #parse_msg does with one message, given the exposed methods and
      how the application's code reacts: the table entries added, removed
      or kept, the application code run, the frames sent, the reports to
      `#on_error` and the close request. */
  function Handle(m: Inbound, env: Reactions, methods: map<string, Method>, order: seq<string>, s: State): State
  {
    match m
    case ResultIn(_, _) => s
    case ExceptionIn(id, data) => if id == "" then s.(errors := s.errors + [RawData(data)]) else s
    case ExecutionErrorIn(id, data) =>
      if id == "" then s.(errors := s.errors + [Reported(ExecutionError(MessageText(data)))]) else s
    case CallbackIn(id, name, args) => AfterCallback(s, id, name, args, env.callbackOutcome)
    case MethodCallIn(id, name, args) => AfterCall(s, methods, id, name, args, env.methodOutcome)
    case DiscoverIn(id, query) => s.(sent := s.sent + [DiscoverReply(id, query, methods, order)])
    case TopicUpdateIn(id, data) => AfterTopicUpdate(s, id, data, env.subscriber)
    case UnsubscribeIn(id) => AfterUnsubscribe(s, id, env.hookThrows)
    case TopicCloseIn(id) => AfterTopicClose(s, id, env.subscriber)
    case VarSetIn(id, data) => s.(peerVars := s.peerVars[id := data])
    case VarUnsetIn(id) => s.(peerVars := s.peerVars - {id})
    case WelcomeIn(version, data) => AfterWelcome(s, version, data)
    case UnknownType => NodeErrorAfter(s, UnknownMessageType)
    case NoPayload => NodeErrorAfter(s, MessageProcessingError)
  }

  /** `r` follows `s` as a message may leave it: no callback, subscription or
      published topic added, no frame, invocation or report taken back, and
      a close request kept. */
  ghost predicate Advances(s: State, r: State)
  {
    && r.callbacks.Keys <= s.callbacks.Keys
    && r.subscriptions.Keys <= s.subscriptions.Keys
    && r.topics.Keys <= s.topics.Keys
    && s.sent <= r.sent && s.invocations <= r.invocations && s.errors <= r.errors
    && (s.closeRequested ==> r.closeRequested)
  }

  lemma NodeErrorAdvances(s: State, code: int)
    ensures Advances(s, NodeErrorAfter(s, code))
  {
  }

  lemma TopicUpdateAdvances(s: State, id: string, data: Option<string>, verdict: Verdict)
    ensures Advances(s, AfterTopicUpdate(s, id, data, verdict))
  {
    if id in s.subscriptions && verdict == Throws {
      var t := s.(invocations := s.invocations + [SubscriberCalled(s.subscriptions[id], data)]);
      NodeErrorAdvances(t, MessageProcessingError);
    }
  }

  lemma TopicCloseAdvances(s: State, id: string, verdict: Verdict)
    ensures Advances(s, AfterTopicClose(s, id, verdict))
  {
  }

  lemma CallbackAdvances(s: State, id: string, name: string, args: Option<string>, outcome: HandlerOutcome)
    ensures Advances(s, AfterCallback(s, id, name, args, outcome))
  {
  }

  lemma CallAdvances(s: State, methods: map<string, Method>, id: string, name: string, args: Option<string>,
                     outcome: HandlerOutcome)
    ensures Advances(s, AfterCall(s, methods, id, name, args, outcome))
  {
  }

  lemma UnsubscribeAdvances(s: State, id: string, hookThrows: bool)
    ensures Advances(s, AfterUnsubscribe(s, id, hookThrows))
  {
  }

  lemma WelcomeAdvances(s: State, version: string, data: Option<string>)
    ensures Advances(s, AfterWelcome(s, version, data))
  {
    if version != Version {
      NodeErrorAdvances(s, UnsupportedVersion);
    } else {
      NodeErrorAdvances(s, MessageProcessingError);
    }
  }

  lemma AnswerAdvances(m: Inbound, env: Reactions, methods: map<string, Method>, order: seq<string>, s: State)
    requires m.ResultIn? || m.ExceptionIn? || m.ExecutionErrorIn?
    ensures Advances(s, Handle(m, env, methods, order, s))
  {
  }

  lemma {:induction false} RequestAdvances(m: Inbound, env: Reactions, methods: map<string, Method>, order: seq<string>, s: State)
    requires m.CallbackIn? || m.MethodCallIn? || m.DiscoverIn?
    ensures Advances(s, Handle(m, env, methods, order, s))
  {
    match m
    case CallbackIn(id, name, args) => CallbackAdvances(s, id, name, args, env.callbackOutcome);
    case MethodCallIn(id, name, args) => CallAdvances(s, methods, id, name, args, env.methodOutcome);
    case DiscoverIn(_, _) =>
  }

  lemma {:induction false} TopicAdvances(m: Inbound, env: Reactions, methods: map<string, Method>, order: seq<string>, s: State)
    requires m.TopicUpdateIn? || m.UnsubscribeIn? || m.TopicCloseIn?
    ensures Advances(s, Handle(m, env, methods, order, s))
  {
    match m
    case TopicUpdateIn(id, data) => TopicUpdateAdvances(s, id, data, env.subscriber);
    case UnsubscribeIn(id) => UnsubscribeAdvances(s, id, env.hookThrows);
    case TopicCloseIn(id) => TopicCloseAdvances(s, id, env.subscriber);
  }

  lemma {:induction false} SessionAdvances(m: Inbound, env: Reactions, methods: map<string, Method>, order: seq<string>, s: State)
    requires m.VarSetIn? || m.VarUnsetIn? || m.WelcomeIn? || m.UnknownType? || m.NoPayload?
    ensures Advances(s, Handle(m, env, methods, order, s))
  {
    match m
    case WelcomeIn(version, data) => WelcomeAdvances(s, version, data);
    case UnknownType => NodeErrorAdvances(s, UnknownMessageType);
    case NoPayload => NodeErrorAdvances(s, MessageProcessingError);
    case VarSetIn(_, _) =>
    case VarUnsetIn(_) =>
  }

  /** No message registers a callback, a subscription or a published topic:
      handling one only removes entries from those tables, and the frames
      sent, the code run and the reports only grow; a close request stays. */
  lemma {:induction false} HandleShrinksTables(m: Inbound, env: Reactions, methods: map<string, Method>, order: seq<string>, s: State)
    ensures Advances(s, Handle(m, env, methods, order, s))
  {
    if m.CallbackIn? || m.MethodCallIn? || m.DiscoverIn? {
      RequestAdvances(m, env, methods, order, s);
    } else if m.TopicUpdateIn? || m.UnsubscribeIn? || m.TopicCloseIn? {
      TopicAdvances(m, env, methods, order, s);
    } else if m.ResultIn? || m.ExceptionIn? || m.ExecutionErrorIn? {
      AnswerAdvances(m, env, methods, order, s);
    } else {
      SessionAdvances(m, env, methods, order, s);
    }
  }

  /** A registered callback runs once: its frame removes it and runs it, and
      the same frame a second time is answered as not registered and runs
      nothing. */
  lemma CallbackRunsOnce(id: string, name: string, args: Option<string>, env: Reactions,
                         methods: map<string, Method>, order: seq<string>, s: State)
    requires name in s.callbacks
    ensures var r := Handle(CallbackIn(id, name, args), env, methods, order, s);
      && name !in r.callbacks
      && r.invocations == s.invocations + [CallbackCalled(s.callbacks[name], RequestText(args))]
      && var again := Handle(CallbackIn(id, name, args), env, methods, order, r);
         && again.invocations == r.invocations
         && again.sent == r.sent + [ExecutionErrorFrame(id, Num(CallbackIsNotRegistered)),
                                    ReplyFrame(id, Threw(UndefinedCallText))]
  {
  }

  /** A subscription handler that throws keeps its subscription, and the
      peer answers with the messageProcessingError node error and closes. */
  lemma ThrowingSubscriberCloses(id: string, data: Option<string>, env: Reactions,
                                 methods: map<string, Method>, order: seq<string>, s: State)
    requires id in s.subscriptions && env.subscriber == Throws
    ensures var r := Handle(TopicUpdateIn(id, data), env, methods, order, s);
      && r.subscriptions == s.subscriptions
      && r.sent == s.sent + [NodeErrorFrame(MessageProcessingError)]
      && r.errors == s.errors + [NodeErrorReport(MessageProcessingError)]
      && r.closeRequested
  {
  }

  /** The frame a calling peer builds for a method call reaches #on_call
      with the same id, method name and arguments. */
  lemma ReceiveMethodCall(id: string, name: string, args: string, env: Reactions,
                          methods: map<string, Method>, order: seq<string>, s: State)
    requires '\n' !in id && '\n' !in name
    ensures Handle(ParseMsg(MethodCallFrame(id, name, args)), env, methods, order, s)
         == AfterCall(s, methods, id, name, Some(args), env.methodOutcome)
  {
    MethodCallRoundTrip(id, name, args);
  }

  /** Every request id, pending or settled, was issued by the counter (below
      `next`); pending and settled ids are disjoint and each id is settled at
      most once; callback ids were issued by the counter too; `order`
      enumerates `methods` without repetition. */
  ghost predicate Consistent(next: nat, requests: map<string, RequestKind>, settlements: seq<Settlement>,
                             callbacks: map<string, Handler>, methods: map<string, Method>, order: seq<string>)
  {
    && (forall id | id in requests :: IssuedBelow(id, next))
    && (forall i | 0 <= i < |settlements| ::
          IssuedBelow(settlements[i].id, next) && settlements[i].id !in requests)
    && (forall i, j | 0 <= i < j < |settlements| :: settlements[i].id != settlements[j].id)
    && (forall id | id in callbacks :: CallbackIdBelow(id, next))
    && (forall name :: name in methods <==> name in order)
    && (forall i, j | 0 <= i < j < |order| :: order[i] != order[j])
  }

  class Peer {
    /** `#connected`: true from construction until #cleanup. */
    var connected: bool
    /** `#req_next_id`, shared by request ids and callback ids. */
    var reqNextId: nat
    /** `#requests`: the pending requests by id. */
    var requests: map<string, RequestKind>
    /** The settlements of request promises, in the order they happened. */
    var settlements: seq<Settlement>
    /** `#subscriptions`: topic id to handler. */
    var subscriptions: map<string, Handler>
    /** `#topics`: topics this peer publishes. */
    var topics: map<string, Publication>
    /** `#callbacks`: one-shot callbacks by id. */
    var callbacks: map<string, Handler>
    /** `methods` and the order `for..in` enumerates it in. */
    var methods: map<string, Method>
    var methodOrder: seq<string>
    /** `peer_vars`: variables the other side has set. */
    var peerVars: map<string, Option<string>>
    /** The shadow object behind the `vars` proxy, values by their toString(). */
    var vars: map<string, string>
    var handshake: Handshake
    /** Frames handed to `ws.send`, in order. */
    var sent: seq<string>
    /** Whether `ws.close()` has been called. */
    var closeRequested: bool
    /** Values passed to `#on_error`, in order. */
    var errors: seq<ErrorReport>
    /** Application code run by the engine, in order. */
    var invocations: seq<Invocation>

    /** The invariant of the peer's tables (see Consistent). */
    ghost predicate Valid()
      reads this`requests, this`settlements, this`reqNextId, this`callbacks, this`methods, this`methodOrder
    {
      Consistent(reqNextId, requests, settlements, callbacks, methods, methodOrder)
    }

    constructor ()
      ensures Valid()
      ensures connected && reqNextId == 0 && requests == map[] && settlements == []
      ensures subscriptions == map[] && topics == map[] && callbacks == map[]
      ensures methods == map[] && methodOrder == [] && peerVars == map[] && vars == map[]
      ensures handshake == NotStarted && sent == [] && !closeRequested && errors == [] && invocations == []
    {
      connected := true;
      reqNextId := 0;
      requests := map[];
      settlements := [];
      subscriptions := map[];
      topics := map[];
      callbacks := map[];
      methods := map[];
      methodOrder := [];
      peerVars := map[];
      vars := map[];
      handshake := NotStarted;
      sent := [];
      closeRequested := false;
      errors := [];
      invocations := [];
    }

    /** #create_request: while connected, the next counter value in decimal
        becomes a fresh pending id and the request frame goes out under it;
        otherwise the promise is rejected at once and nothing is sent. */
    method CreateRequest(kind: RequestKind) returns (r: Started)
      requires Valid()
      modifies this`reqNextId, this`requests, this`sent
      ensures Valid()
      ensures old(connected) ==>
        && r == Pending(NatToDecimal(old(reqNextId)))
        && r.id !in old(requests)
        && reqNextId == old(reqNextId) + 1
        && requests == old(requests)[r.id := kind]
        && sent == old(sent) + [RequestFrame(kind, r.id)]
      ensures !old(connected) ==>
        && r == RejectedAtOnce(DisconnectException())
        && reqNextId == old(reqNextId) && requests == old(requests) && sent == old(sent)
    {
      if connected {
        var id := NatToDecimal(reqNextId);
        DecimalRoundTrip(reqNextId);
        reqNextId := reqNextId + 1;
        requests := requests[id := kind];
        sent := sent + [RequestFrame(kind, id)];
        r := Pending(id);
      } else {
        r := RejectedAtOnce(DisconnectException());
      }
    }

    /** #pop_request: take the entry for `id` out of the table. */
    method PopRequest(id: string) returns (found: bool)
      modifies this`requests
      ensures found <==> id in old(requests)
      ensures requests == old(requests) - {id}
    {
      found := id in requests;
      requests := requests - {id};
    }

    /** Settle the request `id` if it is pending, at most once. */
    method Settle(id: string, outcome: Outcome)
      requires Valid()
      modifies this`requests, this`settlements
      ensures Valid()
      ensures requests == old(requests) - {id}
      ensures settlements == old(settlements) + (if id in old(requests) then [Settlement(id, outcome)] else [])
    {
      var found := PopRequest(id);
      if found {
        settlements := settlements + [Settlement(id, outcome)];
      }
    }

    /** #on_result: fulfil the request, silently ignoring unknown ids. */
    method OnResult(id: string, data: Option<string>)
      requires Valid()
      modifies this`requests, this`settlements
      ensures Valid()
      ensures requests == old(requests) - {id}
      ensures settlements == old(settlements) + (if id in old(requests) then [Settlement(id, Fulfilled(data))] else [])
    {
      Settle(id, Fulfilled(data));
    }

    /** #on_exception: an empty id reports the raw data to `#on_error`;
        otherwise the request is rejected with an Exception. */
    method OnException(id: string, data: Option<string>)
      requires Valid()
      modifies this`requests, this`settlements, this`errors
      ensures Valid()
      ensures id == "" ==>
        requests == old(requests) && settlements == old(settlements) && errors == old(errors) + [RawData(data)]
      ensures id != "" ==>
        && errors == old(errors)
        && requests == old(requests) - {id}
        && settlements == old(settlements)
             + (if id in old(requests) then [Settlement(id, Rejected(Exception(MessageText(data))))] else [])
    {
      if id == "" {
        errors := errors + [RawData(data)];
      } else {
        Settle(id, Rejected(Exception(MessageText(data))));
      }
    }

    /** #on_execute_error: an empty id reports an ExecutionError to
        `#on_error`; otherwise the request is rejected with it. */
    method OnExecuteError(id: string, data: Option<string>)
      requires Valid()
      modifies this`requests, this`settlements, this`errors
      ensures Valid()
      ensures id == "" ==>
        && requests == old(requests) && settlements == old(settlements)
        && errors == old(errors) + [Reported(ExecutionError(MessageText(data)))]
      ensures id != "" ==>
        && errors == old(errors)
        && requests == old(requests) - {id}
        && settlements == old(settlements)
             + (if id in old(requests) then [Settlement(id, Rejected(ExecutionError(MessageText(data))))] else [])
    {
      if id == "" {
        errors := errors + [Reported(ExecutionError(MessageText(data)))];
      } else {
        Settle(id, Rejected(ExecutionError(MessageText(data))));
      }
    }

    /** #cleanup: reject every pending request with the disconnect error,
        once each, then forget topics, subscriptions and requests. */
    method Cleanup()
      requires Valid()
      modifies this`requests, this`settlements, this`topics, this`subscriptions, this`connected
      ensures Valid()
      ensures requests == map[] && topics == map[] && subscriptions == map[] && !connected
      ensures |settlements| == |old(settlements)| + |old(requests)|
      ensures settlements[..|old(settlements)|] == old(settlements)
      ensures forall i | |old(settlements)| <= i < |settlements| ::
                settlements[i].id in old(requests) && settlements[i].outcome == Rejected(DisconnectException())
      ensures forall id | id in old(requests) ::
                exists i | |old(settlements)| <= i < |settlements| :: settlements[i].id == id
    {
      var rejections := RejectAll(requests.Keys);
      AppendRejections(settlements, rejections, requests.Keys, reqNextId);
      settlements := settlements + rejections;
      topics := map[];
      subscriptions := map[];
      requests := map[];
      connected := false;
    }

    /** #send_node_error: a connection-level exception frame, a request to
        close the socket, and the same error reported to `#on_error`. */
    method SendNodeError(code: int)
      modifies this`sent, this`closeRequested, this`errors
      ensures sent == old(sent) + [NodeErrorFrame(code)]
      ensures closeRequested
      ensures errors == old(errors) + [NodeErrorReport(code)]
    {
      sent := sent + [NodeErrorFrame(code)];
      closeRequested := true;
      errors := errors + [NodeErrorReport(code)];
    }

    /** subscribe: the handler replaces any earlier one for the topic. */
    method Subscribe(topic: string, handler: Handler)
      modifies this`subscriptions
      ensures subscriptions == old(subscriptions)[topic := handler]
    {
      subscriptions := subscriptions[topic := handler];
    }

    /** unsubscribe: a subscribed topic's handler is called once with null,
        then the subscription is dropped and "U" + topic is sent; a handler
        that throws leaves everything in place. */
    method Unsubscribe(topic: string, handlerThrows: bool) returns (removed: bool)
      modifies this`subscriptions, this`sent, this`invocations
      ensures removed <==> topic in old(subscriptions) && !handlerThrows
      ensures topic in old(subscriptions) ==>
        invocations == old(invocations) + [SubscriberCalled(old(subscriptions)[topic], None)]
      ensures topic !in old(subscriptions) ==> invocations == old(invocations)
      ensures removed ==> subscriptions == old(subscriptions) - {topic} && sent == old(sent) + [Frame('U', topic)]
      ensures !removed ==> subscriptions == old(subscriptions) && sent == old(sent)
    {
      removed := false;
      if topic in subscriptions {
        invocations := invocations + [SubscriberCalled(subscriptions[topic], None)];
        if !handlerThrows {
          subscriptions := subscriptions - {topic};
          sent := sent + [Frame('U', topic)];
          removed := true;
        }
      }
    }

    /** start_publish: registers the topic's publish function, with no
        `onunsubscribe` hook yet; when disconnected it throws instead. */
    method StartPublish(topic: string) returns (thrown: Option<Failure>)
      modifies this`topics
      ensures connected ==> thrown == None && topics == old(topics)[topic := Publication(None)]
      ensures !connected ==> thrown == Some(DisconnectException()) && topics == old(topics)
    {
      if connected {
        topics := topics[topic := Publication(None)];
        thrown := None;
      } else {
        thrown := Some(DisconnectException());
      }
    }

    /** `fn.onunsubscribe = hook` on the publish function registered for the topic. */
    method SetUnsubscribeHook(topic: string, hook: Handler)
      modifies this`topics
      ensures topic in old(topics) ==> topics == old(topics)[topic := Publication(Some(hook))]
      ensures topic !in old(topics) ==> topics == old(topics)
    {
      if topic in topics {
        topics := topics[topic := Publication(Some(hook))];
      }
    }

    /** The publish function of a topic: it only sends while the other side
        is in `#subscriptions` under the topic name, a topic close for a
        null/undefined value and a topic update otherwise; it answers whether
        it sent. */
    method Publish(topic: string, msg: Option<string>) returns (allow: bool)
      modifies this`sent
      ensures allow <==> topic in subscriptions
      ensures allow && msg.None? ==> sent == old(sent) + [Frame('Z', topic)]
      ensures allow && msg.Some? ==> sent == old(sent) + [FrameWith('T', topic, msg.value)]
      ensures !allow ==> sent == old(sent)
    {
      allow := topic in subscriptions;
      if allow {
        match msg
        case None => sent := sent + [Frame('Z', topic)];
        case Some(m) => sent := sent + [FrameWith('T', topic, m)];
      }
    }

    /** #on_topic_update: the handler gets the data; a missing handler or one
        that returns a falsy value ends the subscription with "U" + id. A
        handler that throws leaves the subscription in place. */
    method OnTopicUpdate(id: string, data: Option<string>, verdict: Verdict) returns (threw: bool)
      modifies this`subscriptions, this`sent, this`invocations
      ensures threw <==> id in old(subscriptions) && verdict == Throws
      ensures id in old(subscriptions) ==>
        invocations == old(invocations) + [SubscriberCalled(old(subscriptions)[id], data)]
      ensures id !in old(subscriptions) ==> invocations == old(invocations)
      ensures var drop := id !in old(subscriptions) || verdict == Declines;
        && subscriptions == (if drop then old(subscriptions) - {id} else old(subscriptions))
        && sent == old(sent) + (if drop then [Frame('U', id)] else [])
    {
      threw := false;
      if id in subscriptions {
        invocations := invocations + [SubscriberCalled(subscriptions[id], data)];
        if verdict == Throws {
          threw := true;
          return;
        } else if verdict == Accepts {
          return;
        }
      }
      subscriptions := subscriptions - {id};
      sent := sent + [Frame('U', id)];
    }

    /** #on_unsubscribe: the other side stopped listening; the topic is
        forgotten and its `onunsubscribe` hook, if any, is called. */
    method OnUnsubscribe(id: string, hookThrows: bool) returns (threw: bool)
      modifies this`topics, this`invocations
      ensures topics == old(topics) - {id}
      ensures var hook := if id in old(topics) then old(topics)[id].onUnsubscribe else None;
        && invocations == old(invocations) + (if hook.Some? then [HookCalled(hook.value)] else [])
        && (threw <==> hook.Some? && hookThrows)
    {
      var hook := if id in topics then topics[id].onUnsubscribe else None;
      topics := topics - {id};
      threw := false;
      if hook.Some? {
        invocations := invocations + [HookCalled(hook.value)];
        threw := hookThrows;
      }
    }

    /** #on_topic_close: the handler is called with null, then the entry
        keyed by the handler itself (its source text) is deleted, so the
        subscription under `id` survives unless the two coincide. */
    method OnTopicClose(id: string, verdict: Verdict) returns (threw: bool)
      modifies this`subscriptions, this`invocations
      ensures threw <==> id in old(subscriptions) && verdict == Throws
      ensures id in old(subscriptions) ==>
        invocations == old(invocations) + [SubscriberCalled(old(subscriptions)[id], None)]
      ensures id !in old(subscriptions) ==> invocations == old(invocations) && subscriptions == old(subscriptions)
      ensures id in old(subscriptions) && !threw ==>
        subscriptions == old(subscriptions) - {old(subscriptions)[id].source}
      ensures threw ==> subscriptions == old(subscriptions)
      ensures id in old(subscriptions) && old(subscriptions)[id].source != id ==> id in subscriptions
    {
      threw := false;
      if id in subscriptions {
        var n := subscriptions[id];
        invocations := invocations + [SubscriberCalled(n, None)];
        if verdict == Throws {
          threw := true;
        } else {
          subscriptions := subscriptions - {n.source};
        }
      }
    }

    /** reg_callback: a one-shot callback under the id counter value + "_cb",
        never equal to an id handed out before. */
    method RegCallback(handler: Handler) returns (id: string)
      requires Valid()
      modifies this`reqNextId, this`callbacks
      ensures Valid()
      ensures id == NatToDecimal(old(reqNextId)) + "_cb"
      ensures id !in old(callbacks) && callbacks == old(callbacks)[id := handler]
      ensures reqNextId == old(reqNextId) + 1
    {
      var digits := NatToDecimal(reqNextId);
      id := digits + "_cb";
      DecimalRoundTrip(reqNextId);
      assert id[..|id| - 3] == digits && id[|id| - 3..] == "_cb";
      reqNextId := reqNextId + 1;
      callbacks := callbacks[id := handler];
    }

    /** unreg_callback. */
    method UnregCallback(id: string)
      modifies this`callbacks
      ensures callbacks == old(callbacks) - {id}
    {
      callbacks := callbacks - {id};
    }

    /** #on_callback: a registered callback is removed before it runs, so it
        runs at most once; an unknown one gets callbackIsNotRegistered and
        then, because the code goes on to call `undefined`, an
        unhandledException for the same id. */
    method OnCallback(id: string, name: string, data: Option<string>, outcome: HandlerOutcome)
      modifies this`callbacks, this`sent, this`invocations
      ensures callbacks == old(callbacks) - {name}
      ensures name in old(callbacks) ==>
        && invocations == old(invocations) + [CallbackCalled(old(callbacks)[name], RequestText(data))]
        && sent == old(sent) + [ReplyFrame(id, outcome)]
      ensures name !in old(callbacks) ==>
        && invocations == old(invocations)
        && sent == old(sent) + [ExecutionErrorFrame(id, Num(CallbackIsNotRegistered)),
                                ReplyFrame(id, Threw(UndefinedCallText))]
    {
      if name in callbacks {
        var handler := callbacks[name];
        callbacks := callbacks - {name};
        invocations := invocations + [CallbackCalled(handler, RequestText(data))];
        sent := sent + [ReplyFrame(id, outcome)];
      } else {
        sent := sent + [ExecutionErrorFrame(id, Num(CallbackIsNotRegistered))];
        callbacks := callbacks - {name};
        sent := sent + [ReplyFrame(id, Threw(UndefinedCallText))];
      }
    }

    /** Putting a function into `methods` (the application's side). */
    method ExposeMethod(name: string, m: Method)
      requires Valid()
      modifies this`methods, this`methodOrder
      ensures Valid()
      ensures methods == old(methods)[name := m]
      ensures methodOrder == if name in old(methods) then old(methodOrder) else old(methodOrder) + [name]
    {
      if name !in methods {
        methodOrder := methodOrder + [name];
      }
      methods := methods[name := m];
    }

    /** #on_call: an exposed method runs and its outcome is the reply; an
        unknown one is answered with methodNotFound without running anything. */
    method OnCall(id: string, name: string, args: Option<string>, outcome: HandlerOutcome)
      modifies this`sent, this`invocations
      ensures name in methods ==>
        && invocations == old(invocations) + [MethodCalled(name, RequestText(args))]
        && sent == old(sent) + [ReplyFrame(id, outcome)]
      ensures name !in methods ==>
        invocations == old(invocations) && sent == old(sent) + [ExecutionErrorFrame(id, Num(MethodNotFound))]
    {
      if name in methods {
        invocations := invocations + [MethodCalled(name, RequestText(args))];
        sent := sent + [ReplyFrame(id, outcome)];
      } else {
        sent := sent + [ExecutionErrorFrame(id, Num(MethodNotFound))];
      }
    }

    /** #on_discover: an empty query lists every method; a method name gets
        its `doc` ("undefined" when it has none); anything else methodNotFound. */
    method OnDiscover(id: string, query: Option<string>)
      requires Valid()
      modifies this`sent
      ensures OrEmpty(query) == "" ==> sent == old(sent) + [ResultFrame(id, MethodListing(methodOrder))]
      ensures OrEmpty(query) != "" && query.value in methods ==>
        sent == old(sent) + [ResultFrame(id, OrUndefined(methods[query.value].doc))]
      ensures OrEmpty(query) != "" && query.value !in methods ==>
        sent == old(sent) + [ExceptionFrame(id, IntToDecimal(MethodNotFound) + " " + ErrorToString(Num(MethodNotFound)))]
    {
      if OrEmpty(query) == "" {
        var res := "";
        var i := 0;
        while i < |methodOrder|
          invariant 0 <= i <= |methodOrder|
          invariant res == MethodListing(methodOrder[..i])
        {
          assert methodOrder[..i + 1][..i] == methodOrder[..i];
          res := res + "M" + methodOrder[i] + "\n";
          i := i + 1;
        }
        assert methodOrder[..i] == methodOrder;
        sent := sent + [ResultFrame(id, res)];
      } else if query.value in methods {
        sent := sent + [ResultFrame(id, OrUndefined(methods[query.value].doc))];
      } else {
        sent := sent + [ExceptionFrame(id, IntToDecimal(MethodNotFound) + " " + ErrorToString(Num(MethodNotFound)))];
      }
    }

    /** #on_var_set: the other side's variable, possibly `undefined`. */
    method OnVarSet(id: string, data: Option<string>)
      modifies this`peerVars
      ensures peerVars == old(peerVars)[id := data]
    {
      peerVars := peerVars[id := data];
    }

    /** #on_var_unset. */
    method OnVarUnset(id: string)
      modifies this`peerVars
      ensures peerVars == old(peerVars) - {id}
    {
      peerVars := peerVars - {id};
    }

    /** The `set` trap of the `vars` proxy: always stores, sends a var_set
        only when the value differs (`!==`) from the stored one. */
    method SetVar(name: string, value: string)
      modifies this`vars, this`sent
      ensures vars == old(vars)[name := value]
      ensures name in old(vars) && old(vars)[name] == value ==> sent == old(sent)
      ensures !(name in old(vars) && old(vars)[name] == value) ==> sent == old(sent) + [FrameWith('S', name, value)]
    {
      if !(name in vars && vars[name] == value) {
        sent := sent + [FrameWith('S', name, value)];
      }
      vars := vars[name := value];
    }

    /** The `deleteProperty` trap of the `vars` proxy: always sends var_unset. */
    method UnsetVar(name: string)
      modifies this`vars, this`sent
      ensures vars == old(vars) - {name}
      ensures sent == old(sent) + [Frame('X', name)]
    {
      sent := sent + [Frame('X', name)];
      vars := vars - {name};
    }

    /** The part of `init` that runs once the socket is open: the welcome
        slot is armed and the hello goes out, once. */
    method BeginHandshake(data: Option<string>)
      modifies this`handshake, this`sent
      ensures old(handshake) == NotStarted ==>
        handshake == AwaitingWelcome && sent == old(sent) + [HelloFrame(OrEmpty(data))]
      ensures old(handshake) != NotStarted ==> handshake == old(handshake) && sent == old(sent)
    {
      if handshake == NotStarted {
        handshake := AwaitingWelcome;
        sent := sent + [HelloFrame(OrEmpty(data))];
      }
    }

    /** #on_welcome: a version other than "1.0.0" is a node error; otherwise
        the welcome promise is resolved (only the first time). Without
        `init` there is nothing to call, which throws. */
    method OnWelcome(version: string, data: Option<string>) returns (threw: bool)
      modifies this`handshake, this`sent, this`closeRequested, this`errors
      ensures version != Version ==>
        && !threw && handshake == old(handshake)
        && sent == old(sent) + [NodeErrorFrame(UnsupportedVersion)] && closeRequested
        && errors == old(errors) + [NodeErrorReport(UnsupportedVersion)]
      ensures version == Version ==>
        && sent == old(sent) && errors == old(errors) && closeRequested == old(closeRequested)
        && (threw <==> old(handshake) == NotStarted)
        && handshake == (if old(handshake) == AwaitingWelcome then Welcomed(data) else old(handshake))
    {
      threw := false;
      if version != Version {
        SendNodeError(UnsupportedVersion);
      } else if handshake == NotStarted {
        threw := true;
      } else if handshake == AwaitingWelcome {
        handshake := Welcomed(data);
      }
    }

    /** The part of the peer message handling can change. */
    function Current(): State
      reads this`callbacks, this`subscriptions, this`topics, this`peerVars, this`handshake
      reads this`sent, this`invocations, this`errors, this`closeRequested
    {
      State(callbacks, subscriptions, topics, peerVars, handshake, sent, invocations, errors, closeRequested)
    }

    /** #receive_msg: one inbound text frame, parsed then dispatched. */
    method Receive(msg: string, env: Reactions)
      requires Valid()
      modifies this`requests, this`settlements, this`callbacks, this`subscriptions, this`topics, this`peerVars
      modifies this`handshake, this`sent, this`invocations, this`errors, this`closeRequested
      ensures Valid()
      ensures Current() == Handle(ParseMsg(msg), env, methods, methodOrder, old(Current()))
      ensures var a := Answer(ParseMsg(msg));
        && requests == (if a.Some? then old(requests) - {a.value.id} else old(requests))
        && settlements == old(settlements) + (if a.Some? && a.value.id in old(requests) then [a.value] else [])
      ensures ParseMsg(msg) == UnknownType ==>
        sent == old(sent) + [NodeErrorFrame(UnknownMessageType)] && closeRequested
      ensures ParseMsg(msg) == NoPayload ==>
        sent == old(sent) + [NodeErrorFrame(MessageProcessingError)] && closeRequested
    {
      Dispatch(ParseMsg(msg), env);
    }

    /** The switch of #parse_msg. Whatever the message, it settles at most
        the one pending request its id names, and only when it is a result,
        an exception or an execution error with a non-empty id; every other
        effect is the handler's (Handle). */
    method Dispatch(m: Inbound, env: Reactions)
      requires Valid()
      modifies this`requests, this`settlements, this`callbacks, this`subscriptions, this`topics, this`peerVars
      modifies this`handshake, this`sent, this`invocations, this`errors, this`closeRequested
      ensures Valid()
      ensures Current() == Handle(m, env, methods, methodOrder, old(Current()))
      ensures var a := Answer(m);
        && requests == (if a.Some? then old(requests) - {a.value.id} else old(requests))
        && settlements == old(settlements) + (if a.Some? && a.value.id in old(requests) then [a.value] else [])
      ensures m == UnknownType ==> sent == old(sent) + [NodeErrorFrame(UnknownMessageType)] && closeRequested
      ensures m == NoPayload ==> sent == old(sent) + [NodeErrorFrame(MessageProcessingError)] && closeRequested
    {
      if m.ResultIn? || m.ExceptionIn? || m.ExecutionErrorIn? {
        DispatchAnswer(m, env);
      } else {
        DispatchRequest(m, env);
      }
    }

    /** Every case of the switch but the three answers: none of them touches
        the pending requests. */
    method DispatchRequest(m: Inbound, env: Reactions)
      requires Valid()
      requires !(m.ResultIn? || m.ExceptionIn? || m.ExecutionErrorIn?)
      modifies this`callbacks, this`subscriptions, this`topics, this`peerVars
      modifies this`handshake, this`sent, this`invocations, this`errors, this`closeRequested
      ensures Valid()
      ensures Current() == Handle(m, env, methods, methodOrder, old(Current()))
    {
      if m.CallbackIn? || m.MethodCallIn? || m.DiscoverIn? {
        DispatchCall(m, env);
      } else {
        DispatchNotice(m, env);
      }
    }

    /** The cases of the switch that call no method: topics, variables,
        the welcome and the two ways a frame is refused. */
    method DispatchNotice(m: Inbound, env: Reactions)
      requires !(m.ResultIn? || m.ExceptionIn? || m.ExecutionErrorIn? || m.CallbackIn? || m.MethodCallIn? || m.DiscoverIn?)
      modifies this`subscriptions, this`topics, this`peerVars
      modifies this`handshake, this`sent, this`invocations, this`errors, this`closeRequested
      ensures Current() == Handle(m, env, methods, methodOrder, old(Current()))
    {
      if m.TopicUpdateIn? || m.UnsubscribeIn? || m.TopicCloseIn? {
        DispatchTopic(m, env);
      } else {
        DispatchSession(m, env);
      }
    }

    /** The call, callback and discovery cases of the switch. */
    method DispatchCall(m: Inbound, env: Reactions)
      requires Valid()
      requires m.CallbackIn? || m.MethodCallIn? || m.DiscoverIn?
      modifies this`callbacks, this`sent, this`invocations
      ensures Valid()
      ensures m.CallbackIn? ==> Current() == AfterCallback(old(Current()), m.id, m.name, m.args, env.callbackOutcome)
      ensures m.MethodCallIn? ==> Current() == AfterCall(old(Current()), methods, m.id, m.name, m.args, env.methodOutcome)
      ensures m.DiscoverIn? ==>
        Current() == old(Current()).(sent := old(sent) + [DiscoverReply(m.id, m.query, methods, methodOrder)])
    {
      match m
      case CallbackIn(id, name, args) => OnCallback(id, name, args, env.callbackOutcome);
      case MethodCallIn(id, name, args) => OnCall(id, name, args, env.methodOutcome);
      case DiscoverIn(id, query) => OnDiscover(id, query);
    }

    /** The topic cases of the switch; a handler or hook that throws makes a
        messageProcessingError node error. */
    method DispatchTopic(m: Inbound, env: Reactions)
      requires m.TopicUpdateIn? || m.UnsubscribeIn? || m.TopicCloseIn?
      modifies this`subscriptions, this`topics, this`sent, this`invocations, this`closeRequested, this`errors
      ensures m.TopicUpdateIn? ==> Current() == AfterTopicUpdate(old(Current()), m.id, m.data, env.subscriber)
      ensures m.UnsubscribeIn? ==> Current() == AfterUnsubscribe(old(Current()), m.id, env.hookThrows)
      ensures m.TopicCloseIn? ==> Current() == AfterTopicClose(old(Current()), m.id, env.subscriber)
    {
      var threw;
      match m {
        case TopicUpdateIn(id, data) => threw := OnTopicUpdate(id, data, env.subscriber);
        case UnsubscribeIn(id) => threw := OnUnsubscribe(id, env.hookThrows);
        case TopicCloseIn(id) => threw := OnTopicClose(id, env.subscriber);
      }
      if threw {
        SendNodeError(MessageProcessingError);
      }
    }

    /** The variable and welcome cases of the switch, and the two ways a
        frame is refused. */
    method DispatchSession(m: Inbound, env: Reactions)
      requires m.VarSetIn? || m.VarUnsetIn? || m.WelcomeIn? || m.UnknownType? || m.NoPayload?
      modifies this`peerVars, this`handshake, this`sent, this`closeRequested, this`errors
      ensures m.VarSetIn? ==> Current() == old(Current()).(peerVars := old(peerVars)[m.id := m.data])
      ensures m.VarUnsetIn? ==> Current() == old(Current()).(peerVars := old(peerVars) - {m.id})
      ensures m.WelcomeIn? ==> Current() == AfterWelcome(old(Current()), m.version, m.data)
      ensures m.UnknownType? ==> Current() == NodeErrorAfter(old(Current()), UnknownMessageType)
      ensures m.NoPayload? ==> Current() == NodeErrorAfter(old(Current()), MessageProcessingError)
      ensures m == UnknownType ==> sent == old(sent) + [NodeErrorFrame(UnknownMessageType)] && closeRequested
      ensures m == NoPayload ==> sent == old(sent) + [NodeErrorFrame(MessageProcessingError)] && closeRequested
    {
      match m
      case VarSetIn(id, data) => OnVarSet(id, data);
      case VarUnsetIn(id) => OnVarUnset(id);
      case WelcomeIn(version, data) =>
        var threw := OnWelcome(version, data);
        if threw {
          SendNodeError(MessageProcessingError);
        }
      case UnknownType => SendNodeError(UnknownMessageType);
      case NoPayload => SendNodeError(MessageProcessingError);
    }

    /** The three answer cases of the switch. */
    method DispatchAnswer(m: Inbound, env: Reactions)
      requires Valid()
      requires m.ResultIn? || m.ExceptionIn? || m.ExecutionErrorIn?
      modifies this`requests, this`settlements, this`errors
      ensures Valid()
      ensures Current() == Handle(m, env, methods, methodOrder, old(Current()))
      ensures var a := Answer(m);
        && requests == (if a.Some? then old(requests) - {a.value.id} else old(requests))
        && settlements == old(settlements) + (if a.Some? && a.value.id in old(requests) then [a.value] else [])
    {
      match m
      case ResultIn(id, data) => OnResult(id, data);
      case ExceptionIn(id, data) => OnException(id, data);
      case ExecutionErrorIn(id, data) => OnExecuteError(id, data);
    }
  }

  /** Appending one rejection per pending request to a log of settlements
      that never mentions a pending id keeps every id settled once. */
  lemma AppendRejections(prev: seq<Settlement>, log: seq<Settlement>, ids: set<string>, bound: nat)
    requires forall i | 0 <= i < |prev| :: IssuedBelow(prev[i].id, bound) && prev[i].id !in ids
    requires forall i, j | 0 <= i < j < |prev| :: prev[i].id != prev[j].id
    requires forall id | id in ids :: IssuedBelow(id, bound)
    requires |log| == |ids|
    requires forall i | 0 <= i < |log| :: log[i].id in ids
    requires forall id | id in ids :: exists i | 0 <= i < |log| :: log[i].id == id
    requires forall i, j | 0 <= i < j < |log| :: log[i].id != log[j].id
    requires forall i | 0 <= i < |log| :: log[i].outcome == Rejected(DisconnectException())
    ensures var all := prev + log;
      && all[..|prev|] == prev
      && (forall i | 0 <= i < |all| :: IssuedBelow(all[i].id, bound))
      && (forall i, j | 0 <= i < j < |all| :: all[i].id != all[j].id)
      && (forall i | |prev| <= i < |all| ::
            all[i].id in ids && all[i].outcome == Rejected(DisconnectException()))
      && (forall id | id in ids :: exists i | |prev| <= i < |all| :: all[i].id == id)
  {
    var all := prev + log;
    assert all[..|prev|] == prev;
    assert forall i | |prev| <= i < |all| :: all[i] == log[i - |prev|];
    forall id | id in ids
      ensures exists i | |prev| <= i < |all| :: all[i].id == id
    {
      var k :| 0 <= k < |log| && log[k].id == id;
      assert all[|prev| + k] == log[k];
    }
  }

  /** The `for (n in #requests) #requests[n].err(...)` loop of #cleanup: one
      disconnect rejection per pending id. */
  method RejectAll(ids: set<string>) returns (log: seq<Settlement>)
    ensures |log| == |ids|
    ensures forall i | 0 <= i < |log| :: log[i].id in ids
    ensures forall id | id in ids :: exists i | 0 <= i < |log| :: log[i].id == id
    ensures forall i, j | 0 <= i < j < |log| :: log[i].id != log[j].id
    ensures forall i | 0 <= i < |log| :: log[i].outcome == Rejected(DisconnectException())
  {
    log := [];
    var pending := ids;
    while pending != {}
      invariant pending <= ids
      invariant |log| + |pending| == |ids|
      invariant forall i | 0 <= i < |log| :: log[i].id in ids && log[i].id !in pending
      invariant forall id | id in ids && id !in pending :: exists i | 0 <= i < |log| :: log[i].id == id
      invariant forall i, j | 0 <= i < j < |log| :: log[i].id != log[j].id
      invariant forall i | 0 <= i < |log| :: log[i].outcome == Rejected(DisconnectException())
      decreases pending
    {
      var id :| id in pending;
      ghost var before := log;
      log := log + [Settlement(id, Rejected(DisconnectException()))];
      pending := pending - {id};
      forall x | x in ids && x !in pending
        ensures exists i | 0 <= i < |log| :: log[i].id == x
      {
        if x == id {
          assert log[|log| - 1].id == x;
        } else {
          var k :| 0 <= k < |before| && before[k].id == x;
          assert log[k] == before[k];
        }
      }
    }
  }
}
