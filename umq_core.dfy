/** The newer C++ peer core (src/umq/peer.cpp): text frames
    `['A' count ':'] cmd id ':' payload` with base-36 ids, tables of pending
    promises keyed by id, and a map of attributes set by the other side.

    Every promise is a one-shot slot: resolving or rejecting it unbinds it,
    and calling an unbound promise does nothing.  A slot is "armed" while its
    promise is bound; what the promise delivers is logged in `events`, and
    every frame the core writes is logged in `sent`. */
module UmqCore {
  import opened Common
  import opened Base36

  /** Protocol version carried as the id of the hello and welcome frames. */
  const Version: ID := 1

  const ErrRejected: ID := 1
  const ErrCallbackNotFound: ID := 2
  const ErrProtocolError: ID := 3
  const ErrUnsupportedCommand: ID := 4
  const ErrUnsupportedVersion: ID := 5
  const ErrNoRpc: ID := 6
  const ErrRpcRouteError: ID := 7
  const ErrRpcTemporaryUnavailable: ID := 8

  /** Text of the fatal error sent when an id is not base 36. */
  const InvalidIdText := "Invalid message ID format"

  /** Peer::errorMessage: only codes 1 to 5 have a text of their own. */
  function ErrorMessage(code: ID): string
  {
    if code == ErrCallbackNotFound then "Callback not found"
    else if code == ErrProtocolError then "Protocol format error"
    else if code == ErrRejected then "Client rejected"
    else if code == ErrUnsupportedCommand then "Unsupported command"
    else if code == ErrUnsupportedVersion then "Unsupported version"
    else "Unknown error code"
  }

  lemma ErrorMessageKnown(code: ID)
    ensures ErrorMessage(code) != "Unknown error code" <==> ErrRejected <= code <= ErrUnsupportedVersion
  {
  }

  // ---------------------------------------------------------------------
  // Error texts

  /** The body of a fatal-error frame: the code in decimal, a space, the text. */
  function FatalText(code: ID, message: string): string
  {
    NatToDecimal(code) + " " + message
  }

  /** Error::get_code: `strtoul` narrowed to `unsigned int` (a negative
      number wraps modulo 2^32, as the unsigned conversion does). */
  function GetCode(msg: string): ID
  {
    StrToL(msg).value % Modulus
  }

  /** Error::get_message: the text after the number and one space, or the
      whole message when the number is not followed by a space. */
  function GetMessage(msg: string): string
  {
    var rest := StrToL(msg).rest;
    if |rest| > 0 && rest[0] == ' ' then rest[1..] else msg
  }

  /** `strtoul` stops at the space after the code of a fatal text. */
  lemma ParseFatalText(code: ID, message: string)
    ensures StrToL(FatalText(code, message)) == Parsed(code, " " + message)
  {
    StrToLOfNat(code, message);
  }

  /** The code and the text of an error are read back from its fatal text. */
  lemma ErrorRoundTrip(code: ID, message: string)
    ensures GetCode(FatalText(code, message)) == code
    ensures GetMessage(FatalText(code, message)) == message
  {
    ParseFatalText(code, message);
  }

  // ---------------------------------------------------------------------
  // Frames

  /** What send_fn writes before the body: an attachment prefix when there
      are attachments (their count narrowed to an ID), the command, the id. */
  function Header(cmd: char, id: ID, count: nat): string
  {
    (if count > 0 then "A" + Digits(count % Modulus) + ":" else "") + [cmd] + Digits(id) + ":"
  }

  function FrameText(cmd: char, id: ID, body: string, count: nat): string
  {
    Header(cmd, id, count) + body
  }

  /** send_fatal_error: an 'F' frame with id 0 and no attachments. */
  function FatalFrame(code: ID, message: string): string
  {
    FrameText('F', 0, FatalText(code, message), 0)
  }

  /** The outcome of reading a text frame up to its dispatch.  `slots` is the
      number of attachment slots its 'A' prefixes queued on the way. */
  datatype Reading =
    | Read(slots: nat, cmd: char, id: ID, payload: string)
    | Malformed(slots: nat)   // no ':' or an empty command part
    | BadId(slots: nat)       // fromBase36 threw InvalidIDFormat

  /** The part of a frame before its first ':' (the command character and
      the id), and the text after it. */
  datatype Head = NoCommand | UnreadableId | Head(cmd: char, id: ID, rest: string)

  /** Cut at the first ':' and read the id after the command character; a
      missing ':' or an empty command part yields no command. */
  function CutHead(data: string): (h: Head)
    ensures h.Head? ==> |h.rest| < |data|
  {
    match Find(data, ':')
    case None => NoCommand
    case Some(sep) =>
      if sep == 0 then NoCommand
      else match ParseId(data[1..sep])
        case None => UnreadableId
        case Some(id) => Head(data[0], id, data[sep + 1..])
  }

  /** process_text_message up to the command switch: cut the head off, and
      for an 'A' prefix queue `id` attachment slots and go on with the rest. */
  function ReadFrame(data: string): Reading
    decreases |data| + 1, 0
  {
    ReadAfter(CutHead(data))
  }

  /** What follows once the head is cut off. */
  function ReadAfter(h: Head): Reading
    decreases if h.Head? then |h.rest| + 1 else 0, 1
  {
    match h
    case NoCommand => Malformed(0)
    case UnreadableId => BadId(0)
    case Head(cmd, id, rest) =>
      if cmd == 'A' then
        var inner := ReadFrame(rest);
        inner.(slots := inner.slots + id)
      else Read(0, cmd, id, rest)
  }

  /** No ':', or an empty command part, is malformed; a frame read through
      to the switch has a command other than 'A' and a shorter payload. */
  lemma {:induction false} ReadFrameShape(data: string)
    ensures ':' !in data ==> ReadFrame(data) == Malformed(0)
    ensures |data| > 0 && data[0] == ':' ==> ReadFrame(data) == Malformed(0)
    ensures ReadFrame(data).Read? ==>
              ReadFrame(data).cmd != 'A' && |ReadFrame(data).payload| < |data|
    decreases |data|
  {
    match CutHead(data)
    case NoCommand =>
    case UnreadableId =>
    case Head(cmd, id, rest) =>
      if cmd == 'A' {
        ReadFrameShape(rest);
      }
  }

  /** A head with no ':' whose text after the command is a readable id is
      cut off at the ':' that follows it. */
  lemma CutAtHead(head: string, id: ID, body: string)
    requires |head| > 0 && ':' !in head && ParseId(head[1..]) == Some(id)
    ensures CutHead(head + [':'] + body) == Head(head[0], id, body)
  {
    var s := head + [':'] + body;
    FindAt(head, ':', body);
    assert s[1..|head|] == head[1..];
    assert s[|head| + 1..] == body;
  }

  /** send_fn's head `cmd id ':'` is cut back into the command and the id. */
  lemma HeadLayout(cmd: char, id: ID, body: string)
    requires cmd != ':'
    ensures CutHead([cmd] + Digits(id) + ":" + body) == Head(cmd, id, body)
  {
    var head := [cmd] + Digits(id);
    assert ':' !in head by {
      assert forall i | 0 <= i < |Digits(id)| :: IsBase36Char(Digits(id)[i]);
    }
    assert head[1..] == Digits(id);
    Base36RoundTrip(id);
    CutAtHead(head, id, body);
    assert [cmd] + Digits(id) + ":" + body == head + [':'] + body;
  }

  /** ReadFrame over a head other than 'A' reads it through to the switch. */
  lemma ReadPlainStep(s: string, cmd: char, id: ID, body: string)
    requires cmd != 'A' && CutHead(s) == Head(cmd, id, body)
    ensures ReadFrame(s) == Read(0, cmd, id, body)
  {
  }

  /** A frame without attachments is read back as written. */
  lemma ReadPlainFrame(cmd: char, id: ID, body: string)
    requires cmd != 'A' && cmd != ':'
    ensures ReadFrame(FrameText(cmd, id, body, 0)) == Read(0, cmd, id, body)
  {
    PlainHead(cmd, id, body);
    ReadPlainStep(FrameText(cmd, id, body, 0), cmd, id, body);
  }

  /** The head of a frame without attachments. */
  lemma PlainHead(cmd: char, id: ID, body: string)
    requires cmd != ':'
    ensures CutHead(FrameText(cmd, id, body, 0)) == Head(cmd, id, body)
  {
    HeadLayout(cmd, id, body);
    PlainText(cmd, id, body);
  }

  /** Without attachments send_fn writes only the command, the id and ':'. */
  lemma PlainText(cmd: char, id: ID, body: string)
    ensures FrameText(cmd, id, body, 0) == [cmd] + Digits(id) + ":" + body
  {
    assert Header(cmd, id, 0) == [cmd] + Digits(id) + ":";
  }

  /** The head of an 'A' prefix written by send_fn. */
  lemma PrefixHead(k: ID, inner: string)
    ensures CutHead("A" + Digits(k) + ":" + inner) == Head('A', k, inner)
  {
    var s := "A" + Digits(k) + ":" + inner;
    HeadLayout('A', k, inner);
    assert s == ['A'] + Digits(k) + ":" + inner;
  }

  /** ReadFrame over an 'A' head adds the count to what the rest reads. */
  lemma ReadPrefixStep(s: string, k: ID, inner: string)
    requires CutHead(s) == Head('A', k, inner)
    ensures ReadFrame(s) == ReadFrame(inner).(slots := ReadFrame(inner).slots + k)
  {
  }

  /** An 'A' prefix adds its count to the slots of the frame after it. */
  lemma ReadPrefixed(k: ID, inner: string)
    ensures ReadFrame("A" + Digits(k) + ":" + inner)
         == ReadFrame(inner).(slots := ReadFrame(inner).slots + k)
  {
    PrefixHead(k, inner);
    ReadPrefixStep("A" + Digits(k) + ":" + inner, k, inner);
  }

  /** process_text_message reads back what send_fn writes: the command, the
      id and the body, with one attachment slot per attachment announced. */
  lemma FrameRoundTrip(cmd: char, id: ID, body: string, count: nat)
    requires cmd != 'A' && cmd != ':'
    ensures ReadFrame(FrameText(cmd, id, body, count)) == Read(count % Modulus, cmd, id, body)
  {
    ReadPlainFrame(cmd, id, body);
    if count > 0 {
      var inner := FrameText(cmd, id, body, 0);
      PrefixedText(cmd, id, body, count);
      PrefixHead(count % Modulus, inner);
      ReadPrefixStep(FrameText(cmd, id, body, count), count % Modulus, inner);
    }
  }

  /** With attachments, send_fn writes the 'A' prefix in front of the plain frame. */
  lemma PrefixedText(cmd: char, id: ID, body: string, count: nat)
    requires count > 0
    ensures FrameText(cmd, id, body, count)
         == "A" + Digits(count % Modulus) + ":" + FrameText(cmd, id, body, 0)
  {
  }

  /** A fatal-error frame reaches the other side as an 'F' command whose
      error yields back the code and the text. */
  lemma FatalRoundTrip(code: ID, message: string)
    ensures ReadFrame(FatalFrame(code, message)) == Read(0, 'F', 0, FatalText(code, message))
    ensures GetCode(FatalText(code, message)) == code
    ensures GetMessage(FatalText(code, message)) == message
  {
    FrameRoundTrip('F', 0, FatalText(code, message), 0);
    ErrorRoundTrip(code, message);
  }

  /** `find` then two `substr`s: the text before and after the first `c`. */
  function Cut(s: string, c: char): (r: Option<(string, string)>)
    ensures r.None? <==> c !in s
    ensures r.Some? ==> r.value.0 + [c] + r.value.1 == s && c !in r.value.0
  {
    match Find(s, c)
    case None => None
    case Some(p) =>
      assert s == s[..p] + [c] + s[p + 1..];
      Some((s[..p], s[p + 1..]))
  }

  lemma CutAt(a: string, c: char, b: string)
    requires c !in a
    ensures Cut(a + [c] + b, c) == Some((a, b))
  {
    FindAt(a, c, b);
    var s := a + [c] + b;
    assert s[..|a|] == a && s[|a| + 1..] == b;
  }

  /** set_attribute's frame is read by process_attribute_set as the same
      name and value, provided the name has no '='. */
  lemma AttributeRoundTrip(name: string, value: string, count: nat)
    requires '=' !in name
    ensures ReadFrame(FrameText('S', 0, name + "=" + value, count))
         == Read(count % Modulus, 'S', 0, name + "=" + value)
    ensures Cut(name + "=" + value, '=') == Some((name, value))
  {
    FrameRoundTrip('S', 0, name + "=" + value, count);
    CutAt(name, '=', value);
  }

  // ---------------------------------------------------------------------
  // Finding: Peer::rpc_callback_call writes its frame with the command of a
  // plain RPC call ('C'), so the other side hands it to its RPC server and
  // never to process_callback_call, which only the 'B' command reaches.

  /** The payload of a callback call: the callback id, ':', the message. */
  function CallbackPayload(callback: ID, message: string): string
  {
    Digits(callback) + ":" + message
  }

  /** The frame rpc_callback_call writes, as written. */
  function CallbackCallFrameAsWritten(id: ID, callback: ID, message: string, count: nat): string
  {
    FrameText('C', id, CallbackPayload(callback, message), count)
  }

  /** The frame it evidently means to write: the callback-call command. */
  function CallbackCallFrame(id: ID, callback: ID, message: string, count: nat): string
  {
    FrameText('B', id, CallbackPayload(callback, message), count)
  }

  /** As written, the receiver dispatches the frame as an RPC call. */
  lemma CallbackCallMisrouted(id: ID, callback: ID, message: string, count: nat)
    ensures ReadFrame(CallbackCallFrameAsWritten(id, callback, message, count)).Read?
    ensures ReadFrame(CallbackCallFrameAsWritten(id, callback, message, count)).cmd == 'C'
  {
    FrameRoundTrip('C', id, CallbackPayload(callback, message), count);
  }

  /** With the 'B' command the receiver reads the call id, and
      process_callback_call cuts the payload back into the callback id and
      the message. */
  lemma CallbackCallRoundTrip(id: ID, callback: ID, message: string, count: nat)
    ensures ReadFrame(CallbackCallFrame(id, callback, message, count))
         == Read(count % Modulus, 'B', id, CallbackPayload(callback, message))
    ensures Cut(CallbackPayload(callback, message), ':') == Some((Digits(callback), message))
    ensures ParseId(Digits(callback)) == Some(callback)
  {
    FrameRoundTrip('B', id, CallbackPayload(callback, message), count);
    assert ':' !in Digits(callback) by {
      assert forall i | 0 <= i < |Digits(callback)| :: IsBase36Char(Digits(callback)[i]);
    }
    CutAt(Digits(callback), ':', message);
    Base36RoundTrip(callback);
  }

  // ---------------------------------------------------------------------
  // The core

  /** The four single promises of the core. */
  datatype Slot = HelloSlot | WelcomeSlot | RpcSlot | EndSlot

  /** The four promise tables keyed by id. */
  datatype Table = RpcTable | CallbackTable | SubscriptionTable | TopicTable

  datatype Attribute = Attribute(text: string, attachments: nat)

  /** What a promise delivered, or that it was broken (dropped unresolved). */
  datatype Event =
    | SlotResolved(slot: Slot, id: ID, text: string, attachments: nat)
    | SlotRejected(slot: Slot, error: string)
    | SlotDropped(slot: Slot)
    | RpcAnswered(id: ID, text: string, attachments: nat)
    | RpcFailed(id: ID, error: string)
    | CallbackCalled(callback: ID, call: ID, text: string, attachments: nat)
    | Delivered(subscription: ID, text: string, attachments: nat)
    | SubscriptionClosed(subscription: ID)
    | TopicReleased(topic: ID)
    | Dropped(table: Table, id: ID)
    | AttachmentRejected(error: string)

  /** The event `e` if `slot` was armed, nothing otherwise. */
  function IfArmed(slot: Slot, armed: set<Slot>, e: Event): seq<Event>
  {
    if slot in armed then [e] else []
  }

  /** pick_promise: the promise stored under `id`, taken out of its table;
      a missing id yields an unbound promise. */
  method PickPromise(table: set<ID>, id: ID) returns (bound: bool, rest: set<ID>)
    ensures bound <==> id in table
    ensures id !in rest && rest + (if bound then {id} else {}) == table
  {
    if id !in table {
      return false, table;
    }
    bound := true;
    rest := table - {id};
  }

  // ---------------------------------------------------------------------
  // What an inbound frame does, on values

  /** The part of the core an inbound frame can change, as one value. */
  datatype State = State(armed: set<Slot>, pendingRpc: set<ID>, pendingCallbacks: set<ID>,
                         subscriptions: set<ID>, topics: set<ID>, attributes: map<string, Attribute>,
                         waiting: nat, sent: seq<string>, events: seq<Event>)

  function Fatal(s: State, code: ID, message: string): State
  {
    s.(sent := s.sent + [FatalFrame(code, message)])
  }

  function Resolve(s: State, slot: Slot, id: ID, text: string, att: nat): State
  {
    s.(armed := s.armed - {slot}, events := s.events + IfArmed(slot, s.armed, SlotResolved(slot, id, text, att)))
  }

  function Reject(s: State, slot: Slot, error: string): State
  {
    s.(armed := s.armed - {slot}, events := s.events + IfArmed(slot, s.armed, SlotRejected(slot, error)))
  }

  /** Attachment error, fatal error, hello, welcome and RPC call. */
  function AfterSession(s: State, cmd: char, id: ID, payload: string, att: nat): State
  {
    if cmd == '-' then
      if s.waiting > 0 then s.(waiting := s.waiting - 1, events := s.events + [AttachmentRejected(payload)]) else s
    else if cmd == 'F' then
      Reject(Reject(Reject(s, HelloSlot, payload), WelcomeSlot, payload), EndSlot, payload)
    else if cmd == 'H' || cmd == 'W' then
      if id < Version then Fatal(s, ErrUnsupportedVersion, ErrorMessage(ErrUnsupportedVersion))
      else Resolve(s, if cmd == 'H' then HelloSlot else WelcomeSlot, id, payload, att)
    else
      Resolve(s, RpcSlot, id, payload, att)
  }

  /** pick_promise on the RPC table, then the result ('R') or the exception. */
  function AfterRpcAnswer(s: State, cmd: char, id: ID, payload: string, att: nat): State
  {
    s.(pendingRpc := s.pendingRpc - {id},
       events := s.events + (if id !in s.pendingRpc then []
                             else if cmd == 'R' then [RpcAnswered(id, payload, att)]
                             else [RpcFailed(id, payload)]))
  }

  /** process_callback_call. */
  function AfterCallbackCall(s: State, id: ID, payload: string, att: nat): State
  {
    match Cut(payload, ':')
    case None => Fatal(s, ErrProtocolError, ErrorMessage(ErrProtocolError))
    case Some((callbackText, text)) =>
      (match ParseId(callbackText)
       case None => Fatal(s, ErrProtocolError, InvalidIdText)
       case Some(callback) =>
         if callback in s.pendingCallbacks then
           s.(pendingCallbacks := s.pendingCallbacks - {callback},
              events := s.events + [CallbackCalled(callback, id, text, att)])
         else Fatal(s, ErrCallbackNotFound, ErrorMessage(ErrCallbackNotFound)))
  }

  /** process_topic_update; `rearmed` as for process_text_message. */
  function AfterTopicUpdate(s: State, id: ID, payload: string, att: nat, rearmed: bool): State
  {
    var kept := id in s.subscriptions && rearmed;
    s.(subscriptions := if kept then s.subscriptions else s.subscriptions - {id},
       sent := s.sent + (if kept then [] else [FrameText('U', id, "", 0)]),
       events := s.events + (if id in s.subscriptions then [Delivered(id, payload, att)] else []))
  }

  function AfterTopicClose(s: State, id: ID): State
  {
    s.(subscriptions := s.subscriptions - {id},
       events := s.events + (if id in s.subscriptions then [SubscriptionClosed(id)] else []))
  }

  function AfterUnsubscribe(s: State, id: ID): State
  {
    s.(topics := s.topics - {id},
       events := s.events + (if id in s.topics then [TopicReleased(id)] else []))
  }

  /** process_attribute_set. */
  function AfterAttributeSet(s: State, payload: string, att: nat): State
  {
    match Cut(payload, '=')
    case None => Fatal(s, ErrProtocolError, ErrorMessage(ErrProtocolError))
    case Some((name, value)) => s.(attributes := s.attributes[name := Attribute(value, att)])
  }

  /** The command switch of process_text_message. */
  function Step(s: State, cmd: char, id: ID, payload: string, att: nat, rearmed: bool): State
  {
    match cmd
    case '-' | 'F' | 'H' | 'W' | 'C' => AfterSession(s, cmd, id, payload, att)
    case 'R' | 'E' => AfterRpcAnswer(s, cmd, id, payload, att)
    case 'B' => AfterCallbackCall(s, id, payload, att)
    case 'T' => AfterTopicUpdate(s, id, payload, att, rearmed)
    case 'D' => AfterTopicClose(s, id)
    case 'U' => AfterUnsubscribe(s, id)
    case 'S' => AfterAttributeSet(s, payload, att)
    case 'X' => s.(attributes := s.attributes - {payload})
    case _ => Fatal(s, ErrUnsupportedCommand, ErrorMessage(ErrUnsupportedCommand))
  }

  /** process_text_message on a state. */
  function Process(s: State, data: string, rearmed: bool): State
  {
    Dispatched(s, ReadFrame(data), rearmed)
  }

  /** What follows the reading of a frame: the attachment slots of its 'A'
      prefixes are queued, then the frame is refused or dispatched. */
  function Dispatched(s: State, r: Reading, rearmed: bool): State
  {
    var t := s.(waiting := s.waiting + r.slots);
    match r
    case Malformed(_) => Fatal(t, ErrProtocolError, ErrorMessage(ErrProtocolError))
    case BadId(_) => Fatal(t, ErrProtocolError, InvalidIdText)
    case Read(slots, cmd, id, payload) => Step(t, cmd, id, payload, slots, rearmed)
  }

  /** `r` follows `s` as an inbound frame may leave it: no slot armed and no
      promise added to a table, events only appended, at most one frame sent. */
  ghost predicate Advances(s: State, r: State)
  {
    && r.armed <= s.armed && r.pendingRpc <= s.pendingRpc && r.pendingCallbacks <= s.pendingCallbacks
    && r.subscriptions <= s.subscriptions && r.topics <= s.topics
    && s.events <= r.events && s.sent <= r.sent && |r.sent| <= |s.sent| + 1
  }

  lemma SessionAdvances(s: State, cmd: char, id: ID, payload: string, att: nat)
    ensures Advances(s, AfterSession(s, cmd, id, payload, att))
  {
  }

  lemma CallbackCallAdvances(s: State, id: ID, payload: string, att: nat)
    ensures Advances(s, AfterCallbackCall(s, id, payload, att))
  {
  }

  lemma AttributeSetAdvances(s: State, payload: string, att: nat)
    ensures Advances(s, AfterAttributeSet(s, payload, att))
  {
  }

  lemma {:induction false} StepAdvances(s: State, cmd: char, id: ID, payload: string, att: nat, rearmed: bool)
    ensures Advances(s, Step(s, cmd, id, payload, att, rearmed))
  {
    match cmd
    case '-' | 'F' | 'H' | 'W' | 'C' => SessionAdvances(s, cmd, id, payload, att);
    case 'B' => CallbackCallAdvances(s, id, payload, att);
    case 'S' => AttributeSetAdvances(s, payload, att);
    case _ =>
  }

  lemma FatalAdvances(s: State, code: ID, message: string)
    ensures Advances(s, Fatal(s, code, message))
  {
  }

  lemma {:induction false} DispatchedAdvances(s: State, r: Reading, rearmed: bool)
    ensures Advances(s, Dispatched(s, r, rearmed))
  {
    var t := s.(waiting := s.waiting + r.slots);
    var next := Dispatched(s, r, rearmed);
    match r {
      case Malformed(_) => FatalAdvances(t, ErrProtocolError, ErrorMessage(ErrProtocolError));
      case BadId(_) => FatalAdvances(t, ErrProtocolError, InvalidIdText);
      case Read(slots, cmd, id, payload) => StepAdvances(t, cmd, id, payload, slots, rearmed);
    }
    WaitingAside(s, t, next);
  }

  /** Advances does not look at the attachment counter. */
  lemma WaitingAside(s: State, t: State, r: State)
    requires t == s.(waiting := t.waiting) && Advances(t, r)
    ensures Advances(s, r)
  {
  }

  /** Frames from the other side only ever consume promises, never create
      them or arm a slot; what was delivered and sent stays, and each frame
      is answered with at most one frame. */
  lemma {:induction false} ProcessAdvances(s: State, data: string, rearmed: bool)
    ensures Advances(s, Process(s, data, rearmed))
  {
    DispatchedAdvances(s, ReadFrame(data), rearmed);
  }

  lemma DispatchedTopicUpdate(s: State, id: ID, data: string, att: nat, rearmed: bool)
    ensures Dispatched(s, Read(att, 'T', id, data), rearmed)
         == AfterTopicUpdate(s.(waiting := s.waiting + att), id, data, att, rearmed)
  {
  }

  lemma DispatchedFatal(s: State, text: string, rearmed: bool)
    ensures var r := Dispatched(s, Read(0, 'F', 0, text), rearmed);
      && r.armed == s.armed - {HelloSlot, WelcomeSlot, EndSlot}
      && r.sent == s.sent
      && r.events == s.events + IfArmed(HelloSlot, s.armed, SlotRejected(HelloSlot, text))
                              + IfArmed(WelcomeSlot, s.armed, SlotRejected(WelcomeSlot, text))
                              + IfArmed(EndSlot, s.armed, SlotRejected(EndSlot, text))
  {
  }

  lemma DispatchedAttributeSet(s: State, payload: string, att: nat, rearmed: bool, name: string, value: string)
    requires Cut(payload, '=') == Some((name, value))
    ensures Dispatched(s, Read(att, 'S', 0, payload), rearmed)
         == s.(attributes := s.attributes[name := Attribute(value, att)], waiting := s.waiting + att)
  {
  }

  /** A pending call is answered once: the result or exception for its id
      takes it out, and a second one for the same id has no effect. */
  lemma AnsweredOnce(s: State, first: char, second: char, id: ID, payload: string, att: nat,
                     again: string, againAtt: nat, rearmed: bool)
    requires first in "RE" && second in "RE" && id in s.pendingRpc
    ensures var r := Step(s, first, id, payload, att, rearmed);
      && id !in r.pendingRpc
      && r.events == s.events + [if first == 'R' then RpcAnswered(id, payload, att) else RpcFailed(id, payload)]
      && Step(r, second, id, again, againAtt, rearmed) == r
  {
  }

  /** A frame without a ':' is refused with the protocol error and
      changes nothing else. */
  lemma ProcessMalformed(s: State, data: string, rearmed: bool)
    requires ':' !in data
    ensures Process(s, data, rearmed) == Fatal(s, ErrProtocolError, ErrorMessage(ErrProtocolError))
  {
    ReadFrameShape(data);
  }

  /** The result frame rpc_result writes resolves the caller's pending call
      with the response and the attachments announced. */
  lemma ResultArrives(s: State, id: ID, response: string, count: nat, rearmed: bool)
    requires id in s.pendingRpc
    ensures Process(s, FrameText('R', id, response, count), rearmed)
         == s.(pendingRpc := s.pendingRpc - {id}, waiting := s.waiting + count % Modulus,
               events := s.events + [RpcAnswered(id, response, count % Modulus)])
  {
    FrameRoundTrip('R', id, response, count);
  }

  /** The topic update publish writes reaches the subscriber; the
      subscription stays only if the subscriber asked for the next one. */
  lemma TopicUpdateArrives(s: State, id: ID, data: string, count: nat, rearmed: bool)
    requires id in s.subscriptions
    ensures var r := Process(s, FrameText('T', id, data, count), rearmed);
      && r.events == s.events + [Delivered(id, data, count % Modulus)]
      && r.subscriptions == (if rearmed then s.subscriptions else s.subscriptions - {id})
      && r.sent == s.sent + (if rearmed then [] else [FrameText('U', id, "", 0)])
  {
    FrameRoundTrip('T', id, data, count);
    DispatchedTopicUpdate(s, id, data, count % Modulus, rearmed);
  }

  /** The fatal error frame rejects the hello, welcome and end-of-session
      promises of the other side with the error's text. */
  lemma FatalArrives(s: State, code: ID, message: string, rearmed: bool)
    ensures var r := Process(s, FatalFrame(code, message), rearmed);
      && r.armed == s.armed - {HelloSlot, WelcomeSlot, EndSlot}
      && r.sent == s.sent
      && r.events == s.events + IfArmed(HelloSlot, s.armed, SlotRejected(HelloSlot, FatalText(code, message)))
                              + IfArmed(WelcomeSlot, s.armed, SlotRejected(WelcomeSlot, FatalText(code, message)))
                              + IfArmed(EndSlot, s.armed, SlotRejected(EndSlot, FatalText(code, message)))
  {
    FrameRoundTrip('F', 0, FatalText(code, message), 0);
    DispatchedFatal(s, FatalText(code, message), rearmed);
  }

  /** The frame set_attribute writes stores the value and the attachments
      under the name on the other side. */
  lemma AttributeArrives(s: State, name: string, value: string, count: nat, rearmed: bool)
    requires '=' !in name
    ensures Process(s, FrameText('S', 0, name + "=" + value, count), rearmed)
         == s.(attributes := s.attributes[name := Attribute(value, count % Modulus)],
               waiting := s.waiting + count % Modulus)
  {
    AttributeRoundTrip(name, value, count);
    DispatchedAttributeSet(s, name + "=" + value, count % Modulus, rearmed, name, value);
  }

  /** As written, a callback call never reaches the callback: the callback
      table is untouched and the RPC server's slot receives the frame. */
  lemma CallbackCallAsWrittenArrives(s: State, id: ID, callback: ID, message: string, count: nat, rearmed: bool)
    ensures var r := Process(s, CallbackCallFrameAsWritten(id, callback, message, count), rearmed);
      && r.pendingCallbacks == s.pendingCallbacks
      && r.events == s.events + IfArmed(RpcSlot, s.armed,
                                        SlotResolved(RpcSlot, id, CallbackPayload(callback, message), count % Modulus))
  {
    FrameRoundTrip('C', id, CallbackPayload(callback, message), count);
  }

  /** With the callback-call command, the frame calls the pending callback
      once with the call id, the message and the attachments. */
  lemma CallbackCallArrives(s: State, id: ID, callback: ID, message: string, count: nat, rearmed: bool)
    requires callback in s.pendingCallbacks
    ensures Process(s, CallbackCallFrame(id, callback, message, count), rearmed)
         == s.(pendingCallbacks := s.pendingCallbacks - {callback}, waiting := s.waiting + count % Modulus,
               events := s.events + [CallbackCalled(callback, id, message, count % Modulus)])
  {
    CallbackCallRoundTrip(id, callback, message, count);
  }

  class Core {
    var idGen: ID
    var armed: set<Slot>
    var pendingRpc: set<ID>
    var pendingCallbacks: set<ID>
    var subscriptions: set<ID>
    var topics: set<ID>
    var attributes: map<string, Attribute>
    /** Length of `_waiting_attachments`. */
    var waiting: nat
    var sent: seq<string>
    var events: seq<Event>

    /** The part of the core an inbound frame can change. */
    function Current(): State
      reads this`armed, this`pendingRpc, this`pendingCallbacks, this`subscriptions,
            this`topics, this`attributes, this`waiting, this`sent, this`events
    {
      State(armed, pendingRpc, pendingCallbacks, subscriptions, topics, attributes, waiting, sent, events)
    }

    /** Peer::start_server: a fresh core waiting for the client's hello. */
    constructor StartServer()
      ensures idGen == 1 && armed == {HelloSlot} && waiting == 0
      ensures pendingRpc == {} && pendingCallbacks == {} && subscriptions == {} && topics == {}
      ensures attributes == map[] && sent == [] && events == []
    {
      idGen := 1;
      armed := {HelloSlot};
      pendingRpc, pendingCallbacks, subscriptions, topics := {}, {}, {}, {};
      attributes := map[];
      waiting := 0;
      sent, events := [], [];
    }

    /** Peer::start_client: a fresh core that sends its hello, carrying the
        protocol version as id, and waits for the welcome. */
    constructor StartClient(message: string, count: nat)
      ensures idGen == 1 && armed == {WelcomeSlot} && waiting == 0
      ensures pendingRpc == {} && pendingCallbacks == {} && subscriptions == {} && topics == {}
      ensures attributes == map[] && events == []
      ensures sent == [FrameText('H', Version, message, count)]
    {
      idGen := 1;
      armed := {WelcomeSlot};
      pendingRpc, pendingCallbacks, subscriptions, topics := {}, {}, {}, {};
      attributes := map[];
      waiting := 0;
      sent, events := [FrameText('H', Version, message, count)], [];
    }

    /** send / send_fn: one text frame. */
    method Send(cmd: char, id: ID, body: string, count: nat)
      modifies this`sent
      ensures sent == old(sent) + [FrameText(cmd, id, body, count)]
    {
      sent := sent + [FrameText(cmd, id, body, count)];
    }

    /** send_fatal_error.  Its statement that would close the connection
        follows a `return` and is never reached, so only the frame goes out. */
    method SendFatalError(code: ID, message: string)
      modifies this`sent
      ensures sent == old(sent) + [FatalFrame(code, message)]
    {
      Send('F', 0, FatalText(code, message), 0);
    }

    /** Calling one of the single promises: it delivers only while armed. */
    method ResolveSlot(slot: Slot, id: ID, text: string, count: nat)
      modifies this`armed, this`events
      ensures armed == old(armed) - {slot}
      ensures events == old(events) + IfArmed(slot, old(armed), SlotResolved(slot, id, text, count))
    {
      if slot in armed {
        armed := armed - {slot};
        events := events + [SlotResolved(slot, id, text, count)];
      }
    }

    method RejectSlot(slot: Slot, error: string)
      modifies this`armed, this`events
      ensures armed == old(armed) - {slot}
      ensures events == old(events) + IfArmed(slot, old(armed), SlotRejected(slot, error))
    {
      if slot in armed {
        armed := armed - {slot};
        events := events + [SlotRejected(slot, error)];
      }
    }

    /** Move-assigning a new promise into a single slot breaks the old one. */
    method ArmSlot(slot: Slot)
      modifies this`armed, this`events
      ensures armed == old(armed) + {slot}
      ensures events == old(events) + IfArmed(slot, old(armed), SlotDropped(slot))
    {
      if slot in armed {
        events := events + [SlotDropped(slot)];
      }
      armed := armed + {slot};
    }

    /** Peer::rpc_server: wait for the next RPC call. */
    method RpcServer()
      modifies this`armed, this`events
      ensures armed == old(armed) + {RpcSlot}
      ensures events == old(events) + IfArmed(RpcSlot, old(armed), SlotDropped(RpcSlot))
    {
      ArmSlot(RpcSlot);
    }

    /** Peer::close_event: wait for the end of the session. */
    method CloseEvent()
      modifies this`armed, this`events
      ensures armed == old(armed) + {EndSlot}
      ensures events == old(events) + IfArmed(EndSlot, old(armed), SlotDropped(EndSlot))
    {
      ArmSlot(EndSlot);
    }

    /** Peer::accept_client: the welcome, with the version as id. */
    method AcceptClient(message: string, count: nat)
      modifies this`sent
      ensures sent == old(sent) + [FrameText('W', Version, message, count)]
    {
      Send('W', Version, message, count);
    }

    /** Peer::reject_client: fatal error 1 with the caller's text. */
    method RejectClient(message: string)
      modifies this`sent
      ensures sent == old(sent) + [FatalFrame(ErrRejected, message)]
    {
      SendFatalError(ErrRejected, message);
    }

    method RpcResult(id: ID, response: string, count: nat)
      modifies this`sent
      ensures sent == old(sent) + [FrameText('R', id, response, count)]
    {
      Send('R', id, response, count);
    }

    method RpcException(id: ID, message: string)
      modifies this`sent
      ensures sent == old(sent) + [FrameText('E', id, message, 0)]
    {
      Send('E', id, message, 0);
    }

    /** Peer::rpc_call: the next id (the counter wraps at 2^32), a promise
        stored under it, and the 'C' frame.  `emplace` keeps an entry
        already there, so the new promise is then broken. */
    method RpcCall(message: string, count: nat) returns (id: ID)
      modifies this`idGen, this`pendingRpc, this`events, this`sent
      ensures id == old(idGen) && idGen == (old(idGen) + 1) % Modulus
      ensures pendingRpc == old(pendingRpc) + {id}
      ensures events == old(events) + (if id in old(pendingRpc) then [Dropped(RpcTable, id)] else [])
      ensures sent == old(sent) + [FrameText('C', id, message, count)]
    {
      id := idGen;
      idGen := (idGen + 1) % Modulus;
      if id in pendingRpc {
        events := events + [Dropped(RpcTable, id)];
      }
      pendingRpc := pendingRpc + {id};
      Send('C', id, message, count);
    }

    /** Peer::rpc_callback_call as written: the call is sent with the 'C'
        command (see CallbackCallMisrouted). */
    method RpcCallbackCallAsWritten(callback: ID, message: string, count: nat) returns (id: ID)
      modifies this`idGen, this`pendingRpc, this`events, this`sent
      ensures id == old(idGen) && idGen == (old(idGen) + 1) % Modulus
      ensures pendingRpc == old(pendingRpc) + {id}
      ensures events == old(events) + (if id in old(pendingRpc) then [Dropped(RpcTable, id)] else [])
      ensures sent == old(sent) + [CallbackCallFrameAsWritten(id, callback, message, count)]
    {
      id := idGen;
      idGen := (idGen + 1) % Modulus;
      if id in pendingRpc {
        events := events + [Dropped(RpcTable, id)];
      }
      pendingRpc := pendingRpc + {id};
      Send('C', id, CallbackPayload(callback, message), count);
    }

    /** Peer::rpc_callback_call with the callback-call command, which the
        receiver routes to process_callback_call (see CallbackCallRoundTrip). */
    method RpcCallbackCall(callback: ID, message: string, count: nat) returns (id: ID)
      modifies this`idGen, this`pendingRpc, this`events, this`sent
      ensures id == old(idGen) && idGen == (old(idGen) + 1) % Modulus
      ensures pendingRpc == old(pendingRpc) + {id}
      ensures events == old(events) + (if id in old(pendingRpc) then [Dropped(RpcTable, id)] else [])
      ensures sent == old(sent) + [CallbackCallFrame(id, callback, message, count)]
    {
      id := idGen;
      idGen := (idGen + 1) % Modulus;
      if id in pendingRpc {
        events := events + [Dropped(RpcTable, id)];
      }
      pendingRpc := pendingRpc + {id};
      Send('B', id, CallbackPayload(callback, message), count);
    }

    /** Peer::create_subscription: only draws the next id. */
    method CreateSubscription() returns (id: ID)
      modifies this`idGen
      ensures id == old(idGen) && idGen == (old(idGen) + 1) % Modulus
    {
      id := idGen;
      idGen := (idGen + 1) % Modulus;
    }

    /** Peer::receive: `map[id] = promise`, breaking a promise already there. */
    method Receive(subscription: ID)
      modifies this`subscriptions, this`events
      ensures subscriptions == old(subscriptions) + {subscription}
      ensures events == old(events)
                      + (if subscription in old(subscriptions) then [Dropped(SubscriptionTable, subscription)] else [])
    {
      if subscription in subscriptions {
        events := events + [Dropped(SubscriptionTable, subscription)];
      }
      subscriptions := subscriptions + {subscription};
    }

    /** Peer::begin_publish: the same for the topic table. */
    method BeginPublish(subscription: ID)
      modifies this`topics, this`events
      ensures topics == old(topics) + {subscription}
      ensures events == old(events)
                      + (if subscription in old(topics) then [Dropped(TopicTable, subscription)] else [])
    {
      if subscription in topics {
        events := events + [Dropped(TopicTable, subscription)];
      }
      topics := topics + {subscription};
    }

    /** Peer::publish: a 'T' frame for a registered topic; nothing otherwise. */
    method Publish(subscription: ID, data: string, count: nat) returns (ok: bool)
      modifies this`sent
      ensures ok <==> subscription in topics
      ensures sent == old(sent) + (if ok then [FrameText('T', subscription, data, count)] else [])
    {
      if subscription !in topics {
        return false;
      }
      Send('T', subscription, data, count);
      ok := true;
    }

    /** Peer::end_publish: a registered topic is taken out, the 'D' frame is
        sent and its promise resolved; an unknown one changes nothing. */
    method EndPublish(subscription: ID)
      modifies this`topics, this`sent, this`events
      ensures topics == old(topics) - {subscription}
      ensures sent == old(sent)
                    + (if subscription in old(topics) then [FrameText('D', subscription, "", 0)] else [])
      ensures events == old(events)
                      + (if subscription in old(topics) then [TopicReleased(subscription)] else [])
    {
      var bound, rest := PickPromise(topics, subscription);
      topics := rest;
      if bound {
        Send('D', subscription, "", 0);
        events := events + [TopicReleased(subscription)];
      }
    }

    /** Peer::create_callback_call: the next id and a promise stored under it
        (`emplace`: an entry already there is kept and the new one broken). */
    method CreateCallbackCall() returns (id: ID)
      modifies this`idGen, this`pendingCallbacks, this`events
      ensures id == old(idGen) && idGen == (old(idGen) + 1) % Modulus
      ensures pendingCallbacks == old(pendingCallbacks) + {id}
      ensures events == old(events)
                      + (if id in old(pendingCallbacks) then [Dropped(CallbackTable, id)] else [])
    {
      id := idGen;
      idGen := (idGen + 1) % Modulus;
      if id in pendingCallbacks {
        events := events + [Dropped(CallbackTable, id)];
      }
      pendingCallbacks := pendingCallbacks + {id};
    }

    /** Peer::cancel_callback_call: erasing the entry breaks its promise. */
    method CancelCallbackCall(callback: ID)
      modifies this`pendingCallbacks, this`events
      ensures pendingCallbacks == old(pendingCallbacks) - {callback}
      ensures events == old(events)
                      + (if callback in old(pendingCallbacks) then [Dropped(CallbackTable, callback)] else [])
    {
      if callback in pendingCallbacks {
        events := events + [Dropped(CallbackTable, callback)];
      }
      pendingCallbacks := pendingCallbacks - {callback};
    }

    /** Peer::set_attribute: "S:" name '=' value, id 0. */
    method SetAttribute(name: string, value: string, count: nat)
      modifies this`sent
      ensures sent == old(sent) + [FrameText('S', 0, name + "=" + value, count)]
    {
      Send('S', 0, name + "=" + value, count);
    }

    /** Peer::unset_attribute: "X:" name. */
    method UnsetAttribute(name: string)
      modifies this`sent
      ensures sent == old(sent) + [FrameText('X', 0, name, 0)]
    {
      Send('X', 0, name, 0);
    }

    // -------------------------------------------------------------------
    // Inbound text frames

    /** process_text_message.  `rearmed` says whether a subscriber that
        receives a topic update asks for the next one while being called.
        A malformed frame or a bad id only sends a fatal protocol error (the
        InvalidIDFormat exception is caught in on_receive); frames from the
        other side only ever consume promises, never create them. */
    method ProcessTextMessage(data: string, rearmed: bool)
      modifies this`armed, this`pendingRpc, this`pendingCallbacks, this`subscriptions,
               this`topics, this`attributes, this`waiting, this`sent, this`events
      ensures Current() == Process(old(Current()), data, rearmed)
    {
      ProcessReading(ReadFrame(data), rearmed);
    }

    /** What process_text_message does once the frame is read: queue the
        attachment slots, then refuse the frame or dispatch its command. */
    method ProcessReading(r: Reading, rearmed: bool)
      modifies this`armed, this`pendingRpc, this`pendingCallbacks, this`subscriptions,
               this`topics, this`attributes, this`waiting, this`sent, this`events
      ensures Current() == Dispatched(old(Current()), r, rearmed)
    {
      waiting := waiting + r.slots;
      ghost var queued := Current();
      assert queued == old(Current()).(waiting := old(waiting) + r.slots);
      match r
      case Malformed(_) =>
        SendFatalError(ErrProtocolError, ErrorMessage(ErrProtocolError));
      case BadId(_) =>
        SendFatalError(ErrProtocolError, InvalidIdText);
      case Read(slots, cmd, id, payload) =>
        Dispatch(cmd, id, payload, slots, rearmed);
        assert Current() == Step(queued, cmd, id, payload, slots, rearmed);
    }

    /** The command switch of process_text_message. */
    method Dispatch(cmd: char, id: ID, payload: string, att: nat, rearmed: bool)
      modifies this`armed, this`pendingRpc, this`pendingCallbacks, this`subscriptions,
               this`topics, this`attributes, this`waiting, this`sent, this`events
      ensures Current() == Step(old(Current()), cmd, id, payload, att, rearmed)
    {
      if cmd in "-FHWC" {
        DispatchSession(cmd, id, payload, att);
      } else if cmd in "REB" {
        DispatchRpc(cmd, id, payload, att);
      } else if cmd in "TDU" {
        DispatchTopic(cmd, id, payload, att, rearmed);
      } else if cmd in "SX" {
        DispatchAttribute(cmd, payload, att);
      } else {
        SendFatalError(ErrUnsupportedCommand, ErrorMessage(ErrUnsupportedCommand));
      }
    }

    /** Attachment error, fatal error, hello, welcome and RPC call. */
    method DispatchSession(cmd: char, id: ID, payload: string, att: nat)
      requires cmd in "-FHWC"
      modifies this`armed, this`waiting, this`sent, this`events
      ensures Current() == AfterSession(old(Current()), cmd, id, payload, att)
      ensures cmd == '-' ==>
                && armed == old(armed) && sent == old(sent)
                && waiting == (if old(waiting) > 0 then old(waiting) - 1 else 0)
                && events == old(events) + (if old(waiting) > 0 then [AttachmentRejected(payload)] else [])
      ensures cmd == 'F' ==>
                && armed == old(armed) - {HelloSlot, WelcomeSlot, EndSlot}
                && sent == old(sent) && waiting == old(waiting)
                && events == old(events)
                             + IfArmed(HelloSlot, old(armed), SlotRejected(HelloSlot, payload))
                             + IfArmed(WelcomeSlot, old(armed), SlotRejected(WelcomeSlot, payload))
                             + IfArmed(EndSlot, old(armed), SlotRejected(EndSlot, payload))
      ensures (cmd == 'H' || cmd == 'W') && id < Version ==>
                && sent == old(sent) + [FatalFrame(ErrUnsupportedVersion, ErrorMessage(ErrUnsupportedVersion))]
                && armed == old(armed) && events == old(events) && waiting == old(waiting)
      ensures (cmd == 'H' || cmd == 'W') && id >= Version ==>
                var slot := if cmd == 'H' then HelloSlot else WelcomeSlot;
                && armed == old(armed) - {slot} && sent == old(sent) && waiting == old(waiting)
                && events == old(events) + IfArmed(slot, old(armed), SlotResolved(slot, id, payload, att))
      ensures cmd == 'C' ==>
                && armed == old(armed) - {RpcSlot} && sent == old(sent) && waiting == old(waiting)
                && events == old(events) + IfArmed(RpcSlot, old(armed), SlotResolved(RpcSlot, id, payload, att))
    {
      if cmd == '-' {
        if waiting > 0 {
          waiting := waiting - 1;
          events := events + [AttachmentRejected(payload)];
        }
      } else if cmd == 'F' {
        RejectSlot(HelloSlot, payload);
        RejectSlot(WelcomeSlot, payload);
        RejectSlot(EndSlot, payload);
      } else if cmd == 'H' || cmd == 'W' {
        if id < Version {
          SendFatalError(ErrUnsupportedVersion, ErrorMessage(ErrUnsupportedVersion));
        } else {
          ResolveSlot(if cmd == 'H' then HelloSlot else WelcomeSlot, id, payload, att);
        }
      } else {
        ResolveSlot(RpcSlot, id, payload, att);
      }
    }

    /** RPC result, RPC exception and callback call. */
    method DispatchRpc(cmd: char, id: ID, payload: string, att: nat)
      requires cmd in "REB"
      modifies this`pendingRpc, this`pendingCallbacks, this`sent, this`events
      ensures cmd == 'B' ==>
                && pendingRpc == old(pendingRpc)
                && Current() == AfterCallbackCall(old(Current()), id, payload, att)
      ensures cmd != 'B' ==> Current() == AfterRpcAnswer(old(Current()), cmd, id, payload, att)
    {
      if cmd == 'R' || cmd == 'E' {
        ProcessAnswer(cmd, id, payload, att);
      } else {
        ProcessCallbackCall(id, payload, att);
      }
    }

    /** RPC result and RPC exception: pick_promise takes the pending call
        out of its table, so an id is answered at most once and an unknown
        id has no effect. */
    method ProcessAnswer(cmd: char, id: ID, payload: string, att: nat)
      requires cmd == 'R' || cmd == 'E'
      modifies this`pendingRpc, this`events
      ensures pendingRpc == old(pendingRpc) - {id}
      ensures events == old(events)
                        + (if id !in old(pendingRpc) then []
                           else if cmd == 'R' then [RpcAnswered(id, payload, att)]
                           else [RpcFailed(id, payload)])
    {
      var bound, rest := PickPromise(pendingRpc, id);
      pendingRpc := rest;
      if bound {
        events := events + [if cmd == 'R' then RpcAnswered(id, payload, att) else RpcFailed(id, payload)];
      }
    }

    /** process_callback_call: the payload is `callback-id ':' message`; the
        callback's promise is taken out and called with the call id, and a
        missing callback is fatal error 2. */
    method ProcessCallbackCall(id: ID, payload: string, att: nat)
      modifies this`pendingCallbacks, this`sent, this`events
      ensures Cut(payload, ':').None? ==>
                && sent == old(sent) + [FatalFrame(ErrProtocolError, ErrorMessage(ErrProtocolError))]
                && pendingCallbacks == old(pendingCallbacks) && events == old(events)
      ensures Cut(payload, ':').Some? && ParseId(Cut(payload, ':').value.0).None? ==>
                && sent == old(sent) + [FatalFrame(ErrProtocolError, InvalidIdText)]
                && pendingCallbacks == old(pendingCallbacks) && events == old(events)
      ensures Cut(payload, ':').Some? && ParseId(Cut(payload, ':').value.0).Some? ==>
                var callback := ParseId(Cut(payload, ':').value.0).value;
                && pendingCallbacks == old(pendingCallbacks) - {callback}
                && (callback in old(pendingCallbacks) ==>
                      && sent == old(sent)
                      && events == old(events) + [CallbackCalled(callback, id, Cut(payload, ':').value.1, att)])
                && (callback !in old(pendingCallbacks) ==>
                      && sent == old(sent) + [FatalFrame(ErrCallbackNotFound, ErrorMessage(ErrCallbackNotFound))]
                      && events == old(events))
    {
      var cut := Cut(payload, ':');
      if cut.None? {
        SendFatalError(ErrProtocolError, ErrorMessage(ErrProtocolError));
        return;
      }
      var (callbackText, text) := cut.value;
      var parsed := FromBase36(callbackText);
      if parsed.None? {
        SendFatalError(ErrProtocolError, InvalidIdText);
        return;
      }
      var callback := parsed.value;
      var bound, rest := PickPromise(pendingCallbacks, callback);
      pendingCallbacks := rest;
      if bound {
        events := events + [CallbackCalled(callback, id, text, att)];
      } else {
        SendFatalError(ErrCallbackNotFound, ErrorMessage(ErrCallbackNotFound));
      }
    }

    /** Topic update, topic close and unsubscribe. */
    method DispatchTopic(cmd: char, id: ID, payload: string, att: nat, rearmed: bool)
      requires cmd in "TDU"
      modifies this`subscriptions, this`topics, this`sent, this`events
      ensures cmd == 'D' ==>
                && subscriptions == old(subscriptions) - {id} && topics == old(topics) && sent == old(sent)
                && events == old(events) + (if id in old(subscriptions) then [SubscriptionClosed(id)] else [])
      ensures cmd == 'U' ==>
                && topics == old(topics) - {id} && subscriptions == old(subscriptions) && sent == old(sent)
                && events == old(events) + (if id in old(topics) then [TopicReleased(id)] else [])
      ensures cmd == 'T' ==> Current() == AfterTopicUpdate(old(Current()), id, payload, att, rearmed)
      ensures cmd == 'D' ==> Current() == AfterTopicClose(old(Current()), id)
      ensures cmd == 'U' ==> Current() == AfterUnsubscribe(old(Current()), id)
    {
      if cmd == 'T' {
        ProcessTopicUpdate(id, payload, att, rearmed);
      } else if cmd == 'D' {
        var bound, rest := PickPromise(subscriptions, id);
        subscriptions := rest;
        if bound {
          events := events + [SubscriptionClosed(id)];
        }
      } else {
        var bound, rest := PickPromise(topics, id);
        topics := rest;
        if bound {
          events := events + [TopicReleased(id)];
        }
      }
    }

    /** process_topic_update: the subscriber's promise is called; unless the
        subscriber asked for the next update meanwhile, the subscription is
        erased and 'U' tells the publisher to stop.  An update nobody waits
        for is answered with 'U' as well. */
    method ProcessTopicUpdate(id: ID, payload: string, att: nat, rearmed: bool)
      modifies this`subscriptions, this`sent, this`events
      ensures events == old(events) + (if id in old(subscriptions) then [Delivered(id, payload, att)] else [])
      ensures var kept := id in old(subscriptions) && rearmed;
              && subscriptions == (if kept then old(subscriptions) else old(subscriptions) - {id})
              && sent == old(sent) + (if kept then [] else [FrameText('U', id, "", 0)])
    {
      if id in subscriptions {
        events := events + [Delivered(id, payload, att)];
        if rearmed {
          return;
        }
        subscriptions := subscriptions - {id};
      }
      Send('U', id, "", 0);
    }

    /** Attribute set and reset. */
    method DispatchAttribute(cmd: char, payload: string, att: nat)
      requires cmd in "SX"
      modifies this`attributes, this`sent
      ensures cmd == 'S' ==> Current() == AfterAttributeSet(old(Current()), payload, att)
      ensures cmd == 'X' ==> attributes == old(attributes) - {payload} && sent == old(sent)
    {
      if cmd == 'S' {
        ProcessAttributeSet(payload, att);
      } else {
        ProcessAttributeReset(payload);
      }
    }

    /** process_attribute_set: `name '=' value`, cut at the first '='; the
        value and the frame's attachments replace whatever the name held. */
    method ProcessAttributeSet(payload: string, att: nat)
      modifies this`attributes, this`sent
      ensures Cut(payload, '=').None? ==>
                && sent == old(sent) + [FatalFrame(ErrProtocolError, ErrorMessage(ErrProtocolError))]
                && attributes == old(attributes)
      ensures Cut(payload, '=').Some? ==>
                && sent == old(sent)
                && attributes == old(attributes)[Cut(payload, '=').value.0 := Attribute(Cut(payload, '=').value.1, att)]
    {
      var cut := Cut(payload, '=');
      if cut.None? {
        SendFatalError(ErrProtocolError, ErrorMessage(ErrProtocolError));
        return;
      }
      var (name, value) := cut.value;
      attributes := attributes[name := Attribute(value, att)];
    }

    /** process_attribute_reset: the payload is the name to erase. */
    method ProcessAttributeReset(payload: string)
      modifies this`attributes
      ensures attributes == old(attributes) - {payload}
    {
      attributes := attributes - {payload};
    }
  }
}
