# umq message engine — a verified model

umq is a peer-to-peer message engine. Two peers exchange calls, results,
exceptions, topic updates, one-shot callbacks and shared variables over a
small text wire format. Every generation of the engine keeps keyed tables
of pending work. This project models, in Dafny, the core of each
generation found in the repository and proves what each one promises:

- **`JsPeer`** (`js_peer.dfy`) — the browser peer, class `Peer` of
  `tests/web/umq.js`. It covers the line codec (`split`, the `#send_*`
  builders, `#parse_msg`), the request table with its at-most-once
  settlement, disconnect cleanup, topics, one-shot callbacks, discovery and
  the two variable stores. Handler and application outcomes are inputs
  (`Reactions`, `HandlerOutcome`, `Verdict`).
- **`Base36`** and **`UmqCore`** (`base36.dfy`, `umq_core.dfy`) — the newer
  C++ core of `src/umq/peer.cpp`. They cover the base-36 id codec as the two
  loops it is written as, and the `cmd base36(id) ':' body` framing with the
  optional `A<n>:` attachment prefix. They also cover the promise tables
  (`pick_promise`), publishing, callback calls and the attribute map. Each
  promise is a slot that delivers at most once; what it delivered, or that
  it was dropped unresolved, is logged in `events`.
- **`LegacyWire`**, **`LegacyPeer`** and **`LegacyNode`**
  (`legacy_wire.dfy`, `legacy_peer.dfy`, `legacy_node.dfy`) — the older
  C++ peers `peer.cpp` and `node.cpp`. They cover the call, subscription
  and topic maps, and the change-only variable synchronisation. They also
  cover the disconnect cleanup and the deque of reserved binary messages
  with its flush loop. Messages sent are logged in `sent`; application
  callbacks invoked are logged in `invocations`.
- **`Requests`** (`requests.dfy`) — `Request` from `request.cpp`, which
  answers exactly once, and the type-tagged `Response` accessors of
  `request.h`, including the `strtol`-based exception parser.
- **`Publishing`** (`publisher.dfy`) — `Publisher` from `publisher.cpp`. It
  holds subscribers in increasing id order, a sorted list of pending
  removals, and the in-place `remove_if` merge over an array.
- **`TcpFraming`** (`tcp_framing.dfy`) — `TCPConnection` from
  `tcpconnection.cpp`. It covers the 7-bit length encoding, the frame
  writer, frame routing, the reader's stage machine and the ping/timeout
  keepalive.
- **`Common`** (`common.dfy`) — `Option`, a first-occurrence search,
  decimal text of integers, and C's `strtol` prefix parse, which the other
  modules share.

Where the code does something its authors evidently did not intend, the
model keeps the behaviour as written and proves it. The
recorded cases are:

- `peer.cpp` never drains its call map on disconnect.
- Both older peers report exceptions with the `result` type.
- `binary_send` and `binary_flush` index the deque from opposite ends.
- The TCP reader never advances past a size byte.

Three defects also have a corrected counterpart; they are listed under
"Findings".

## Model

| member | source | states |
|---|---|---|
| JsPeer.ErrorDescribed | tests/web/umq.js:560-573 | a description other than "Undetermined error" exactly for the nine numeric PeerError codes 0..8 |
| JsPeer.Split | tests/web/umq.js:551-555 | `[s]` when the separator is absent; otherwise two parts `a`, `b` with `a + c + b == s` and no `c` in `a` |
| JsPeer.SplitUnique | tests/web/umq.js:551-555 | a text joined at its only possible first separator is split back into the same two parts |
| JsPeer.ParseFrameWith | tests/web/umq.js:258-261 | a frame `type + id + "\n" + payload` is cut into its type, id (free of newlines) and payload |
| JsPeer.ParseFrame | tests/web/umq.js:258-261 | a frame without newline is dispatched with no data |
| JsPeer.ClassifyInverts | tests/web/umq.js:263-309 | the dispatcher's switch recovers every message from its type character, header and payload |
| JsPeer.ParseEncoded | tests/web/umq.js:417-461 | every frame a `#send_*` builder writes is parsed back by `#parse_msg` as the same message |
| JsPeer.BuildersEncode | tests/web/umq.js:432-461 | the method-call, callback, result, exception and discover builders write exactly the encoded frames |
| JsPeer.MethodCallRoundTrip | tests/web/umq.js:456-458 | `"M"+id+"\n"+method+"\n"+args` is parsed back to the same id, method and args |
| JsPeer.NodeErrorIsConnectionLevel | tests/web/umq.js:421-426 | a node error frame is read by the other side as an exception with the empty id |
| JsPeer.SplitAll | tests/web/umq.js:189 | `String.split` always yields at least one part |
| JsPeer.MethodListingCons | tests/web/umq.js:402-408 | the listing of an empty discovery query is one `"M"+name+"\n"` line per method, in order |
| JsPeer.ListingLines | tests/web/umq.js:189-191 | splitting a listing at newlines gives one `M` line per method, then the empty remainder |
| JsPeer.ListingRoundTrip | tests/web/umq.js:181-194 | `discover` reads a peer's method listing back as exactly those methods and no routes |
| JsPeer.ReplyAnswersCaller | tests/web/umq.js:482-487 | whatever a handler returns or throws, the reply frame is read by the caller as a result, exception or execution error for the same id; `undefined` becomes an empty result |
| JsPeer.Peer.constructor | tests/web/umq.js:521-529 | a connected peer with every table empty and the id counter at 0 |
| JsPeer.Peer.CreateRequest | tests/web/umq.js:237-251 | while connected: the decimal counter value becomes the id, the counter increments, the request is stored and its frame sent; otherwise an immediate rejection with the disconnect error and nothing sent |
| JsPeer.Peer.PopRequest | tests/web/umq.js:473-481 | found exactly when the id is pending, and the id is no longer pending afterwards |
| JsPeer.Peer.OnResult | tests/web/umq.js:339-344 | a pending request is fulfilled with the data once and removed; an unknown id changes nothing |
| JsPeer.Peer.OnException | tests/web/umq.js:346-355 | the empty id reports the raw data to `#on_error`; otherwise a pending request is rejected once with an `Exception` and removed |
| JsPeer.Peer.OnExecuteError | tests/web/umq.js:358-368 | the same routing with an `ExecutionError` |
| JsPeer.Peer.Cleanup | tests/web/umq.js:463-471 | every pending request is rejected exactly once with the disconnect error; requests, topics and subscriptions end empty and the peer disconnected |
| JsPeer.AppendRejections | tests/web/umq.js:463-471 | appending one disconnect rejection per pending id to a log that never mentions a pending id keeps every id settled at most once and settles each pending id |
| JsPeer.RejectAll | tests/web/umq.js:464-466 | the loop over pending ids rejects each id once, with no repeats and nothing else |
| JsPeer.Peer.SendNodeError | tests/web/umq.js:421-426 | sends the connection-level exception frame, asks the socket to close, reports `Exception(code, text)` |
| JsPeer.Peer.Subscribe | tests/web/umq.js:128-130 | the handler replaces any earlier one |
| JsPeer.Peer.Unsubscribe | tests/web/umq.js:166-175 | a subscribed topic's handler is called once with null, then (unless it throws) the topic is removed, `"U"+topic` sent and true returned; an unsubscribed topic answers false and nothing changes |
| JsPeer.Peer.StartPublish | tests/web/umq.js:142-163 | connected: registers the topic's publish function without a hook; disconnected: throws the disconnect error and registers nothing |
| JsPeer.Peer.SetUnsubscribeHook | tests/web/umq.js:137-140 | the hook is set on a registered topic's function only |
| JsPeer.Peer.Publish | tests/web/umq.js:144-156 | answers `topic in #subscriptions`; when true sends `"Z"+topic` for no value and `"T"+topic+"\n"+msg` otherwise; sends nothing when false |
| JsPeer.Peer.OnTopicUpdate | tests/web/umq.js:371-377 | the handler gets the data; the subscription is deleted and `"U"+id` sent iff there is no handler or it answers falsy |
| JsPeer.Peer.OnUnsubscribe | tests/web/umq.js:379-385 | the topic is removed and its hook, if any, is called once |
| JsPeer.Peer.OnTopicClose | tests/web/umq.js:387-393 | the handler is called with null, then the entry keyed by the handler (not the id) is deleted, so the topic stays subscribed |
| JsPeer.Peer.RegCallback | tests/web/umq.js:215-220 | a fresh id, the counter in decimal followed by `_cb`, is stored and the counter increments |
| JsPeer.Peer.UnregCallback | tests/web/umq.js:222-224 | the id is removed |
| JsPeer.Peer.OnCallback | tests/web/umq.js:315-324 | a registered callback is removed before it runs, so it runs once, and its outcome is the reply; an unregistered one sends an execution error and then the unhandled-exception reply |
| JsPeer.Peer.ExposeMethod | tests/web/umq.js:228-229 | the method table gains the entry; a new name is appended to the enumeration order |
| JsPeer.Peer.OnCall | tests/web/umq.js:326-337 | an exposed method's outcome is the reply; an unknown method gets the method-not-found execution error |
| JsPeer.Peer.OnDiscover | tests/web/umq.js:402-415 | an empty query gets the method listing; a known method its doc; an unknown one the method-not-found exception |
| JsPeer.Peer.OnVarSet | tests/web/umq.js:395-397 | `peer_vars[id]` becomes the data |
| JsPeer.Peer.OnVarUnset | tests/web/umq.js:399-401 | `peer_vars[id]` is deleted |
| JsPeer.Peer.SetVar | tests/web/umq.js:498-504 | the value is always stored; `S` is sent exactly when it differs from the stored one |
| JsPeer.Peer.UnsetVar | tests/web/umq.js:505-509 | the name is deleted and `"X"+name` always sent |
| JsPeer.Peer.BeginHandshake | tests/web/umq.js:107-116 | the first `init` sends the hello with the version; later calls send nothing |
| JsPeer.Peer.OnWelcome | tests/web/umq.js:513-519 | a version other than "1.0.0" is the unsupported-version node error; otherwise the handshake completes with the data |
| JsPeer.Peer.Receive | tests/web/umq.js:254-256 | the peer's tables and logs after one text frame are exactly `Handle` of the parsed frame on the state before it; the request table stays consistent with the counter; an unknown type character sends the unknownMessageType node error and a frame without its payload the messageProcessingError node error |
| JsPeer.Peer.Dispatch | tests/web/umq.js:258-312 | the switch of `#parse_msg`: the new state is `Handle` of the message on the old one, and only an answer touches the request tables, settling what `Answer` says |
| JsPeer.Peer.DispatchRequest | tests/web/umq.js:263-310 | every message that is not an answer leaves the request tables alone and takes the state to `Handle` of it |
| JsPeer.Peer.DispatchNotice | tests/web/umq.js:290-310 | a topic or session message takes the state to `Handle` of it |
| JsPeer.Peer.DispatchCall | tests/web/umq.js:267-289 | a callback frame has exactly the effect of `#on_callback` (`AfterCallback`: the entry removed, run once, its outcome or the not-registered error sent), a method call that of `#on_call` (`AfterCall`), a discover request sends the one reply `#on_discover` builds |
| JsPeer.Peer.DispatchTopic | tests/web/umq.js:290-298 | a topic update, an unsubscribe and a topic close have exactly the effects of `#on_topic_update`, `#on_unsubscribe` and `#on_topic_close`, including the messageProcessingError node error when the handler throws into the catch of `#parse_msg` |
| JsPeer.Peer.DispatchSession | tests/web/umq.js:263-310 | a variable set or unset changes only `peer_vars` at that name; a welcome has the effect of `#on_welcome` (unsupportedVersion node error on a version mismatch, else the welcome resolved); an unknown type character is the unknownMessageType node error and a frame missing its payload the messageProcessingError node error, each asking the socket to close |
| JsPeer.Peer.DispatchAnswer | tests/web/umq.js:278-286 | the result, exception and execution-error cases settle exactly what `Answer` says; an exception or execution error with the empty id is reported through `on_error` and nothing else changes |
| JsPeer.HandleShrinksTables | tests/web/umq.js:315-407 | no inbound message adds a callback, a subscription or a published topic; frames sent, code run and errors reported are only appended to; a close request is never withdrawn |
| JsPeer.CallbackRunsOnce | tests/web/umq.js:315-324 | a registered callback is removed and run by its frame; the same frame again runs nothing and is answered with callbackIsNotRegistered and the exception from calling `undefined` |
| JsPeer.ThrowingSubscriberCloses | tests/web/umq.js:371-377 | a subscriber that throws keeps its subscription; the throw reaches the catch of `#parse_msg`, which sends the messageProcessingError node error, reports it and closes |
| JsPeer.ReceiveMethodCall | tests/web/umq.js:273-276 | the frame a calling peer builds for a method call reaches `#on_call` with the same id, method name and arguments |
| Common.Find | tests/web/umq.js:552 | the index of the first occurrence, or none exactly when absent |
| Common.FindAt | tests/web/umq.js:552 | in `a + c + b` with no `c` in `a` the first `c` is at `|a|` |
| Common.NatToDecimal | tests/web/umq.js:242 | decimal digits, with a leading zero only for 0 |
| Common.DecimalRoundTrip | tests/web/umq.js:242 | the decimal text reads back as the number |
| Common.NatToDecimalInjective | tests/web/umq.js:241-244 | distinct counter values give distinct request ids |
| Common.StrToL | request.cpp:85-91 | `strtol` consumes a prefix: the rest is never longer than the input |
| Common.StrToLOfDecimal | request.cpp:85-91 | `strtol` reads a number written in decimal and followed by a space back exactly, stopping at the space |
| Base36.DigitOf | src/umq/peer.cpp:539-552 | each remainder below 36 is written as the base-36 character of that value |
| Base36.Digits | src/umq/peer.cpp:539-552 | toBase36 writes only `0-9A-Z` |
| Base36.ValueOfDigits | src/umq/peer.cpp:539-562 | the digits of `n` denote `n` |
| Base36.Base36RoundTrip | src/umq/peer.cpp:539-562 | `fromBase36(toBase36(id)) == id` for every 32-bit id |
| Base36.DigitsCanonical | src/umq/peer.cpp:539-552 | no leading `'0'`, and the empty text exactly for 0 |
| Base36.DigitsInjective | src/umq/peer.cpp:539-552 | distinct ids get distinct texts |
| Base36.ToBase36 | src/umq/peer.cpp:539-552 | the buffer loop writes the digits of the id, most significant first |
| Base36.PushDigits | src/umq/peer.cpp:540-547 | the first loop leaves the id's digits in the buffer least significant first, at most seven of them |
| Base36.PopDigits | src/umq/peer.cpp:548-551 | the second loop writes the filled cells last one first |
| Base36.FromBase36 | src/umq/peer.cpp:554-562 | fails exactly on a character outside `0-9A-Z` (lowercase included); otherwise the value modulo 2^32 |
| UmqCore.ErrorMessageKnown | src/umq/peer.cpp:523-533 | a text of its own exactly for error codes 1 to 5 |
| UmqCore.ErrorRoundTrip | src/umq/peer.cpp:35-43 | `get_code` and `get_message` read back the code and text of a fatal error body |
| UmqCore.ReadFrameShape | src/umq/peer.cpp:171-193 | no `':'`, or an empty command part, is malformed; a frame read has a command other than `A` |
| UmqCore.ReadPlainFrame | src/umq/peer.cpp:171-184 | a frame without attachments is read back as the command, id and body written |
| UmqCore.ReadPrefixed | src/umq/peer.cpp:185-193 | an `A<n>:` prefix adds `n` attachment slots to the frame after it |
| UmqCore.HeadLayout | src/umq/peer.cpp:171-184 | the head `cmd id ':'` that send_fn writes is cut back into the same command, id and rest |
| UmqCore.FrameRoundTrip | src/umq/peer.cpp:171-193 | what `send_fn` writes, with any attachment count, is read back with that count modulo 2^32 |
| UmqCore.FatalRoundTrip | src/umq/peer.cpp:339-344 | a fatal-error frame arrives as command `F`, id 0, with the code and text recoverable |
| UmqCore.Cut | src/umq/peer.cpp:575-587 | none exactly when the separator is absent; otherwise the parts around its first occurrence |
| UmqCore.CutAt | src/umq/peer.cpp:575-587 | cutting `a + c + b` with no `c` in `a` gives `a` and `b` |
| UmqCore.AttributeRoundTrip | src/umq/peer.cpp:564-587 | the frame `set_attribute` writes is read by `process_attribute_set` as the same name and value |
| UmqCore.CallbackCallMisrouted | src/umq/peer.cpp:467-478 | as written, a callback call arrives as an RPC call (`C`) |
| UmqCore.CallbackCallRoundTrip | src/umq/peer.cpp:482-499 | with the callback-call command the receiver reads the call id, the callback id and the message back |
| UmqCore.PickPromise | src/umq/peer.cpp:159-167 | bound exactly when the id is in the table, and the id is erased |
| UmqCore.Core.StartServer | src/umq/peer.cpp:361-368 | a fresh core waiting for the hello, id generator at 1 |
| UmqCore.Core.StartClient | src/umq/peer.cpp:350-359 | a fresh core that has sent its hello with the version and waits for the welcome |
| UmqCore.Core.Send | src/umq/peer.cpp:306-337 | one frame with its optional attachment prefix |
| UmqCore.Core.SendFatalError | src/umq/peer.cpp:339-348 | an `F` frame, id 0, code and text |
| UmqCore.Core.ResolveSlot | src/umq/peer.cpp:209-222 | a single promise delivers only while armed and is disarmed after |
| UmqCore.Core.RejectSlot | src/umq/peer.cpp:204-208 | a single promise is rejected only while armed and is disarmed after |
| UmqCore.Core.ArmSlot | src/umq/peer.cpp:392-398 | arming a slot drops the promise that was waiting there |
| UmqCore.Core.RpcServer | src/umq/peer.cpp:392-398 | arms the RPC slot, dropping an earlier waiter |
| UmqCore.Core.CloseEvent | src/umq/peer.cpp:378-382 | arms the end-of-session slot, dropping an earlier waiter |
| UmqCore.Core.AcceptClient | src/umq/peer.cpp:370-372 | sends the welcome with the version as id |
| UmqCore.Core.RejectClient | src/umq/peer.cpp:374-376 | sends fatal error 1 with the caller's text |
| UmqCore.Core.RpcResult | src/umq/peer.cpp:400-402 | sends `R` with the id and response |
| UmqCore.Core.RpcException | src/umq/peer.cpp:404-406 | sends `E` with the id and message |
| UmqCore.Core.RpcCall | src/umq/peer.cpp:383-391 | the next id (wrapping at 2^32) gets a pending promise, keeping an entry already there (`emplace`), in which case the new promise is broken; the `C` frame is sent |
| UmqCore.Core.RpcCallbackCallAsWritten | src/umq/peer.cpp:467-478 | the same (an entry already under the id is kept and the new promise broken), sending the callback payload under command `C` |
| UmqCore.Core.RpcCallbackCall | src/umq/peer.cpp:467-478 | the same (an entry already under the id is kept and the new promise broken), sending it under the callback-call command `B` |
| UmqCore.Core.CreateSubscription | src/umq/peer.cpp:408-412 | draws the next id only |
| UmqCore.Core.Receive | src/umq/peer.cpp:414-420 | the subscription is registered |
| UmqCore.Core.BeginPublish | src/umq/peer.cpp:422-428 | the topic is registered |
| UmqCore.Core.Publish | src/umq/peer.cpp:430-438 | true and a `T` frame exactly for a registered topic; nothing otherwise |
| UmqCore.Core.EndPublish | src/umq/peer.cpp:440-447 | the topic is erased; the `D` frame is sent and its promise resolved only if it was registered |
| UmqCore.Core.CreateCallbackCall | src/umq/peer.cpp:449-459 | the next id gets a pending callback promise |
| UmqCore.Core.CancelCallbackCall | src/umq/peer.cpp:461-465 | the entry is erased, dropping its promise |
| UmqCore.Core.SetAttribute | src/umq/peer.cpp:564-569 | sends `S`, id 0, `name=value` |
| UmqCore.Core.UnsetAttribute | src/umq/peer.cpp:571-573 | sends `X`, id 0, the name |
| UmqCore.Core.ProcessTextMessage | src/umq/peer.cpp:171-254 | the core after one text frame is exactly `Process` of the frame on the core before it: attachment slots queued, then a fatal protocol error for a malformed frame or bad id, or the effect of its command |
| UmqCore.ProcessAdvances | src/umq/peer.cpp:171-254 | a frame from the other side never arms a slot or adds a promise to a table; events and frames already there stay, and at most one frame is sent in answer |
| UmqCore.ProcessMalformed | src/umq/peer.cpp:172-176 | a frame without `':'` sends the protocol error and changes nothing else |
| UmqCore.AnsweredOnce | src/umq/peer.cpp:225-230 | a result or exception takes the pending call out and delivers it once; a second answer for the same id changes nothing |
| UmqCore.ResultArrives | src/umq/peer.cpp:225-227 | the frame `rpc_result` writes resolves the caller's pending call with the response and the attachments announced |
| UmqCore.TopicUpdateArrives | src/umq/peer.cpp:501-517 | the frame `publish` writes is delivered to the subscriber; the subscription stays only when re-armed, otherwise `U` is sent back |
| UmqCore.FatalArrives | src/umq/peer.cpp:204-208 | a fatal error frame rejects the hello, welcome and end-of-session promises that are armed with the error's text and sends nothing |
| UmqCore.AttributeArrives | src/umq/peer.cpp:575-587 | the frame `set_attribute` writes stores the value with the attachment count under the name on the receiving side |
| UmqCore.CallbackCallAsWrittenArrives | src/umq/peer.cpp:467-478 | as written, a callback call leaves the callback table untouched and resolves the RPC server's slot instead |
| UmqCore.CallbackCallArrives | src/umq/peer.cpp:482-499 | with the `B` command, the frame calls the pending callback once with the call id, the message and the attachments |
| UmqCore.Core.Dispatch | src/umq/peer.cpp:195-250 | the command switch: the new core is `Step` of the command on the old one, which is fatal error 4 for an unsupported command |
| UmqCore.Core.DispatchSession | src/umq/peer.cpp:199-224 | an attachment error rejects the oldest waiting slot; `F` rejects the three session slots; a hello or welcome below version 1 is fatal error 5, otherwise it resolves its slot; `C` resolves the RPC server slot |
| UmqCore.Core.DispatchRpc | src/umq/peer.cpp:225-233 | `R` and `E` have the effect `AfterRpcAnswer` gives them on the whole core; a callback call has the effect of `process_callback_call` and leaves the RPC table alone |
| UmqCore.Core.ProcessAnswer | src/umq/peer.cpp:225-230 | a result resolves and an exception rejects the pending call with that id, which is erased; an unknown id leaves the table and the events as they were |
| UmqCore.Core.ProcessCallbackCall | src/umq/peer.cpp:482-499 | no `':'` or a bad callback id is fatal; otherwise the pending callback is taken and resolved, or fatal error 2 if it is unknown |
| UmqCore.Core.DispatchTopic | src/umq/peer.cpp:234-242 | `T` has the effect of `process_topic_update`; `D` rejects and erases the subscription; `U` resolves and erases the topic; an unknown id changes nothing |
| UmqCore.Core.ProcessTopicUpdate | src/umq/peer.cpp:501-517 | a subscriber's promise gets the data; the subscription stays only if it was re-armed |
| UmqCore.Core.DispatchAttribute | src/umq/peer.cpp:243-248 | `S` has the effect of `process_attribute_set`; `X` erases exactly that name and sends nothing |
| UmqCore.Core.ProcessAttributeSet | src/umq/peer.cpp:575-587 | no `'='` is a fatal protocol error; otherwise the name before the first `'='` maps to the rest |
| UmqCore.Core.ProcessAttributeReset | src/umq/peer.cpp:589-592 | exactly that name is erased |
| LegacyWire.PrepareHdr | peer.cpp:502-504 | the type character followed by the id, which is read back as the first character and the rest |
| LegacyWire.ErrorToString | peer.cpp:533-550 | a text other than "Undetermined error" exactly for the thirteen node errors |
| LegacyWire.CallIdTextInjective | peer.cpp:24-36 | distinct 32-bit counter values give distinct call ids, through the signed conversion |
| LegacyPeer.Peer.constructor | peer.cpp:8-14 | empty tables, counter 0, nothing sent |
| LegacyPeer.Peer.Call | peer.cpp:24-36 | disconnected: the callback gets a `disconnected` response at once and nothing is sent; connected: the counter's decimal id maps to the callback, the counter wraps at 2^32, and `C` is sent |
| LegacyPeer.Peer.Subscribe | peer.cpp:38-42 | `emplace`: an existing handler is kept |
| LegacyPeer.Peer.StartPublish | peer.cpp:44-83 | connected: registers the topic (keeping an entry) and returns its publish function; disconnected: the inert function |
| LegacyPeer.Peer.InvokePublish | peer.cpp:44-83 | true exactly for a registered topic while connected, or undefined data; sends `T` or `N` only while connected |
| LegacyPeer.Peer.OnUnsubscribeRequest | peer.cpp:85-96 | stores the request exactly for a registered topic |
| LegacyPeer.Peer.OnUnsubscribe | peer.cpp:139-148 | erases the topic and calls its request, if set, once |
| LegacyPeer.Peer.Unsubscribe | peer.cpp:103-110 | erases the topic; sends `U` only for a subscribed topic while connected |
| LegacyPeer.Peer.OnTopicUpdate | peer.cpp:150-162 | false exactly when not subscribed; the handler gets the data; a false answer unsubscribes |
| LegacyPeer.Peer.OnTopicClose | peer.cpp:129-132 | the handler gets undefined and the topic is unsubscribed |
| LegacyPeer.Peer.OnSetVar | peer.cpp:198-206 | defined data is stored, undefined data erases the name, and the variable then reads as the data |
| LegacyPeer.Peer.SetVariable | peer.cpp:227-238 | the variable then reads as the value; `S` is sent only for a new or changed value while connected |
| LegacyPeer.Peer.FinishCall | peer.cpp:208-218 | the entry is erased and its callback invoked once; an unknown id is ignored |
| LegacyPeer.Peer.OnResult | peer.cpp:117-119 | finishes the call with the result type |
| LegacyPeer.Peer.OnException | peer.cpp:125-127 | finishes the call with the result type, as written |
| LegacyPeer.Peer.OnUnknownMethod | peer.cpp:179-181 | finishes the call with an execute error naming the method |
| LegacyPeer.Peer.SetDisconnectHandler | peer.cpp:112-114 | the handler is stored |
| LegacyPeer.Peer.BinaryReceive | peer.cpp:522-525 | `emplace`: an existing callback is kept |
| LegacyPeer.Peer.OnDisconnect | peer.cpp:270-296 | only while connected: the handler is called once, then each set unsubscribe request and each binary callback (with false) once; topic and binary maps end empty; the call map is kept; a second call does nothing |
| LegacyPeer.NotifyTopics | peer.cpp:287-289 | each topic with an unsubscribe request has it called exactly once and nothing else is called |
| LegacyPeer.NotifyBinary | peer.cpp:293-295 | each pending binary callback is called exactly once with false and no data |
| LegacyPeer.FlushOrder | peer.cpp:581-591 | never flushes more than is reserved |
| LegacyPeer.FlushOrderSlots | peer.cpp:581-591 | the i-th flushed message is the i-th filled slot from the back, and flushing stops at the first empty one |
| LegacyPeer.Peer.BinaryReserveId | peer.cpp:557-561 | an empty slot at the front; the id is the send order plus the old size |
| LegacyPeer.Peer.BinaryFlush | peer.cpp:581-591 | the filled slots at the back are sent in order and popped, advancing the send order once per pop; the last slot left is empty |
| LegacyPeer.FlushPop | peer.cpp:581-591 | popping one filled back slot moves its data from what is left to flush to what has been sent, in order |
| LegacyPeer.Peer.BinarySend | peer.cpp:563-568 | fills the slot indexed from the front, then flushes |
| LegacyPeer.ReservedOutOfOrder | peer.cpp:557-591 | filling the second reservation first sends it and advances the order, so the first id falls below the order |
| LegacyPeer.BinaryMessage.constructor | peer.cpp:639-643 | reserves an id on the peer |
| LegacyPeer.BinaryMessage.Moved | peer.cpp:594-597 | takes over the reservation; the source no longer holds one |
| LegacyPeer.BinaryMessage.Assign | peer.cpp:599-609 | sends an empty message for a reservation it held, then takes over the other's |
| LegacyPeer.BinaryMessage.Send | peer.cpp:622-636 | fills its slot once and gives up the reservation |
| LegacyPeer.BinaryMessage.Release | peer.cpp:611-616 | the destructor sends an empty message for an unfilled reservation |
| LegacyNode.Node.constructor | node.cpp:5-8 | empty tables, counter 0 |
| LegacyNode.Node.Call | node.cpp:17-25 | no connectivity check: the decimal id maps to the callback before the `C` frame is sent; the counter wraps at 2^32 |
| LegacyNode.Node.Subscribe | node.cpp:27-31 | `emplace`: an existing handler is kept |
| LegacyNode.Node.StartPublish | node.cpp:33-65 | registers the topic (keeping an entry) and returns its publish function |
| LegacyNode.Node.InvokePublish | node.cpp:33-65 | registered topic: `T` for defined data, `N` for undefined, true; otherwise false and nothing sent |
| LegacyNode.Node.OnUnsubscribeRequest | node.cpp:67-78 | false exactly when the topic is not registered; otherwise the request is stored |
| LegacyNode.Node.OnUnsubscribe | node.cpp:139-148 | erases the topic and calls its request, if set, with the topic id |
| LegacyNode.Node.Unsubscribe | node.cpp:85-92 | sends `U` and erases only for a subscribed topic |
| LegacyNode.Node.OnTopicUpdate | node.cpp:150-162 | false exactly when not subscribed; a false answer from the handler unsubscribes |
| LegacyNode.Node.OnTopicClose | node.cpp:129-132 | the handler gets undefined, then exactly one `U` for a subscribed topic |
| LegacyNode.Node.FinishCall | node.cpp:198-208 | the entry is erased and invoked once; unknown ids ignored |
| LegacyNode.Node.OnResult | node.cpp:117-119 | finishes with the result type |
| LegacyNode.Node.OnException | node.cpp:125-127 | finishes with the result type, as written |
| LegacyNode.Node.ExpectBinary | node.cpp:112-115 | `emplace`: the first callback for a hash is kept |
| Requests.GetResult | request.h:83-85 | the data iff the type is result, otherwise undefined |
| Requests.GetException | request.h:86-88 | the data iff the type is exception, otherwise undefined |
| Requests.GetExecuteError | request.h:89-91 | the data's string iff the type is execute error, otherwise empty |
| Requests.OneKind | request.h:93-96 | exactly one of the four `has_*` holds, and the accessors of the other kinds are empty |
| Requests.ToInt32 | request.cpp:85-91 | the `long` from `strtol` narrowed to `int` is in range and unchanged when it fits |
| Requests.TrimEnd | request.cpp:85-91 | a prefix of the input without trailing white space |
| Requests.TrimSpace | request.cpp:85-91 | trimming ignores the space after the code |
| Requests.ExceptionRoundTrip | request.cpp:85-91 | `get_exception` reads back the code and the trimmed message that `send_exception(code, message)` wrote |
| Requests.Request.constructor | request.cpp:7-25 | the buffer is `id\0method\0args\0` and the three views are those texts |
| Requests.Request.Moved | request.cpp:66-75 | the new request takes over the duty to answer; the source is marked answered |
| Requests.Request.Respond | request.cpp:31-64 | only the first answer has an effect, none reaches a vanished peer, and the request is answered after |
| Requests.Request.SendResult | request.cpp:31-38 | the first answer sends the result |
| Requests.Request.SendException | request.cpp:40-47 | the first answer sends the exception |
| Requests.Request.SendExceptionCode | request.cpp:49-54 | the first answer sends `decimal(code) + " " + message` |
| Requests.Request.SendExecuteError | request.cpp:57-64 | the first answer sends the execute error |
| Requests.Request.Destroy | request.cpp:27-29 | an empty result is sent exactly when no answer was sent |
| Publishing.Notified | publisher.cpp:29-35 | one call per subscriber |
| Publishing.NotifiedEach | publisher.cpp:29-35 | the i-th call goes to the i-th subscriber with the published value |
| Publishing.LowerBound | publisher.cpp:20-21 | the position before which all ids are smaller and, in a sorted list, from which none is |
| Publishing.InsertSorted | publisher.cpp:18-24 | inserting at the lower bound keeps the pending removals sorted |
| Publishing.SurvivorsMembers | publisher.cpp:71-88 | exactly the subscribers whose id is not pending removal remain |
| Publishing.SurvivorsIncreasing | publisher.cpp:71-88 | the survivors keep increasing id order |
| Publishing.DroppedIdsFrom | publisher.cpp:29-35 | every id scheduled by a publish is a subscriber that declined |
| Publishing.DroppedIdsSorted | publisher.cpp:29-35 | ids scheduled by a publish are in increasing order |
| Publishing.SurvivorsIgnoreForeign | publisher.cpp:71-88 | a removal id of no subscriber changes nothing |
| Publishing.PublishSurvivors | publisher.cpp:26-39 | the removal pass after a publish keeps exactly the subscribers that accepted |
| Publishing.KeptInRange | publisher.cpp:26-39 | those stay in increasing order with ids between 1 and the counter |
| Publishing.MatchNext | publisher.cpp:76-85 | the `remove_if` predicate answers true exactly for an id in the sorted removal list, advancing its iterator monotonically |
| Publishing.Publisher.constructor | publisher.h:65-66 | no subscribers, counter 0 |
| Publishing.Publisher.Subscribe | publisher.cpp:9-16 | the id is `++idcnt`, appended, so ids stay increasing from 1 |
| Publishing.Publisher.Empty | publisher.cpp:66-69 | true exactly when there are no subscribers |
| Publishing.Publisher.DoUnsubscribe | publisher.cpp:71-88 | the in-place pass removes exactly the pending ids, keeps the order of the rest, and empties the list |
| Publishing.Publisher.Unsubscribe | publisher.cpp:18-24 | inserts at the lower bound; during a publish only records it, otherwise removes at once; the subscriber list stays ordered by id and within the ids issued |
| Publishing.Publisher.Publish | publisher.cpp:26-39 | every subscriber is called once in order; exactly those that accepted remain; true iff any remain |
| Publishing.Publisher.Reset | publisher.cpp:56-64 | every former subscriber is called once with the empty value; both lists end empty and the invariant holds |
| TcpFraming.Number | tcpconnection.cpp:91-101 | at least one byte; the first has bit 0x80 clear, the rest set; a length below 128 is that single byte |
| TcpFraming.NumberValue | tcpconnection.cpp:91-101 | the low 7 bits of the groups spell the length |
| TcpFraming.NumberInjective | tcpconnection.cpp:91-101 | distinct lengths are written differently |
| TcpFraming.TcpConnection.constructor | tcpconnection.cpp:16-21 | reader at the type stage, nothing written |
| TcpFraming.TcpConnection.AppendNumber | tcpconnection.cpp:91-101 | the recursive writer appends exactly those groups |
| TcpFraming.TcpConnection.SendMessage | tcpconnection.cpp:103-112 | disconnected: false and nothing written; otherwise type byte, length groups and data are written and true returned, and the write's outcome becomes the connected flag |
| TcpFraming.TcpConnection.SendFrame | tcpconnection.cpp:114-122 | text as type 0, binary as type 1, any other kind false |
| TcpFraming.TcpConnection.ProcessFrame | tcpconnection.cpp:75-82 | text and binary reach the listener, a ping is answered by a pong with the same data, others are ignored |
| TcpFraming.TcpConnection.Step | tcpconnection.cpp:41-68 | type stage takes one byte; size stage shifts in 7 bits without consuming; content fragments accumulate until the size is used up, then one frame with the whole payload is processed and the buffer cleared; from a hanging state no byte is consumed, but a size byte with bit 0x80 set shifts the size again, and a finished frame with nothing left to read processes an empty frame of its type on every pass |
| TcpFraming.TcpConnection.Consume | tcpconnection.cpp:41-70 | the loop consumes the chunk, or stops at the point where it would spin forever; a chunk holding exactly the rest of a frame's content delivers that frame once, with the buffered fragments in front, and empties the buffer |
| TcpFraming.TcpConnection.OnReadAsWritten | tcpconnection.cpp:24-40 | timed-out empty read with no ping outstanding: ping sent, timeout cleared, ping never recorded; otherwise an empty read closes; data clears the ping flag |
| TcpFraming.TcpConnection.OnRead | tcpconnection.cpp:24-40 | the same, with the ping recorded |
| TcpFraming.TcpConnection.ListenAsWritten | tcpconnection.cpp:23-73 | the read is armed once, so only the first chunk is handled; after a first chunk that times out, the listener has heard nothing whatever follows |
| TcpFraming.TcpConnection.Listen | tcpconnection.cpp:23-73 | with the read armed again after each chunk: every chunk up to the close is handled; an end of stream among them is reported as the close; the close is heard once, last, and leaves the connection disconnected |
| TcpFraming.PeerCloseMissedAsWritten | tcpconnection.cpp:23-73 | a timeout followed by the end of the stream: the listener never hears the close and the connection stays connected |
| TcpFraming.PeerCloseReported | tcpconnection.cpp:23-73 | the same chunks with the read armed again: the close reaches the listener last and the connection is disconnected |
| TcpFraming.IdlePeerAsWritten | tcpconnection.cpp:24-33 | with the read armed again after the first timeout, the second idle timeout sends a second ping and never closes |
| TcpFraming.IdlePeer | tcpconnection.cpp:24-33 | with the ping recorded, the second idle timeout closes |
| TcpFraming.ShortFrameMisread | tcpconnection.cpp:41-68 | a 3-byte text frame read back delivers the length byte and the first two bytes, and leaves the reader spinning on the last |
| TcpFraming.ShortFrameFloods | tcpconnection.cpp:41-68 | the spin on that last byte delivers an empty text frame on every pass: after k passes, k empty frames follow the misread one and the reader still hangs |

## Left out

- Concurrency: mutexes, atomics, coroutines and futures. Every operation is one sequential step, and each promise is a slot that delivers at most once.
- The asynchronous attachment sender, `on_receive` and `flush` in `src/umq/peer.cpp`. Binary attachments are reduced to their count.
- `parse_message` of `peer.cpp` and the JSON it parses: its structure belongs to a JSON library that is not part of this model. The `on_*` handlers it calls are modelled with their arguments as inputs.
- `peer.cpp` `on_hello`, `on_welcome`, `on_call`, `set_methods`, `init_client`, `keep_until_disconnected` and the HWM setters: they hand work to the connection or the method list, which are not part of this model.
- The HWM branches of `peer.cpp` `send_topic_update` depend on the connection's buffer. Publishing always takes the normal send path.
- A send failure that ends the connection: sending is a log and never fails.
- `LegacyPeer.Peer.GetPeerVariable` and `LegacyPeer.Peer.GetVariable`: plain lookups, stated through `OnSetVar` and `SetVariable`.
- `LegacyPeer.Peer.StartPublish` does not capture the topic view it returns. In the source that view can dangle once the caller's string is gone.
- `LegacyPeer.Peer.BinarySend` requires an id inside the reserved range. Indexing outside it is undefined behaviour in the source.
- `LegacyNode.Node`: `on_unknown_method` names a response type the header does not declare, and `on_binary_message` depends on `calc_hash`, whose body only rethrows. Both are left out.
- `Publishing.Publisher.Publish` takes each subscriber's answer (accept, decline or throw) as the set `keeps`. A callback that re-enters the publisher is not modelled.
- `Publishing.Publisher.Subscribe` does not wrap the `size_t` counter.
- `JsPeer`: JavaScript objects are maps, so keys inherited from the prototype are not modelled. `for..in` enumerates in insertion order, with integer-like keys not moved first.
- `JsPeer`: request ids are decimals of an unbounded counter, so the loss of precision beyond 2^53 is not modelled.
- `JsPeer`: `Exception.get_code` and `get_message` are left out. They evaluate `" ".this.message` and cannot run.
- `JsPeer`: the WebSocket and Promise wiring of the constructor, `init` beyond its hello, `wait_close`, `create_ws_path`, and the awaiting of handler results are left out. Handler outcomes are inputs.
- `js/umq.js`, the WebSocket connection classes, demos and tests are not part of this model.
- `TcpFraming.TcpConnection.SendFrame`: the type `MsgFrameType` is not declared in any file available, so its kinds other than text and binary are reduced to `Other`.
- `TcpFraming.TcpConnection.Consume` stops where the source loop would spin forever: at a size byte with bit 0x80 set, or in the content stage with nothing left to read. The spin itself is not idle. In the size stage the size keeps shifting. In the content stage every pass processes an empty frame of the current type: an empty text or binary delivery, or an empty pong. `Step` states one such pass, and `ShortFrameFloods` shows the flood of empty frames. `Consume` stops before that flood.
- `TcpFraming.TcpConnection.constructor` starts connected: the header does not declare `_connected` or `_ping_sent` as the source file uses them.
- TCP: the timer, the stream read and the asynchronous write are inputs. `writeOk` is the outcome of the write, and `timedOut` says whether the read timed out.
- TCP: there is no encode/decode round trip, because the reader never consumes a size byte. `ShortFrameMisread` shows what it does instead.
- TCP: `OnRead`, `OnReadAsWritten` and `Listen` run the handler once per chunk. The source arms its read only once, which `ListenAsWritten` models.
- `TcpFraming.IdlePeerAsWritten`: runs the handler for two reads, as it runs once the read is armed again after each chunk. As written, the second timeout never reaches the handler (see `ListenAsWritten` and the first TCP finding).
- `JsPeer.Peer.SetVar`: values are strings, so three behaviours are not modelled. The `!==` comparison is by type and identity: `1` followed by `"1"`, or two distinct objects with the same text, send `S` again. And `v.toString()` throws on `null` or `undefined` before anything is stored.
- `Common.StrToL`: does not saturate. On overflow `strtol` returns `LONG_MAX` or `LONG_MIN` and `strtoul` returns `ULONG_MAX`; the model keeps the exact value. For example, the source reads "18446744073709551616 x" as the code 0xFFFFFFFF, and the model reads it as 0.

## Findings

| source | as written | input that shows it | evidently intended | confidence | as-written member | corrected member |
|---|---|---|---|---|---|---|
| src/umq/peer.cpp:473 | `rpc_callback_call` sends its frame with `cmd_rpc_call` (`C`) | any callback id and message: the receiver dispatches the frame to its RPC server instead of `process_callback_call` | `cmd_callback_call` (`B`), which `process_text_message` routes to `process_callback_call` (src/umq/peer.cpp:231-233) | high; not executed | UmqCore.CallbackCallMisrouted | UmqCore.CallbackCallRoundTrip |
| tcpconnection.cpp:23-73 | `listener_loop` arms `_stream.read()` once, and its handler never arms it again | a timed-out empty read followed by the end of the stream: a ping goes out, and the close is never read, so the listener never hears it | read again after each chunk until the connection closes, as the WebSocket connection's `recv_loop` does (wsconnection.cpp:15-31) | high; not executed | TcpFraming.PeerCloseMissedAsWritten | TcpFraming.TcpConnection.Listen |
| tcpconnection.cpp:27-33 | after a ping goes out for a timed-out empty read, `_ping_sent` is never set to true | with the read armed again after each chunk (the row above), two timed-out empty reads on a fresh connection: two pings, no close | record the ping so that the next timeout without data closes the connection | high; not executed | TcpFraming.IdlePeerAsWritten | TcpFraming.IdlePeer |
