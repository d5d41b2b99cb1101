/** The older C++ peer (peer.cpp): call, subscription and topic tables,
    the two variable maps with change-only synchronisation, the disconnect
    cleanup, and the deque of reserved binary messages. */
module LegacyPeer {
  import opened Common
  import opened Requests
  import opened LegacyWire

  // ---------------------------------------------------------------------
  // What on_disconnect calls

  /** Each topic whose unsubscribe request is set has that request called
      once, and nothing else is called. */
  ghost predicate TopicNotices(tpcs: map<string, Option<nat>>, log: seq<Invocation>)
  {
    (forall i | 0 <= i < |log| ::
       log[i].UnsubscribeCalled? && log[i].topic in tpcs && tpcs[log[i].topic] == Some(log[i].request))
    && (forall t | t in tpcs && tpcs[t].Some? :: exists i | 0 <= i < |log| :: log[i].topic == t)
    && (forall i, j | 0 <= i < j < |log| :: log[i].topic != log[j].topic)
  }

  /** Each pending binary callback is called once with `false` and no data. */
  ghost predicate BinaryNotices(bcmp: map<nat, nat>, log: seq<Invocation>)
  {
    (forall i | 0 <= i < |log| ::
       log[i].BinaryCalled? && !log[i].ok && log[i].content == ""
       && log[i].binaryId in bcmp && bcmp[log[i].binaryId] == log[i].binaryCallback)
    && (forall id | id in bcmp :: exists i | 0 <= i < |log| :: log[i].binaryId == id)
    && (forall i, j | 0 <= i < j < |log| :: log[i].binaryId != log[j].binaryId)
  }

  /** The topic notices, then the binary notices. */
  ghost predicate DisconnectNotices(tpcs: map<string, Option<nat>>, bcmp: map<nat, nat>, log: seq<Invocation>)
  {
    exists k | 0 <= k <= |log| :: TopicNotices(tpcs, log[..k]) && BinaryNotices(bcmp, log[k..])
  }

  /** The loop over the detached topic map. */
  method NotifyTopics(tpcs: map<string, Option<nat>>) returns (log: seq<Invocation>)
    ensures TopicNotices(tpcs, log)
  {
    log := [];
    var pending := tpcs.Keys;
    while pending != {}
      invariant pending <= tpcs.Keys
      invariant forall i | 0 <= i < |log| ::
        log[i].UnsubscribeCalled? && log[i].topic in tpcs && log[i].topic !in pending
        && tpcs[log[i].topic] == Some(log[i].request)
      invariant forall t | t in tpcs && t !in pending && tpcs[t].Some? ::
        exists i | 0 <= i < |log| :: log[i].topic == t
      invariant forall i, j | 0 <= i < j < |log| :: log[i].topic != log[j].topic
      decreases pending
    {
      var t :| t in pending;
      ghost var before := log;
      if tpcs[t].Some? {
        log := log + [UnsubscribeCalled(t, tpcs[t].value)];
      }
      pending := pending - {t};
      forall x | x in tpcs && x !in pending && tpcs[x].Some?
        ensures exists i | 0 <= i < |log| :: log[i].topic == x
      {
        if x == t {
          assert log[|log| - 1].topic == x;
        } else {
          var k :| 0 <= k < |before| && before[k].topic == x;
          assert log[k] == before[k];
        }
      }
    }
  }

  /** The loop over the detached binary callbacks. */
  method NotifyBinary(bcmp: map<nat, nat>) returns (log: seq<Invocation>)
    ensures BinaryNotices(bcmp, log)
  {
    log := [];
    var pending := bcmp.Keys;
    while pending != {}
      invariant pending <= bcmp.Keys
      invariant forall i | 0 <= i < |log| ::
        log[i].BinaryCalled? && !log[i].ok && log[i].content == ""
        && log[i].binaryId in bcmp && log[i].binaryId !in pending
        && bcmp[log[i].binaryId] == log[i].binaryCallback
      invariant forall id | id in bcmp && id !in pending :: exists i | 0 <= i < |log| :: log[i].binaryId == id
      invariant forall i, j | 0 <= i < j < |log| :: log[i].binaryId != log[j].binaryId
      decreases pending
    {
      var id :| id in pending;
      ghost var before := log;
      log := log + [BinaryCalled(id, bcmp[id], false, "")];
      pending := pending - {id};
      forall x | x in bcmp && x !in pending
        ensures exists i | 0 <= i < |log| :: log[i].binaryId == x
      {
        if x == id {
          assert log[|log| - 1].binaryId == x;
        } else {
          var k :| 0 <= k < |before| && before[k].binaryId == x;
          assert log[k] == before[k];
        }
      }
    }
  }

  // ---------------------------------------------------------------------
  // Reserved binary messages

  /** What binary_flush sends, in order: the filled slots at the back of
      the deque, up to the first empty one. */
  function FlushOrder(res: seq<Option<string>>): (out: seq<Outbound>)
    ensures |out| <= |res|
  {
    if |res| > 0 && res[|res| - 1].Some? then [Binary(res[|res| - 1].value)] + FlushOrder(res[..|res| - 1])
    else []
  }

  /** Taking one filled slot off the back moves its data from what is
      still to be flushed to what has been. */
  lemma FlushPop(orig: seq<Option<string>>, res: seq<Option<string>>, done: seq<Outbound>)
    requires 0 < |res| <= |orig| && res[|res| - 1].Some? && res == orig[..|res|]
    requires FlushOrder(orig) == done + FlushOrder(res)
    ensures res[..|res| - 1] == orig[..|res| - 1]
    ensures FlushOrder(orig)
         == (done + [Binary(res[|res| - 1].value)]) + FlushOrder(res[..|res| - 1])
  {
    var x := Binary(res[|res| - 1].value);
    var rest := res[..|res| - 1];
    assert FlushOrder(res) == [x] + FlushOrder(rest);
    assert done + ([x] + FlushOrder(rest)) == (done + [x]) + FlushOrder(rest);
  }

  /** The i-th slot counted from the back of the deque. */
  function Back(res: seq<Option<string>>, i: nat): Option<string>
    requires i < |res|
  {
    res[|res| - 1 - i]
  }

  /** The i-th message flushed is the content of the i-th slot from the back,
      and the slot just before the flushed run is empty (or absent). */
  lemma {:induction false} FlushOrderSlots(res: seq<Option<string>>)
    ensures forall i | 0 <= i < |FlushOrder(res)| ::
      Back(res, i).Some? && FlushOrder(res)[i] == Binary(Back(res, i).value)
    ensures |FlushOrder(res)| < |res| ==> Back(res, |FlushOrder(res)|).None?
    decreases |res|
  {
    if |res| > 0 && res[|res| - 1].Some? {
      var rest := res[..|res| - 1];
      FlushOrderSlots(rest);
      assert FlushOrder(res) == [Binary(res[|res| - 1].value)] + FlushOrder(rest);
      forall i | 0 <= i < |FlushOrder(res)|
        ensures Back(res, i).Some? && FlushOrder(res)[i] == Binary(Back(res, i).value)
      {
        if i > 0 {
          assert FlushOrder(res)[i] == FlushOrder(rest)[i - 1];
          assert Back(rest, i - 1) == Back(res, i);
        }
      }
      if |FlushOrder(res)| < |res| {
        assert Back(rest, |FlushOrder(rest)|) == Back(res, |FlushOrder(res)|);
      }
    }
  }

  class Peer {
    /** Whether `_conn` is set. */
    var connected: bool
    var callId: Counter
    /** `_call_map`: call id to the response callback. */
    var callMap: map<string, nat>
    /** `_subscr_map`: topic to the update handler. */
    var subscrMap: map<string, nat>
    /** `_topic_map`: published topic to its unsubscribe request, if set. */
    var topicMap: map<string, Option<nat>>
    /** `_var_map`: the variables the remote side has set. */
    var varMap: map<string, Value>
    /** `_local_var_map`: the variables this side has set. */
    var localVarMap: map<string, Value>
    var discntCb: Option<nat>
    /** `_bin_cbs`: binary message order number to its content callback. */
    var binCbs: map<nat, nat>
    /** `_bin_res`: reserved binary messages; index 0 is the front. */
    var binRes: seq<Option<string>>
    var sendBinOrder: nat
    var sent: seq<Outbound>
    var invocations: seq<Invocation>

    /** A peer whose init_server or init_client attached a connection
        (`connected`) or that was never initialized. */
    constructor(connected: bool)
      ensures this.connected == connected && callId == 0
      ensures callMap == map[] && subscrMap == map[] && topicMap == map[]
      ensures varMap == map[] && localVarMap == map[] && binCbs == map[]
      ensures discntCb == None && binRes == [] && sendBinOrder == 0
      ensures sent == [] && invocations == []
    {
      this.connected := connected;
      callId := 0;
      callMap := map[];
      subscrMap := map[];
      topicMap := map[];
      varMap := map[];
      localVarMap := map[];
      discntCb := None;
      binCbs := map[];
      binRes := [];
      sendBinOrder := 0;
      sent := [];
      invocations := [];
    }

    /** Peer::call: disconnected, the callback gets `disconnected` at once;
        otherwise it is stored under the next call id and the call is sent. */
    method Call(methodName: string, params: Value, callback: nat) returns (id: Option<string>)
      modifies this`callId, this`callMap, this`sent, this`invocations
      ensures !connected ==> id == None && callId == old(callId) && callMap == old(callMap) && sent == old(sent)
      ensures !connected ==>
        invocations == old(invocations) + [Responded(callback, Response(DisconnectedType, Undefined))]
      ensures connected ==> id == Some(CallIdText(old(callId))) && invocations == old(invocations)
      ensures connected ==> callId == (old(callId) + 1) % CounterModulus
      ensures connected ==> callMap == old(callMap)[id.value := callback]
      ensures connected ==> sent == old(sent) + [PrepareMessage('C', id.value, [Str(methodName), params])]
    {
      if !connected {
        invocations := invocations + [Responded(callback, Response(DisconnectedType, Undefined))];
        return None;
      }
      var idstr := CallIdText(callId);
      callId := (callId + 1) % CounterModulus;
      callMap := callMap[idstr := callback];
      sent := sent + [PrepareMessage('C', idstr, [Str(methodName), params])];
      id := Some(idstr);
    }

    /** subscribe: `emplace`, so a topic already subscribed keeps its handler. */
    method Subscribe(topic: string, handler: nat)
      modifies this`subscrMap
      ensures topic in old(subscrMap) ==> subscrMap == old(subscrMap)
      ensures topic !in old(subscrMap) ==> subscrMap == old(subscrMap)[topic := handler]
    {
      if topic !in subscrMap {
        subscrMap := subscrMap[topic := handler];
      }
    }

    /** start_publish: while connected the topic is registered (keeping an
        existing entry) and a live publish function is returned; otherwise
        a function that always answers false. */
    method StartPublish(topic: string) returns (f: PublishFn)
      modifies this`topicMap
      ensures connected ==> f == Live(topic)
      ensures connected && topic !in old(topicMap) ==> topicMap == old(topicMap)[topic := None]
      ensures !connected || topic in old(topicMap) ==> topicMap == old(topicMap)
      ensures !connected ==> f == Inert
    {
      if connected {
        if topic !in topicMap {
          topicMap := topicMap[topic := None];
        }
        f := Live(topic);
      } else {
        f := Inert;
      }
    }

    /** Calling the function start_publish returned, below the high water
        mark: defined data on a registered topic is sent as a topic update
        (true only when connected); undefined data on a registered topic
        sends the topic close (when connected) and answers true; an
        unregistered topic answers false. */
    method InvokePublish(f: PublishFn, data: Value) returns (ok: bool)
      modifies this`sent
      ensures ok <==> f.Live? && f.topic in topicMap && (connected || !Defined(data))
      ensures f.Live? && f.topic in topicMap && connected ==>
        sent == old(sent) + [if Defined(data) then PrepareMessage1('T', f.topic, data) else PrepareMessage('N', f.topic, [])]
      ensures !(f.Live? && f.topic in topicMap && connected) ==> sent == old(sent)
    {
      if f.Inert? || f.topic !in topicMap {
        return false;
      }
      if Defined(data) {
        if !connected {
          return false;
        }
        sent := sent + [PrepareMessage1('T', f.topic, data)];
        ok := true;
      } else {
        if connected {
          sent := sent + [PrepareMessage('N', f.topic, [])];
        }
        ok := true;
      }
    }

    /** on_unsubscribe(topic, cb): stores the request for a registered topic. */
    method OnUnsubscribeRequest(topic: string, request: nat) returns (ok: bool)
      modifies this`topicMap
      ensures ok <==> topic in old(topicMap)
      ensures ok ==> topicMap == old(topicMap)[topic := Some(request)]
      ensures !ok ==> topicMap == old(topicMap)
    {
      if topic in topicMap {
        topicMap := topicMap[topic := Some(request)];
        ok := true;
      } else {
        ok := false;
      }
    }

    /** on_unsubscribe(topic): the remote side no longer wants the topic;
        the entry is erased and its request, if set, is called. */
    method OnUnsubscribe(topic: string)
      modifies this`topicMap, this`invocations
      ensures topicMap == old(topicMap) - {topic}
      ensures topic in old(topicMap) && old(topicMap)[topic].Some? ==>
        invocations == old(invocations) + [UnsubscribeCalled(topic, old(topicMap)[topic].value)]
      ensures !(topic in old(topicMap) && old(topicMap)[topic].Some?) ==> invocations == old(invocations)
    {
      if topic in topicMap {
        var req := topicMap[topic];
        topicMap := topicMap - {topic};
        if req.Some? {
          invocations := invocations + [UnsubscribeCalled(topic, req.value)];
        }
      }
    }

    /** unsubscribe: a subscribed topic is erased and "U" is sent (when
        connected); anything else changes nothing. */
    method Unsubscribe(topic: string)
      modifies this`subscrMap, this`sent
      ensures subscrMap == old(subscrMap) - {topic}
      ensures sent == old(sent) + (if topic in old(subscrMap) && connected then [PrepareMessage('U', topic, [])] else [])
    {
      if topic in subscrMap {
        if connected {
          sent := sent + [PrepareMessage('U', topic, [])];
        }
        subscrMap := subscrMap - {topic};
      }
    }

    /** on_topic_update: the handler of a subscribed topic is called with the
        data; if it answers false (`keep` is false) the topic is unsubscribed.
        The result tells whether the topic was subscribed. */
    method OnTopicUpdate(topic: string, data: Value, keep: bool) returns (found: bool)
      modifies this`subscrMap, this`sent, this`invocations
      ensures found <==> topic in old(subscrMap)
      ensures found ==> invocations == old(invocations) + [TopicHandlerCalled(old(subscrMap)[topic], data)]
      ensures !found ==> invocations == old(invocations)
      ensures found && !keep ==> subscrMap == old(subscrMap) - {topic}
      ensures found && !keep ==> sent == old(sent) + (if connected then [PrepareMessage('U', topic, [])] else [])
      ensures !found || keep ==> subscrMap == old(subscrMap) && sent == old(sent)
    {
      if topic !in subscrMap {
        return false;
      }
      invocations := invocations + [TopicHandlerCalled(subscrMap[topic], data)];
      if !keep {
        Unsubscribe(topic);
      }
      found := true;
    }

    /** on_topic_close: the handler sees undefined data, then the topic is
        unsubscribed; either way exactly one "U" goes out for a subscribed
        topic while connected. */
    method OnTopicClose(topic: string, keep: bool)
      modifies this`subscrMap, this`sent, this`invocations
      ensures subscrMap == old(subscrMap) - {topic}
      ensures topic in old(subscrMap) ==>
        invocations == old(invocations) + [TopicHandlerCalled(old(subscrMap)[topic], Undefined)]
      ensures topic !in old(subscrMap) ==> invocations == old(invocations)
      ensures sent == old(sent) + (if topic in old(subscrMap) && connected then [PrepareMessage('U', topic, [])] else [])
    {
      var _ := OnTopicUpdate(topic, Undefined, keep);
      Unsubscribe(topic);
    }

    /** on_set_var: a defined value is stored, undefined erases the name. */
    method OnSetVar(name: string, data: Value)
      modifies this`varMap
      ensures GetPeerVariable(name) == data
      ensures Defined(data) ==> varMap == old(varMap)[name := data]
      ensures !Defined(data) ==> varMap == old(varMap) - {name}
    {
      if Defined(data) {
        varMap := varMap[name := data];
      } else {
        varMap := varMap - {name};
      }
    }

    /** get_peer_variable: undefined for a name the remote side has not set. */
    function GetPeerVariable(name: string): Value
      reads this`varMap
    {
      if name in varMap then varMap[name] else Undefined
    }

    /** get_variable: undefined for a name this side has not set. */
    function GetVariable(name: string): Value
      reads this`localVarMap
    {
      if name in localVarMap then localVarMap[name] else Undefined
    }

    /** set_variable: a new name or a changed value is stored and sent as
        "S"; setting the value a name already has sends nothing. */
    method SetVariable(name: string, value: Value)
      modifies this`localVarMap, this`sent
      ensures localVarMap == old(localVarMap)[name := value]
      ensures GetVariable(name) == value
      ensures sent == old(sent)
        + (if (name !in old(localVarMap) || old(localVarMap)[name] != value) && connected
           then [PrepareMessage1('S', name, value)] else [])
    {
      if name !in localVarMap {
        localVarMap := localVarMap[name := value];
        if connected {
          sent := sent + [PrepareMessage1('S', name, value)];
        }
      } else if localVarMap[name] != value {
        if connected {
          sent := sent + [PrepareMessage1('S', name, value)];
        }
        localVarMap := localVarMap[name := value];
      }
    }

    /** finish_call: the callback stored under `id` is taken out of the
        table and called once with the response; an unknown id is ignored. */
    method FinishCall(id: string, t: ResponseType, data: Value)
      modifies this`callMap, this`invocations
      ensures callMap == old(callMap) - {id}
      ensures id in old(callMap) ==> invocations == old(invocations) + [Responded(old(callMap)[id], Response(t, data))]
      ensures id !in old(callMap) ==> invocations == old(invocations)
    {
      if id in callMap {
        var cb := callMap[id];
        callMap := callMap - {id};
        invocations := invocations + [Responded(cb, Response(t, data))];
      }
    }

    method OnResult(id: string, data: Value)
      modifies this`callMap, this`invocations
      ensures callMap == old(callMap) - {id}
      ensures id in old(callMap) ==> invocations == old(invocations) + [Responded(old(callMap)[id], Response(ResultType, data))]
      ensures id !in old(callMap) ==> invocations == old(invocations)
    {
      FinishCall(id, ResultType, data);
    }

    /** on_exception reports the exception with the `result` type tag. */
    method OnException(id: string, data: Value)
      modifies this`callMap, this`invocations
      ensures callMap == old(callMap) - {id}
      ensures id in old(callMap) ==> invocations == old(invocations) + [Responded(old(callMap)[id], Response(ResultType, data))]
      ensures id !in old(callMap) ==> invocations == old(invocations)
    {
      FinishCall(id, ResultType, data);
    }

    /** on_unknown_method: an execute error carrying the method name. */
    method OnUnknownMethod(id: string, methodName: string)
      modifies this`callMap, this`invocations
      ensures callMap == old(callMap) - {id}
      ensures id in old(callMap) ==>
        invocations == old(invocations) + [Responded(old(callMap)[id], Response(ExecuteErrorType, Str(methodName)))]
      ensures id !in old(callMap) ==> invocations == old(invocations)
    {
      FinishCall(id, ExecuteErrorType, Str(methodName));
    }

    /** on_disconnect(cb): replaces the disconnect handler. */
    method SetDisconnectHandler(callback: nat)
      modifies this`discntCb
      ensures discntCb == Some(callback)
    {
      discntCb := Some(callback);
    }

    /** binary_receive: `emplace`, so a registered order number keeps its callback. */
    method BinaryReceive(id: nat, callback: nat)
      modifies this`binCbs
      ensures id in old(binCbs) ==> binCbs == old(binCbs)
      ensures id !in old(binCbs) ==> binCbs == old(binCbs)[id := callback]
    {
      if id !in binCbs {
        binCbs := binCbs[id := callback];
      }
    }

    /** on_disconnect(): only while connected, the connection is dropped and
        the disconnect handler, the topic table and the binary callbacks are
        detached and notified.  The call table is never detached: its local
        copy stays empty, so pending calls are neither answered nor erased.
        A second call does nothing. */
    method OnDisconnect()
      modifies this`connected, this`discntCb, this`topicMap, this`binCbs, this`invocations
      ensures !connected
      ensures callMap == old(callMap)
      ensures old(connected) ==> discntCb == None && topicMap == map[] && binCbs == map[]
      ensures old(connected) ==>
        var pre := old(invocations) + (if old(discntCb).Some? then [DisconnectCalled(old(discntCb).value)] else []);
        |pre| <= |invocations| && invocations[..|pre|] == pre
        && DisconnectNotices(old(topicMap), old(binCbs), invocations[|pre|..])
      ensures !old(connected) ==>
        discntCb == old(discntCb) && topicMap == old(topicMap) && binCbs == old(binCbs) && invocations == old(invocations)
    {
      if !connected {
        return;
      }
      connected := false;
      var cb := discntCb;
      discntCb := None;
      var tpcs := topicMap;
      topicMap := map[];
      var bcmp := binCbs;
      binCbs := map[];
      if cb.Some? {
        invocations := invocations + [DisconnectCalled(cb.value)];
      }
      ghost var pre := invocations;
      var topicLog := NotifyTopics(tpcs);
      var binaryLog := NotifyBinary(bcmp);
      invocations := invocations + topicLog + binaryLog;
      assert invocations[..|pre|] == pre;
      assert invocations[|pre|..][..|topicLog|] == topicLog;
      assert invocations[|pre|..][|topicLog|..] == binaryLog;
    }

    /** binary_reserve_id: an empty slot at the front of the deque; its id
        is the order number of the slot at the back plus the deque's length
        minus one. */
    method BinaryReserveId() returns (id: nat)
      modifies this`binRes
      ensures binRes == [None] + old(binRes)
      ensures id == sendBinOrder + |old(binRes)|
    {
      binRes := [None] + binRes;
      id := sendBinOrder + |binRes| - 1;
    }

    /** binary_flush: filled slots are taken from the back and sent (when
        connected) until the back slot is empty, each advancing the send
        order number. */
    method BinaryFlush()
      modifies this`binRes, this`sendBinOrder, this`sent
      ensures var k := |FlushOrder(old(binRes))|;
        binRes == old(binRes)[..|old(binRes)| - k] && sendBinOrder == old(sendBinOrder) + k
      ensures binRes == [] || binRes[|binRes| - 1].None?
      ensures sent == old(sent) + (if connected then FlushOrder(old(binRes)) else [])
    {
      ghost var orig := binRes;
      ghost var done: seq<Outbound> := [];
      while |binRes| > 0 && binRes[|binRes| - 1].Some?
        invariant |binRes| + |done| == |orig|
        invariant binRes == orig[..|binRes|]
        invariant FlushOrder(orig) == done + FlushOrder(binRes)
        invariant sendBinOrder == old(sendBinOrder) + |done|
        invariant sent == old(sent) + (if connected then done else [])
        decreases |binRes|
      {
        var data := binRes[|binRes| - 1].value;
        FlushPop(orig, binRes, done);
        if connected {
          sent := sent + [Binary(data)];
        }
        sendBinOrder := sendBinOrder + 1;
        binRes := binRes[..|binRes| - 1];
        done := done + [Binary(data)];
      }
    }

    /** binary_send: the slot `id - _send_bin_order` counted from the front
        is filled, then the deque is flushed.  The caller must pass an id
        whose slot is still in the deque. */
    method BinarySend(id: nat, data: string)
      requires sendBinOrder <= id < sendBinOrder + |binRes|
      modifies this`binRes, this`sendBinOrder, this`sent
      ensures var filled := old(binRes)[id - old(sendBinOrder) := Some(data)];
        var k := |FlushOrder(filled)|;
        binRes == filled[..|filled| - k] && sendBinOrder == old(sendBinOrder) + k
        && sent == old(sent) + (if connected then FlushOrder(filled) else [])
    {
      binRes := binRes[id - sendBinOrder := Some(data)];
      BinaryFlush();
    }
  }

  /** Two reservations on an idle peer, then the second one's data: it is
      written into the back slot, which belongs to the first reservation,
      so it goes out at once, ahead of the first reservation's data, and
      the first reservation's id is no longer in the deque. */
  method ReservedOutOfOrder(data: string) returns (first: nat, second: nat, sent: seq<Outbound>, order: nat, pending: nat)
    ensures first == 0 && second == 1
    ensures sent == [Binary(data)]
    ensures order == 1 && pending == 1
    ensures first < order
  {
    var p := new Peer(true);
    first := p.BinaryReserveId();
    second := p.BinaryReserveId();
    p.BinarySend(second, data);
    sent := p.sent;
    order := p.sendBinOrder;
    pending := |p.binRes|;
  }

  /** Peer::BinaryMessage: a reserved slot and a weak reference to its peer
      (null once the message was sent, moved away, or the peer is gone). */
  class BinaryMessage {
    var peer: Peer?
    var id: nat

    /** Reserves a slot on the peer. */
    constructor(p: Peer)
      modifies p`binRes
      ensures peer == p && id == p.sendBinOrder + |old(p.binRes)|
      ensures p.binRes == [None] + old(p.binRes)
    {
      var reserved := p.BinaryReserveId();
      peer := p;
      id := reserved;
    }

    /** The move constructor: the reference moves, the source is left empty. */
    constructor Moved(other: BinaryMessage)
      modifies other`peer
      ensures peer == old(other.peer) && id == other.id && other.peer == null
    {
      peer := other.peer;
      id := other.id;
      other.peer := null;
    }

    /** Move assignment: a message still holding its peer first releases its
        own slot with empty data, then takes over the other's reference. */
    method Assign(other: BinaryMessage)
      requires other != this && peer != null ==> peer.sendBinOrder <= id < peer.sendBinOrder + |peer.binRes|
      modifies this`peer, this`id, other`peer, if peer != null then {peer} else {}
      ensures other == this ==> peer == old(peer) && id == old(id)
      ensures other != this ==> peer == old(other.peer) && id == old(other.id) && other.peer == null
      ensures other != this && old(peer) != null ==>
        var p := old(peer);
        var filled := old(p.binRes)[old(id) - old(p.sendBinOrder) := Some("")];
        var k := |FlushOrder(filled)|;
        p.binRes == filled[..|filled| - k] && p.sendBinOrder == old(p.sendBinOrder) + k
        && p.sent == old(p.sent) + (if p.connected then FlushOrder(filled) else [])
    {
      if other != this {
        if peer != null {
          peer.BinarySend(id, "");
        }
        peer := other.peer;
        id := other.id;
        other.peer := null;
      }
    }

    /** send: delivers the data once and drops the peer reference. */
    method Send(data: string)
      requires peer != null ==> peer.sendBinOrder <= id < peer.sendBinOrder + |peer.binRes|
      modifies this`peer, if peer != null then {peer} else {}
      ensures peer == null
      ensures old(peer) != null ==>
        var p := old(peer);
        var filled := old(p.binRes)[id - old(p.sendBinOrder) := Some(data)];
        var k := |FlushOrder(filled)|;
        p.binRes == filled[..|filled| - k] && p.sendBinOrder == old(p.sendBinOrder) + k
        && p.sent == old(p.sent) + (if p.connected then FlushOrder(filled) else [])
    {
      if peer != null {
        peer.BinarySend(id, data);
        peer := null;
      }
    }

    /** The destructor: a message never sent releases its slot with empty data. */
    method Release()
      requires peer != null ==> peer.sendBinOrder <= id < peer.sendBinOrder + |peer.binRes|
      modifies if peer != null then {peer} else {}
      ensures old(peer) != null ==>
        var p := old(peer);
        var filled := old(p.binRes)[id - old(p.sendBinOrder) := Some("")];
        var k := |FlushOrder(filled)|;
        p.binRes == filled[..|filled| - k] && p.sendBinOrder == old(p.sendBinOrder) + k
        && p.sent == old(p.sent) + (if p.connected then FlushOrder(filled) else [])
    {
      if peer != null {
        peer.BinarySend(id, "");
      }
    }
  }
}
