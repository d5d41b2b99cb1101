/** The older C++ node (node.cpp): the call, subscription and topic tables
    of AbstractNode's subclass.  The node always talks to a connection; it
    has no disconnected state. */
module LegacyNode {
  import opened Common
  import opened Requests
  import opened LegacyWire

  class Node {
    var callId: Counter
    /** `_call_map`: call id to the response callback. */
    var callMap: map<string, nat>
    /** `_subscr_map`: topic to the update handler. */
    var subscrMap: map<string, nat>
    /** `_topic_map`: published topic to its unsubscribe request, if set. */
    var topicMap: map<string, Option<nat>>
    /** `_hash_map`: expected binary content hash to its callback. */
    var hashMap: map<string, nat>
    var sent: seq<Outbound>
    var invocations: seq<Invocation>

    /** A node after init_server or init_client attached its connection. */
    constructor()
      ensures callId == 0 && callMap == map[] && subscrMap == map[] && topicMap == map[]
      ensures hashMap == map[] && sent == [] && invocations == []
    {
      callId := 0;
      callMap := map[];
      subscrMap := map[];
      topicMap := map[];
      hashMap := map[];
      sent := [];
      invocations := [];
    }

    /** Node::call: the callback is stored under the next call id before
        the call is sent; there is no connectivity check. */
    method Call(methodName: string, params: Value, callback: nat) returns (id: string)
      modifies this`callId, this`callMap, this`sent
      ensures id == CallIdText(old(callId))
      ensures callId == (old(callId) + 1) % CounterModulus
      ensures callMap == old(callMap)[id := callback]
      ensures sent == old(sent) + [PrepareMessage('C', id, [Str(methodName), params])]
    {
      id := CallIdText(callId);
      callId := (callId + 1) % CounterModulus;
      callMap := callMap[id := callback];
      sent := sent + [PrepareMessage('C', id, [Str(methodName), params])];
    }

    /** subscribe: `emplace`, so a topic already subscribed keeps its handler. */
    method Subscribe(topic: string, handler: nat)
      modifies this`subscrMap
      ensures topic in old(subscrMap) ==> subscrMap == old(subscrMap)
      ensures topic !in old(subscrMap) ==> subscrMap == old(subscrMap)[topic := handler]
    {
      if topic !in subscrMap {
        subscrMap := subscrMap[topic := handler];
      }
    }

    /** start_publish: registers the topic (keeping an existing entry) and
        returns the publish function bound to it. */
    method StartPublish(topic: string) returns (f: PublishFn)
      modifies this`topicMap
      ensures f == Live(topic)
      ensures topic !in old(topicMap) ==> topicMap == old(topicMap)[topic := None]
      ensures topic in old(topicMap) ==> topicMap == old(topicMap)
    {
      if topic !in topicMap {
        topicMap := topicMap[topic := None];
      }
      f := Live(topic);
    }

    /** Calling the publish function: for a registered topic, defined data
        is sent as a topic update and undefined data as the topic close,
        both answering true; an unregistered topic answers false. */
    method InvokePublish(f: PublishFn, data: Value) returns (ok: bool)
      modifies this`sent
      ensures ok <==> f.Live? && f.topic in topicMap
      ensures ok ==> sent == old(sent) + [if Defined(data) then PrepareMessage1('T', f.topic, data) else PrepareMessage('N', f.topic, [])]
      ensures !ok ==> sent == old(sent)
    {
      if f.Inert? || f.topic !in topicMap {
        return false;
      }
      if Defined(data) {
        sent := sent + [PrepareMessage1('T', f.topic, data)];
      } else {
        sent := sent + [PrepareMessage('N', f.topic, [])];
      }
      ok := true;
    }

    /** on_unsubscribe(topic, cb): stores the request for a registered topic. */
    method OnUnsubscribeRequest(topic: string, request: nat) returns (ok: bool)
      modifies this`topicMap
      ensures ok <==> topic in old(topicMap)
      ensures ok ==> topicMap == old(topicMap)[topic := Some(request)]
      ensures !ok ==> topicMap == old(topicMap)
    {
      if topic in topicMap {
        topicMap := topicMap[topic := Some(request)];
        ok := true;
      } else {
        ok := false;
      }
    }

    /** on_unsubscribe(topic): the entry is erased and its request, if set,
        is called with the topic. */
    method OnUnsubscribe(topic: string)
      modifies this`topicMap, this`invocations
      ensures topicMap == old(topicMap) - {topic}
      ensures topic in old(topicMap) && old(topicMap)[topic].Some? ==>
        invocations == old(invocations) + [UnsubscribeCalled(topic, old(topicMap)[topic].value)]
      ensures !(topic in old(topicMap) && old(topicMap)[topic].Some?) ==> invocations == old(invocations)
    {
      if topic in topicMap {
        var req := topicMap[topic];
        topicMap := topicMap - {topic};
        if req.Some? {
          invocations := invocations + [UnsubscribeCalled(topic, req.value)];
        }
      }
    }

    /** unsubscribe: "U" is sent and the topic erased only when subscribed. */
    method Unsubscribe(topic: string)
      modifies this`subscrMap, this`sent
      ensures subscrMap == old(subscrMap) - {topic}
      ensures sent == old(sent) + (if topic in old(subscrMap) then [PrepareMessage('U', topic, [])] else [])
    {
      if topic in subscrMap {
        sent := sent + [PrepareMessage('U', topic, [])];
        subscrMap := subscrMap - {topic};
      }
    }

    /** on_topic_update: the handler is called; answering false (`keep`
        false) unsubscribes.  The result tells whether the topic was subscribed. */
    method OnTopicUpdate(topic: string, data: Value, keep: bool) returns (found: bool)
      modifies this`subscrMap, this`sent, this`invocations
      ensures found <==> topic in old(subscrMap)
      ensures found ==> invocations == old(invocations) + [TopicHandlerCalled(old(subscrMap)[topic], data)]
      ensures !found ==> invocations == old(invocations)
      ensures found && !keep ==> subscrMap == old(subscrMap) - {topic} && sent == old(sent) + [PrepareMessage('U', topic, [])]
      ensures !found || keep ==> subscrMap == old(subscrMap) && sent == old(sent)
    {
      if topic !in subscrMap {
        return false;
      }
      invocations := invocations + [TopicHandlerCalled(subscrMap[topic], data)];
      if !keep {
        Unsubscribe(topic);
      }
      found := true;
    }

    /** on_topic_close: the handler sees undefined data, then the topic is
        unsubscribed, with exactly one "U" for a subscribed topic. */
    method OnTopicClose(topic: string, keep: bool)
      modifies this`subscrMap, this`sent, this`invocations
      ensures subscrMap == old(subscrMap) - {topic}
      ensures topic in old(subscrMap) ==>
        invocations == old(invocations) + [TopicHandlerCalled(old(subscrMap)[topic], Undefined)]
      ensures topic !in old(subscrMap) ==> invocations == old(invocations)
      ensures sent == old(sent) + (if topic in old(subscrMap) then [PrepareMessage('U', topic, [])] else [])
    {
      var _ := OnTopicUpdate(topic, Undefined, keep);
      Unsubscribe(topic);
    }

    /** finish_call: the stored callback is taken out and called once; an
        unknown id is ignored. */
    method FinishCall(id: string, t: ResponseType, data: Value)
      modifies this`callMap, this`invocations
      ensures callMap == old(callMap) - {id}
      ensures id in old(callMap) ==> invocations == old(invocations) + [Responded(old(callMap)[id], Response(t, data))]
      ensures id !in old(callMap) ==> invocations == old(invocations)
    {
      if id in callMap {
        var cb := callMap[id];
        callMap := callMap - {id};
        invocations := invocations + [Responded(cb, Response(t, data))];
      }
    }

    method OnResult(id: string, data: Value)
      modifies this`callMap, this`invocations
      ensures callMap == old(callMap) - {id}
      ensures id in old(callMap) ==> invocations == old(invocations) + [Responded(old(callMap)[id], Response(ResultType, data))]
      ensures id !in old(callMap) ==> invocations == old(invocations)
    {
      FinishCall(id, ResultType, data);
    }

    /** on_exception reports the exception with the `result` type tag. */
    method OnException(id: string, data: Value)
      modifies this`callMap, this`invocations
      ensures callMap == old(callMap) - {id}
      ensures id in old(callMap) ==> invocations == old(invocations) + [Responded(old(callMap)[id], Response(ResultType, data))]
      ensures id !in old(callMap) ==> invocations == old(invocations)
    {
      FinishCall(id, ResultType, data);
    }

    /** expect_binary: `emplace`, so an expected hash keeps its first callback. */
    method ExpectBinary(hash: string, callback: nat)
      modifies this`hashMap
      ensures hash in old(hashMap) ==> hashMap == old(hashMap)
      ensures hash !in old(hashMap) ==> hashMap == old(hashMap)[hash := callback]
    {
      if hash !in hashMap {
        hashMap := hashMap[hash := callback];
      }
    }
  }
}
