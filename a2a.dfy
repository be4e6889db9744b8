/** The agent-to-agent envelope and server of a2a_core/a2a_server.py: the message's dict form,
    its parsing with the errors Python raises, and the handlers of the server that hosts an
    agent (`/execute_task`, `/capabilities`, `/query_tool`). The message a client builds for
    a task (a2a_core/a2a_client.py) is the `RequestMessage` constructor.

    Message fields hold whatever the sender put there, so they are `Json` values; the time at
    which a message object is built is an input. */
module A2A {
  import opened PyJson
  import opened Adk
  import opened Executor

  /** `A2AMessage`. */
  datatype Message = Message(
    messageType: Json,
    senderId: Json,
    recipientId: Json,
    payload: Json,
    correlationId: Json,
    timestamp: string)
  {
    /** `to_dict()`: the six fields under their wire names. */
    function ToDict(): (d: map<string, Json>)
      ensures d.Keys == {"message_type", "sender_id", "recipient_id", "payload", "correlation_id", "timestamp"}
      ensures d["message_type"] == messageType && d["sender_id"] == senderId
      ensures d["recipient_id"] == recipientId && d["payload"] == payload
      ensures d["correlation_id"] == correlationId && d["timestamp"] == JStr(timestamp)
    {
      map["message_type" := messageType, "sender_id" := senderId, "recipient_id" := recipientId,
          "payload" := payload, "correlation_id" := correlationId, "timestamp" := JStr(timestamp)]
    }
  }

  /** `from_dict(data)`: the four required keys are read with `[]` in order, so the first one
      missing raises its KeyError (and a value that is not a dict raises TypeError at the
      first); `correlation_id` is read with `.get` and may be absent. The new message gets
      its own timestamp. */
  function FromDict(data: Json, now: string): (r: Outcome<Message>)
    ensures r.Return? <==> data.JObj? && "message_type" in data.fields && "sender_id" in data.fields
                           && "recipient_id" in data.fields && "payload" in data.fields
    ensures r.Return? ==> r.value == Message(data.fields["message_type"], data.fields["sender_id"],
                                             data.fields["recipient_id"], data.fields["payload"],
                                             Get(data.fields, "correlation_id"), now)
    ensures !data.JObj? ==> r.Raise? && r.error.TypeError?
    ensures data.JObj? && "message_type" !in data.fields ==> r == Raise(KeyError(JStr("message_type")))
    ensures data.JObj? && "message_type" in data.fields && "sender_id" !in data.fields
            ==> r == Raise(KeyError(JStr("sender_id")))
    ensures (data.JObj? && "message_type" in data.fields && "sender_id" in data.fields
             && "recipient_id" !in data.fields) ==> r == Raise(KeyError(JStr("recipient_id")))
    ensures (data.JObj? && "message_type" in data.fields && "sender_id" in data.fields
             && "recipient_id" in data.fields && "payload" !in data.fields) ==> r == Raise(KeyError(JStr("payload")))
  {
    match Index(data, "message_type")
    case Raise(e) => Raise(e)
    case Return(messageType) =>
      match Index(data, "sender_id")
      case Raise(e) => Raise(e)
      case Return(senderId) =>
        match Index(data, "recipient_id")
        case Raise(e) => Raise(e)
        case Return(recipientId) =>
          match Index(data, "payload")
          case Raise(e) => Raise(e)
          case Return(payload) =>
            Return(Message(messageType, senderId, recipientId, payload, Get(data.fields, "correlation_id"), now))
  }

  /** Parsing a message's dict gives back every field, an absent correlation id included;
      only the timestamp is new. */
  lemma FromDictToDict(m: Message, now: string)
    ensures FromDict(JObj(m.ToDict()), now) == Return(m.(timestamp := now))
  {
  }

  /** The message `A2AClient.execute_task` sends: type "execute_task", sender the client's
      own id. */
  function RequestMessage(senderId: string, recipientId: Json, task: Json, correlationId: Json, now: string)
    : (m: Message)
    ensures m.messageType == JStr("execute_task") && m.senderId == JStr(senderId)
    ensures m.recipientId == recipientId && m.payload == task && m.correlationId == correlationId
  {
    Message(JStr("execute_task"), JStr(senderId), recipientId, task, correlationId, now)
  }

  /** The first half of the `/execute_task` handler: parse (a failure is a 400 with the
      exception's text), then accept only a message addressed to this agent. */
  function Admit(agentId: string, data: Json, now: string): (r: Outcome<Message>)
    ensures FromDict(data, now).Raise? ==>
              r == Raise(HTTPException(400, "Invalid A2A message: " + ErrorText(FromDict(data, now).error)))
    ensures FromDict(data, now).Return? && FromDict(data, now).value.recipientId != JStr(agentId) ==>
              r == Raise(HTTPException(400, "Message not intended for this agent"))
    ensures r.Return? <==> FromDict(data, now).Return? && FromDict(data, now).value.recipientId == JStr(agentId)
    ensures r.Return? ==> r == FromDict(data, now)
  {
    match FromDict(data, now)
    case Raise(e) => Raise(HTTPException(400, "Invalid A2A message: " + ErrorText(e)))
    case Return(m) =>
      if m.recipientId != JStr(agentId) then Raise(HTTPException(400, "Message not intended for this agent"))
      else Return(m)
  }

  /** The reply to an executed request: type "task_response", from this agent back to the
      request's sender, carrying the task result and the request's correlation id. */
  function Response(agentId: string, request: Message, result: TaskResult, now: string): (m: Message)
    ensures m.messageType == JStr("task_response")
    ensures m.senderId == JStr(agentId) && m.recipientId == request.senderId
    ensures m.correlationId == request.correlationId
    ensures m.payload == JObj(result.ToDict())
  {
    Message(JStr("task_response"), JStr(agentId), request.senderId, JObj(result.ToDict()), request.correlationId, now)
  }

  /** A request a client addresses to an agent is admitted by exactly that agent's server, and
      it reaches the executor unchanged. */
  lemma ClientRequestAdmitted(sender: string, recipient: string, task: Json, correlationId: Json,
                              sent: string, received: string, agentId: string)
    ensures var data := JObj(RequestMessage(sender, JStr(recipient), task, correlationId, sent).ToDict());
            (Admit(agentId, data, received).Return? <==> agentId == recipient)
            && (agentId == recipient ==> Admit(agentId, data, received).value.payload == task
                                         && Admit(agentId, data, received).value.senderId == JStr(sender))
  {
    FromDictToDict(RequestMessage(sender, JStr(recipient), task, correlationId, sent), received);
  }

  /** The `/capabilities` handler. */
  function GetCapabilities(card: AgentCard): (d: map<string, Json>)
    ensures d.Keys == {"agent_id", "capabilities", "tools"}
    ensures d["agent_id"] == JStr(card.agentId)
    ensures d["capabilities"] == JArr(Strings(card.capabilities)) && d["tools"] == JArr(Strings(card.tools))
  {
    map["agent_id" := JStr(card.agentId), "capabilities" := JArr(Strings(card.capabilities)),
        "tools" := JArr(Strings(card.tools))]
  }

  /** The capability answer lists exactly the card's capabilities and tools. */
  lemma CapabilitiesReadBack(card: AgentCard)
    ensures StringsBack(GetCapabilities(card)["capabilities"].items) == Some(card.capabilities)
    ensures StringsBack(GetCapabilities(card)["tools"].items) == Some(card.tools)
  {
    StringsRoundTrip(card.capabilities);
    StringsRoundTrip(card.tools);
  }

  /** The `/query_tool` handler: `has_tool` holds exactly when the requested name is a string
      in the card's tool list; a body that is not a dict has no `.get`. */
  function QueryTool(card: AgentCard, data: Json): (r: Outcome<map<string, Json>>)
    ensures r.Return? <==> data.JObj?
    ensures r.Return? ==> r.value.Keys == {"has_tool", "tool_name"}
                          && r.value["tool_name"] == Get(data.fields, "tool_name")
    ensures r.Return? ==> (r.value["has_tool"] == JBool(true) <==>
                             exists t :: t in card.tools && Get(data.fields, "tool_name") == JStr(t))
    ensures r.Return? ==> r.value["has_tool"].JBool?
  {
    match DictGet(data, "tool_name", JNull)
    case Raise(e) => Raise(e)
    case Return(toolName) =>
      var items := Strings(card.tools);
      assert forall t :: t in card.tools ==> JStr(t) in items by {
        forall t | t in card.tools ensures JStr(t) in items {
          var i :| 0 <= i < |card.tools| && card.tools[i] == t;
          assert items[i] == JStr(t);
        }
      }
      Return(map["has_tool" := JBool(toolName in items), "tool_name" := toolName])
  }

  /** `A2AServer`: an agent's card and the executor that runs its tasks. */
  class A2AServer {
    const card: AgentCard
    const executor: AgentExecutor

    constructor (card: AgentCard)
      ensures this.card == card && fresh(executor) && executor.agentId == card.agentId
      ensures executor.currentTask == JNull && executor.taskStatus == Pending && executor.taskHistory == []
    {
      this.card := card;
      executor := new AgentExecutor(card.agentId);
    }

    /** The `/execute_task` handler. A message that does not parse, or is addressed to another
        agent, is refused with a 400 before the executor runs. Otherwise the payload is executed
        and the reply envelope is returned. */
    method HandleExecuteTask(data: Json, init: Outcome<()>, run: Outcome<Json>, now: string)
      returns (r: Outcome<map<string, Json>>)
      modifies executor
      ensures Admit(card.agentId, data, now).Raise? ==>
                r == Raise(Admit(card.agentId, data, now).error) && unchanged(executor)
      ensures Admit(card.agentId, data, now).Return? ==>
                var request := Admit(card.agentId, data, now).value;
                var result := Settle(request.payload, init, run, now);
                r == Return(Response(card.agentId, request, result, now).ToDict())
                && executor.currentTask == request.payload && executor.taskStatus == result.status
                && executor.taskHistory == old(executor.taskHistory) + [result]
    {
      var admitted := Admit(card.agentId, data, now);
      if admitted.Raise? {
        return Raise(admitted.error);
      }
      var request := admitted.value;
      var result := executor.Execute(request.payload, init, run, now);
      var response := Response(card.agentId, request, result, now);
      r := Return(response.ToDict());
    }

    /** The `/status` handler. */
    method HandleStatus() returns (d: map<string, Json>)
      ensures d.Keys == {"agent_id", "task_status", "current_task", "history_count"}
      ensures d["task_status"] == JStr(executor.taskStatus.Name())
      ensures d["history_count"] == JInt(|executor.taskHistory|)
      ensures d["agent_id"] == JStr(executor.agentId)
      ensures d["current_task"] == executor.currentTask
    {
      d := executor.GetStatus();
    }
  }
}
