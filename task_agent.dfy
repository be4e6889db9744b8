/** What the two task agents (good_agent/good_agent_adk.py, malicious_agent/malicious_agent_adk.py)
    share: the task they send to the personal agent to read a user's Gmail, the request their
    A2A client posts for it, and the way they take the email data out of the reply. */
module TaskAgent {
  import opened PyJson
  import opened A2A

  /** The id both agents address their requests to. */
  const PersonalAgentId: string := "personal_agent"

  /** `PERSONAL_AGENT_URL`, defaulting to the demo address. */
  function PersonalAgentUrl(env: Option<string>): string {
    if env.Some? then env.value else "http://personal_agent:8002"
  }

  /** `{"type": "proxy_gmail_read", "user_id": ..., "agent_id": <own id>}`. */
  function GmailReadTask(userId: Json, agentId: string): Json {
    JObj(map["type" := JStr("proxy_gmail_read"), "user_id" := userId, "agent_id" := JStr(agentId)])
  }

  /** The POST `A2AClient.execute_task` makes: the URL, and the envelope of a request from
      `agentId` to the personal agent, without a correlation id. */
  function ClientRequest(agentId: string, personalUrl: string, task: Json, now: string): (req: (string, Json))
    ensures req.0 == personalUrl + "/execute_task"
    ensures req.1 == JObj(RequestMessage(agentId, JStr(PersonalAgentId), task, JNull, now).ToDict())
  {
    (personalUrl + "/execute_task", JObj(RequestMessage(agentId, JStr(PersonalAgentId), task, JNull, now).ToDict()))
  }

  /** `email_data["data"] if "data" in email_data else email_data`. */
  function Unwrap(reply: Json): (r: Outcome<Json>)
    ensures reply.JObj? && "data" in reply.fields ==> r == Return(reply.fields["data"])
    ensures reply.JObj? && "data" !in reply.fields ==> r == Return(reply)
    ensures reply.JArr? ==> (r.Return? <==> JStr("data") !in reply.items)
    ensures r.Return? ==> r.value == reply || (reply.JObj? && r.value == reply.fields["data"])
    ensures r.Raise? ==> r.error.TypeError?
  {
    match ContainsStr(reply, "data")
    case Raise(e) => Raise(e)
    case Return(found) => if found then Index(reply, "data") else Return(reply)
  }

  /** The reply the A2A server sends is an envelope, whose top level has no "data" key: the
      unwrap keeps the whole envelope, and its message count is 0, whatever the payload holds. */
  lemma EnvelopeIsNotUnwrapped(m: Message)
    ensures Unwrap(JObj(m.ToDict())) == Return(JObj(m.ToDict()))
    ensures MessageCount(JObj(m.ToDict())) == Return(0)
  {
    assert "data" !in m.ToDict();
    assert "messages" !in m.ToDict();
  }
}
