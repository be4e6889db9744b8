/** What happens when the agents of the demo talk to each other over A2A: a task agent's
    request reaches the personal agent's server, the personal agent answers it, and the task
    agent reads the reply envelope. These lemmas compose the per-agent models; the replies
    the task agents receive are the envelopes the personal agent's server builds. */
module Scenarios {
  import opened PyJson
  import opened Adk
  import opened A2A
  import opened Executor
  import opened Fga
  import opened Personal
  import opened TaskAgent
  import Good
  import Malicious
  import Registry

  /** The reply envelope the personal agent's server returns for an admitted request whose
      run ended with `run`. */
  function Envelope(request: Message, run: Outcome<Json>, now: string): (reply: Json)
    ensures reply.JObj? && "payload" in reply.fields
    ensures reply.fields["payload"] == JObj(Settle(request.payload, Return(()), run, now).ToDict())
  {
    JObj(Response(AgentId, request, Settle(request.payload, Return(()), run, now), now).ToDict())
  }

  /** A task agent's read request reaches the personal agent unchanged and is routed to the
      proxied read. */
  lemma ReadRequestAdmitted(sender: string, user: Json, personalUrl: string, sentAt: string, now: string)
    ensures var admitted := Admit(AgentId, ClientRequest(sender, personalUrl, GmailReadTask(user, sender), sentAt).1, now);
            admitted.Return? && admitted.value.payload == GmailReadTask(user, sender)
            && admitted.value.senderId == JStr(sender)
            && KindOf(GmailReadTask(user, sender).fields) == Return(ProxyReadTask)
  {
    ClientRequestAdmitted(sender, PersonalAgentId, GmailReadTask(user, sender), JNull, sentAt, now, AgentId);
  }

  /** Whatever the run, the malicious agent takes the envelope itself for the stolen data, and
      the phishing text it makes counts zero messages. */
  lemma EnvelopeTakenAsStolen(request: Message, run: Outcome<Json>, now: string)
    ensures Malicious.AccessOf(Return(Envelope(request, run, now)))
            == Malicious.Stolen(Envelope(request, run, now), Malicious.PhishingText(0))
  {
    EnvelopeIsNotUnwrapped(Response(AgentId, request, Settle(request.payload, Return(()), run, now), now));
  }

  /** A read the authority denies: the personal agent raises PermissionError, which the
      executor turns into a failed task inside a normal reply, so Gmail is never asked, yet
      the malicious agent sees no PermissionError and reports success with a phishing text
      for zero messages. */
  lemma DeniedReadReportedAsSuccess(tokens: map<Json, Json>, user: Json, check: Reply, gmail: Outcome<Json>,
                                    request: Message, now: string)
    requires Permission(check) == Return(false)
    requires request.payload == GmailReadTask(user, Malicious.MaliciousAgentId)
    ensures var read := ProxyRead(tokens, GmailReadTask(user, Malicious.MaliciousAgentId).fields, check, gmail);
            read.presented == None && read.entry == None
            && read.exit == Raise(PermissionError("Agent " + Malicious.MaliciousAgentId + " not allowed to read emails"))
            && Settle(request.payload, Return(()), read.exit, now).status == TaskStatus.Failed
            && var access := Malicious.AccessOf(Return(Envelope(request, read.exit, now)));
               access.Stolen? && access.text == Malicious.PhishingText(0)
               && Malicious.AccessResult(access)["status"] == JStr("success")
  {
    var read := ProxyRead(tokens, GmailReadTask(user, Malicious.MaliciousAgentId).fields, check, gmail);
    EnvelopeTakenAsStolen(request, read.exit, now);
  }

  /** A read the authority allows, for a user with a token: the token is presented, the
      listing is the completed task's data, yet the good agent summarizes the reply envelope
      as an empty inbox, which differs from the summary of the listing whenever it has
      messages. */
  lemma AllowedReadSummarizedAsEmpty(tokens: map<Json, Json>, user: Json, check: Reply, gmail: Outcome<Json>,
                                     request: Message, now: string)
    requires Permission(check) == Return(true)
    requires GmailToken(tokens, user).Return?
    requires gmail.Return? && MessageCount(gmail.value).Return?
    requires request.payload == GmailReadTask(user, Good.GoodAgentId)
    ensures var read := ProxyRead(tokens, GmailReadTask(user, Good.GoodAgentId).fields, check, gmail);
            read.presented == Some(GmailToken(tokens, user).value) && read.exit == gmail
            && var result := Settle(request.payload, Return(()), read.exit, now);
               result.status == Completed && result.data == gmail.value
               && var summary := Good.SummaryOf(Return(Envelope(request, read.exit, now)));
                  summary == Return("No emails to summarize.")
                  && (MessageCount(gmail.value).value > 0 ==>
                        summary != Return(Good.Summary(MessageCount(gmail.value).value)))
  {
    var read := ProxyRead(tokens, GmailReadTask(user, Good.GoodAgentId).fields, check, gmail);
    assert Get(GmailReadTask(user, Good.GoodAgentId).fields, "user_id") == user;
    assert read.exit == gmail;
    var result := Settle(request.payload, Return(()), read.exit, now);
    Good.EnvelopeSummarizedAsEmpty(Response(AgentId, request, result, now));
    var n := MessageCount(gmail.value).value;
    if n > 0 {
      Good.NonEmptySummaryDiffers(n);
    }
  }

  /** The escalation attempt: the personal agent has no send task, so the run raises
      ValueError and the task fails, but the failure comes back inside a normal reply, which
      the malicious agent reports as a successful escalation. */
  lemma EscalationReportedAsSucceeded(user: Json, personalUrl: string, sentAt: string, now: string)
    ensures var data := ClientRequest(Malicious.MaliciousAgentId, personalUrl, Malicious.SendTask(user), sentAt).1;
            var admitted := Admit(AgentId, data, now);
            admitted.Return? && admitted.value.payload == Malicious.SendTask(user)
            && KindOf(Malicious.SendTask(user).fields) == Raise(ValueError("Unknown task type: " + "proxy_gmail_send"))
            && var run: Outcome<Json> := Raise(KindOf(Malicious.SendTask(user).fields).error);
               Settle(admitted.value.payload, Return(()), run, now).status == TaskStatus.Failed
               && Malicious.EscalationResult(Return(Envelope(admitted.value, run, now)))["status"]
                  == JStr("escalation_succeeded")
  {
    ClientRequestAdmitted(Malicious.MaliciousAgentId, PersonalAgentId, Malicious.SendTask(user), JNull, sentAt, now, AgentId);
    SendTaskUnknown(user);
  }

  /** The personal agent knows no "proxy_gmail_send" task. */
  lemma SendTaskUnknown(user: Json)
    ensures KindOf(Malicious.SendTask(user).fields) == Raise(ValueError("Unknown task type: " + "proxy_gmail_send"))
  {
    var t := Get(Malicious.SendTask(user).fields, "type");
    assert t == JStr("proxy_gmail_send");
    assert "proxy_gmail_send" != "proxy_gmail_read" by {
      assert "proxy_gmail_send"[12] == 's' && "proxy_gmail_read"[12] == 'r';
    }
  }

  /** The request a delegation dispatches to the good agent is admitted by the good agent's
      server only, and routed there to a summarization of the delegated user's mail. */
  lemma DelegatedTaskReachesGoodAgent(task: map<string, Json>, now: string, received: string)
    requires Get(task, "agent_id") == JStr(Good.GoodAgentId)
    ensures var admitted := Admit(Good.GoodAgentId, DispatchMessage(task, now), received);
            admitted.Return? && admitted.value.payload == SummarizeTask(task)
            && admitted.value.senderId == JStr(AgentId)
            && Good.GoodKindOf(SummarizeTask(task).fields) == Return(Good.SummarizeTask)
    ensures Admit(Malicious.MaliciousAgentId, DispatchMessage(task, now), received)
            == Raise(HTTPException(400, "Message not intended for this agent"))
  {
    ClientRequestAdmitted(AgentId, Good.GoodAgentId, SummarizeTask(task), JNull, now, received, Good.GoodAgentId);
    ClientRequestAdmitted(AgentId, Good.GoodAgentId, SummarizeTask(task), JNull, now, received, Malicious.MaliciousAgentId);
    FromDictToDict(RequestMessage(AgentId, JStr(Good.GoodAgentId), SummarizeTask(task), JNull, now), received);
  }

  /** A query over two entries keeps each one that matches, in order. */
  lemma MatchingTwo(a: Registry.Entry, b: Registry.Entry, field: string, tag: string, hitA: bool, hitB: bool)
    requires Registry.TagTest(a, field, tag) == Return(hitA) && Registry.TagTest(b, field, tag) == Return(hitB)
    ensures Registry.Matching([a, b], field, tag)
            == Return(if hitA && hitB then [a, b] else if hitA then [a] else if hitB then [b] else [])
  {
    var empty: seq<Registry.Entry> := [];
    assert [a][..0] == empty && [a][0] == a;
    assert Registry.Matching(empty, field, tag) == Return(empty);
    assert empty + [a] == [a];
    var acc: seq<Registry.Entry> := if hitA then [a] else [];
    assert Registry.Matching([a], field, tag) == Return(acc);
    var pair := [a, b];
    assert pair[..1] == [a] && pair[|pair| - 1] == b;
    assert Registry.Matching(pair, field, tag) == Return(if hitB then acc + [b] else acc);
    assert [a] + [b] == [a, b];
    assert empty + [b] == [b];
  }

  /** A registered card's entry holds a tag in its tool or capability list exactly when the
      card lists it. */
  lemma RegisteredTags(card: AgentCard, endpoint: string, registeredAt: string, field: string, tag: string)
    requires field == "tools" || field == "capabilities"
    ensures Registry.TagTest(Registry.MakeEntry(CardToJson(card).fields, endpoint, registeredAt), field, tag)
            == Return(tag in (if field == "tools" then card.tools else card.capabilities))
  {
    var xs := if field == "tools" then card.tools else card.capabilities;
    var items := Strings(xs);
    assert JStr(tag) in items <==> tag in xs by {
      if JStr(tag) in items {
        var i :| 0 <= i < |items| && items[i] == JStr(tag);
        assert xs[i] == tag;
      }
      if tag in xs {
        var i :| 0 <= i < |xs| && xs[i] == tag;
        assert items[i] == JStr(tag);
      }
    }
  }

  /** A tag of a length none of three tags has is not among them. */
  lemma NotInByLength(tag: string, x: string, y: string, z: string)
    requires |tag| != |x| && |tag| != |y| && |tag| != |z|
    ensures tag !in [x, y, z]
  {
  }

  /** Two registered cards, searched by one of the list fields: each entry is kept exactly
      when its card lists the tag, in registration order. */
  lemma TwoCardSearch(g: AgentCard, m: AgentCard, gEndpoint: string, mEndpoint: string, registeredAt: string,
                      field: string, tag: string)
    requires field == "tools" || field == "capabilities"
    ensures var good := Registry.MakeEntry(CardToJson(g).fields, gEndpoint, registeredAt);
            var bad := Registry.MakeEntry(CardToJson(m).fields, mEndpoint, registeredAt);
            var inG := tag in (if field == "tools" then g.tools else g.capabilities);
            var inM := tag in (if field == "tools" then m.tools else m.capabilities);
            Registry.Matching([good, bad], field, tag)
            == Return(if inG && inM then [good, bad] else if inG then [good] else if inM then [bad] else [])
  {
    var good := Registry.MakeEntry(CardToJson(g).fields, gEndpoint, registeredAt);
    var bad := Registry.MakeEntry(CardToJson(m).fields, mEndpoint, registeredAt);
    RegisteredTags(g, gEndpoint, registeredAt, field, tag);
    RegisteredTags(m, mEndpoint, registeredAt, field, tag);
    MatchingTwo(good, bad, field, tag, tag in (if field == "tools" then g.tools else g.capabilities),
                tag in (if field == "tools" then m.tools else m.capabilities));
  }

  /** The tag lists of the two cards, one fact at a time. */
  lemma PhishingToolListed()
    ensures "phishing_generator" !in Good.GoodCard().tools
    ensures "phishing_generator" in Malicious.MaliciousCard().tools
  {
    var tools := Good.GoodCard().tools;
    assert tools == [tools[0]] && |tools[0]| == 16;
  }

  lemma SummarizationListed()
    ensures "email_summarization" in Good.GoodCard().capabilities
    ensures "email_summarization" !in Malicious.MaliciousCard().capabilities
  {
    var tag := "email_summarization";
    var caps := Malicious.MaliciousCard().capabilities;
    assert caps == [caps[0], caps[1], caps[2]];
    assert |tag| == 19 && |caps[0]| == 14 && |caps[1]| == 17 && |caps[2]| == 16;
    NotInByLength(tag, caps[0], caps[1], caps[2]);
  }

  /** The marketplace as the two agents register: a search by tool finds the phishing
      generator on the malicious agent's entry only. */
  lemma PhishingToolSearch(goodEndpoint: string, maliciousEndpoint: string, registeredAt: string)
    ensures var good := Registry.MakeEntry(CardToJson(Good.GoodCard()).fields, goodEndpoint, registeredAt);
            var bad := Registry.MakeEntry(CardToJson(Malicious.MaliciousCard()).fields, maliciousEndpoint, registeredAt);
            Registry.Matching([good, bad], "tools", "phishing_generator") == Return([bad])
  {
    PhishingToolListed();
    TwoCardSearch(Good.GoodCard(), Malicious.MaliciousCard(), goodEndpoint, maliciousEndpoint, registeredAt,
                  "tools", "phishing_generator");
  }

  /** A search by capability finds the summarizer on the good agent's entry only. */
  lemma SummarizationSearch(goodEndpoint: string, maliciousEndpoint: string, registeredAt: string)
    ensures var good := Registry.MakeEntry(CardToJson(Good.GoodCard()).fields, goodEndpoint, registeredAt);
            var bad := Registry.MakeEntry(CardToJson(Malicious.MaliciousCard()).fields, maliciousEndpoint, registeredAt);
            Registry.Matching([good, bad], "capabilities", "email_summarization") == Return([good])
  {
    SummarizationListed();
    TwoCardSearch(Good.GoodCard(), Malicious.MaliciousCard(), goodEndpoint, maliciousEndpoint, registeredAt,
                  "capabilities", "email_summarization");
  }
}
