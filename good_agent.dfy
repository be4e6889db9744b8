/** The legitimate task agent of good_agent/good_agent_adk.py: it reads a user's Gmail through
    the personal agent, summarizes the message count into one of four texts, remembers the
    summary, and answers later activity questions from that memory.

    The personal agent's reply (or the client's exception) is an input. */
module Good {
  import opened PyJson
  import opened Adk
  import opened TaskAgent

  const GoodAgentId: string := "good_agent"

  /** The good agent's card: it lists the one tool the constructor registers and the agent's
      two endpoints. */
  function GoodCard(): (r: AgentCard)
    ensures r.agentId == GoodAgentId && r.tools == ["email_summarizer"]
    ensures r.endpoints.Keys == {"execute", "status"}
  {
    AgentCard(GoodAgentId, "Email Summarizer Pro", "Professional email summarization service", "1.0.0",
              ["email_summarization", "inbox_insights", "activity_analysis"],
              ["email_summarizer"],
              map["execute" := "http://good_agent:8003/execute_task",
                  "status" := "http://good_agent:8003/status"],
              map["trust_level" := JInt(3), "category" := JStr("productivity"), "verified" := JBool(true)])
  }

  // ----- EmailSummarizerTool -----

  /** What follows the count in a non-empty summary, by bucket, after a space. */
  function SummaryTail(count: nat): string {
    " " + (if count < 5 then "recent emails. Looks like a quiet inbox!"
           else if count < 10 then "emails. Normal activity level."
           else "emails. Busy inbox - might want to catch up!")
  }

  /** The summary of `count` messages: a fixed text for none, otherwise the count followed by
      the bucket's words (1-4 quiet, 5-9 normal, 10 and more busy). */
  function Summary(count: nat): (s: string)
    ensures count == 0 <==> s == "No emails to summarize."
    ensures count > 0 ==> s == "You have " + NatToString(count) + SummaryTail(count)
  {
    if count == 0 then "No emails to summarize."
    else "You have " + NatToString(count) + SummaryTail(count)
  }

  lemma TailStartsWithSpace(n: nat)
    ensures |SummaryTail(n)| > 0 && !IsDigit(SummaryTail(n)[0])
  {
  }

  lemma NonEmptySummaryDiffers(n: nat)
    requires n > 0
    ensures Summary(n) != Summary(0)
  {
    assert Summary(n)[0] == 'Y';
  }

  /** Different counts give different summaries: the text states the count. */
  lemma SummaryDeterminesCount(a: nat, b: nat)
    requires Summary(a) == Summary(b)
    ensures a == b
  {
    if a == 0 && b != 0 {
      NonEmptySummaryDiffers(b);
    } else if a != 0 && b == 0 {
      NonEmptySummaryDiffers(a);
    } else if a != 0 {
      DropPrefix("You have ", NatToString(a), SummaryTail(a), NatToString(b), SummaryTail(b));
      TailStartsWithSpace(a);
      TailStartsWithSpace(b);
      DigitRunsAgree(NatToString(a), SummaryTail(a), NatToString(b), SummaryTail(b));
      NatToStringInjective(a, b);
    }
  }

  /** `EmailSummarizerTool.execute({"emails": emails})`: the listing must be a dict (its
      `.get`) whose `messages` has a length. */
  function Summarize(emails: Json): (r: Outcome<string>)
    ensures r.Return? <==> MessageCount(emails).Return?
    ensures r.Return? ==> r.value == Summary(MessageCount(emails).value)
  {
    match MessageCount(emails)
    case Raise(e) => Raise(e)
    case Return(n) => Return(Summary(n))
  }

  // ----- GoodAgent -----

  datatype GoodKind = SummarizeTask | AnalyzeTask

  /** `execute_task` routing: a missing type means "summarize_emails". */
  function GoodKindOf(task: map<string, Json>): (r: Outcome<GoodKind>)
    ensures r == Return(SummarizeTask) <==> GetOr(task, "type", JStr("summarize_emails")) == JStr("summarize_emails")
    ensures "type" !in task ==> r == Return(SummarizeTask)
    ensures r == Return(AnalyzeTask) <==> Get(task, "type") == JStr("analyze_activity")
    ensures r.Raise? ==> r.error == ValueError("Unknown task type: " + Render(GetOr(task, "type", JStr("summarize_emails"))))
  {
    var t := GetOr(task, "type", JStr("summarize_emails"));
    if t == JStr("summarize_emails") then Return(SummarizeTask)
    else if t == JStr("analyze_activity") then Return(AnalyzeTask)
    else Raise(ValueError("Unknown task type: " + Render(t)))
  }

  /** The summary `_summarize_emails` makes of the personal agent's reply, or the exception it
      meets on the way. */
  function SummaryOf(reply: Outcome<Json>): (r: Outcome<string>)
    ensures reply.Raise? ==> r == Raise(reply.error)
    ensures reply.Return? && Unwrap(reply.value).Return? ==> r == Summarize(Unwrap(reply.value).value)
    ensures reply.Return? && Unwrap(reply.value).Raise? ==> r == Raise(Unwrap(reply.value).error)
  {
    match reply
    case Raise(e) => Raise(e)
    case Return(data) =>
      match Unwrap(data)
      case Raise(e) => Raise(e)
      case Return(emails) => Summarize(emails)
  }

  /** The answer of `_summarize_emails`: every exception is caught and reported. */
  function SummarizeResult(s: Outcome<string>): (r: map<string, Json>)
    ensures {"status", "agent", "message"} <= r.Keys && r["agent"] == JStr(GoodAgentId)
    ensures r["status"] == JStr("success") <==> s.Return?
    ensures r["status"] == JStr("error") <==> s.Raise?
    ensures s.Return? ==> "summary" in r && r["summary"] == JStr(s.value)
    ensures s.Raise? ==> "summary" !in r && "error" in r && r["error"] == JStr(ErrorText(s.error))
  {
    match s
    case Return(summary) =>
      map["status" := JStr("success"), "summary" := JStr(summary), "agent" := JStr(GoodAgentId),
          "message" := JStr("Email summary generated successfully")]
    case Raise(e) =>
      map["status" := JStr("error"), "error" := JStr(ErrorText(e)), "agent" := JStr(GoodAgentId),
          "message" := JStr("Failed to access or summarize emails")]
  }

  /** The memory key of a user's summary. */
  function SummaryKey(userId: Json): string { "summary_" + Render(userId) }

  function SummarizedEntry(userId: Json, summary: string): map<string, Json> {
    map["action" := JStr("email_summarized"), "user_id" := userId, "summary" := JStr(summary)]
  }

  /** The session memory after `_summarize_emails`: the summary under the user's key when
      one was made, otherwise as it was. */
  function MemoryAfter(data: map<string, Json>, userId: Json, summary: Outcome<string>): (d: map<string, Json>)
    ensures summary.Return? ==> SummaryKey(userId) in d && d[SummaryKey(userId)] == JStr(summary.value)
    ensures summary.Return? ==> forall k :: k in data && k != SummaryKey(userId) ==> k in d && d[k] == data[k]
    ensures summary.Return? ==> d.Keys == data.Keys + {SummaryKey(userId)}
    ensures summary.Raise? ==> d == data
  {
    if summary.Return? then data[SummaryKey(userId) := JStr(summary.value)] else data
  }

  /** The history after `_summarize_emails`: one stamped entry more when a summary was made. */
  function HistoryAfter(history: seq<map<string, Json>>, userId: Json, summary: Outcome<string>, now: string)
    : (h: seq<map<string, Json>>)
    ensures summary.Return? ==> |h| == |history| + 1 && h[..|history|] == history
                                && h[|history|] == SummarizedEntry(userId, summary.value) + map["timestamp" := JStr(now)]
    ensures summary.Raise? ==> h == history
  {
    if summary.Return? then history + [SummarizedEntry(userId, summary.value) + map["timestamp" := JStr(now)]]
    else history
  }

  /** The answer of `_analyze_activity`, given the remembered summary and, when that is not
      truthy, the outcome of the summarization run in its place. */
  function AnalyzeAnswer(previous: Json, latest: Outcome<string>): (r: map<string, Json>)
    ensures r.Keys == {"status", "analysis", "agent"}
    ensures r["status"] == JStr("success") && r["agent"] == JStr(GoodAgentId)
    ensures Truthy(previous) ==> r["analysis"] == JStr("Based on recent activity: " + Render(previous))
    ensures !Truthy(previous) && latest.Return? ==> r["analysis"] == JStr(latest.value)
    ensures !Truthy(previous) && latest.Raise? ==> r["analysis"] == JStr("No activity data available")
  {
    var analysis := if Truthy(previous) then JStr("Based on recent activity: " + Render(previous))
                    else GetOr(SummarizeResult(latest), "summary", JStr("No activity data available"));
    map["status" := JStr("success"), "analysis" := analysis, "agent" := JStr(GoodAgentId)]
  }

  /** Every summary is truthy, so once remembered it is what `_analyze_activity` reports. */
  lemma SummaryIsTruthy(count: nat)
    ensures Truthy(JStr(Summary(count)))
  {
  }

  /** Through the A2A server the reply is an envelope: the summary is the empty-inbox text,
      whatever the envelope carries. */
  lemma EnvelopeSummarizedAsEmpty(m: A2A.Message)
    ensures SummaryOf(Return(JObj(m.ToDict()))) == Return("No emails to summarize.")
  {
    EnvelopeIsNotUnwrapped(m);
  }

  class GoodAgent {
    const base: BaseAgent
    const personalUrl: string
    var sent: seq<(string, Json)>

    /** The tool registered by the constructor (the card is a constant of the constructed object). */
    ghost predicate Valid()
      reads this, base
    {
      "email_summarizer" in base.tools && base.tools["email_summarizer"] == EmailSummarizer
    }

    constructor (personalUrl: string, sessionId: string, createdAt: string)
      ensures Valid() && base.card == GoodCard() && fresh(base) && fresh(base.sessionState) && this.personalUrl == personalUrl
      ensures base.tools == map["email_summarizer" := EmailSummarizer]
      ensures base.sessionState.data == map[] && base.sessionState.conversationHistory == [] && sent == []
    {
      var session := new SessionState(sessionId, createdAt);
      var agent := new BaseAgent(GoodCard(), session);
      agent.RegisterTool(EmailSummarizer);
      base := agent;
      this.personalUrl := personalUrl;
      sent := [];
    }

    /** `_summarize_emails(task)`: one request to the personal agent; on success the summary is
        memorized and one history entry appended, otherwise nothing is remembered. */
    method SummarizeEmails(task: map<string, Json>, reply: Outcome<Json>, now: string) returns (r: map<string, Json>)
      requires Valid()
      ensures Valid()
      modifies this, base.sessionState
      ensures r == SummarizeResult(SummaryOf(reply))
      ensures sent == old(sent) + [ClientRequest(GoodAgentId, personalUrl, GmailReadTask(Get(task, "user_id"), GoodAgentId), now)]
      ensures base.sessionState.data == MemoryAfter(old(base.sessionState.data), Get(task, "user_id"), SummaryOf(reply))
      ensures base.sessionState.conversationHistory
              == HistoryAfter(old(base.sessionState.conversationHistory), Get(task, "user_id"), SummaryOf(reply), now)
    {
      var u := Get(task, "user_id");
      sent := sent + [ClientRequest(GoodAgentId, personalUrl, GmailReadTask(u, GoodAgentId), now)];
      var summary := SummaryOf(reply);
      if summary.Raise? {
        return SummarizeResult(summary);
      }
      KeepSummary(u, summary.value, now);
      r := SummarizeResult(summary);
    }

    /** What `_summarize_emails` does once the summary is made: the call goes through the
        registered tool, the summary is memorized under the user's key and the summarization
        recorded. */
    method KeepSummary(u: Json, summary: string, now: string)
      requires Valid()
      ensures Valid()
      modifies base.sessionState
      ensures base.sessionState.data == old(base.sessionState.data)[SummaryKey(u) := JStr(summary)]
      ensures base.sessionState.conversationHistory
              == old(base.sessionState.conversationHistory) + [SummarizedEntry(u, summary) + map["timestamp" := JStr(now)]]
    {
      var tool := base.UseTool("email_summarizer");
      assert tool == Return(EmailSummarizer);
      base.Memorize(SummaryKey(u), JStr(summary));
      base.sessionState.AddToHistory(SummarizedEntry(u, summary), now);
    }

    /** `_analyze_activity(task)`: a truthy remembered summary is reported without asking the
        personal agent; otherwise a fresh summarization runs and its summary is reported. */
    method AnalyzeActivity(task: map<string, Json>, reply: Outcome<Json>, now: string) returns (r: map<string, Json>)
      requires Valid()
      ensures Valid()
      modifies this, base.sessionState
      ensures r == AnalyzeAnswer(old(base.Recall(SummaryKey(Get(task, "user_id")))), SummaryOf(reply))
      ensures Truthy(old(base.Recall(SummaryKey(Get(task, "user_id"))))) ==>
                sent == old(sent) && base.sessionState.data == old(base.sessionState.data)
                && base.sessionState.conversationHistory == old(base.sessionState.conversationHistory)
      ensures !Truthy(old(base.Recall(SummaryKey(Get(task, "user_id"))))) ==>
                sent == old(sent) + [ClientRequest(GoodAgentId, personalUrl, GmailReadTask(Get(task, "user_id"), GoodAgentId), now)]
                && base.sessionState.data == MemoryAfter(old(base.sessionState.data), Get(task, "user_id"), SummaryOf(reply))
                && base.sessionState.conversationHistory
                   == HistoryAfter(old(base.sessionState.conversationHistory), Get(task, "user_id"), SummaryOf(reply), now)
    {
      var previous := base.Recall(SummaryKey(Get(task, "user_id")));
      var analysis: Json;
      if Truthy(previous) {
        analysis := JStr("Based on recent activity: " + Render(previous));
      } else {
        var result := SummarizeEmails(task, reply, now);
        analysis := GetOr(result, "summary", JStr("No activity data available"));
      }
      r := map["status" := JStr("success"), "analysis" := analysis, "agent" := JStr(GoodAgentId)];
    }

    /** `execute_task(task)`: an unknown type raises ValueError before anything is sent. */
    method ExecuteTask(task: map<string, Json>, reply: Outcome<Json>, now: string) returns (r: Outcome<Json>)
      requires Valid()
      ensures Valid()
      modifies this, base.sessionState
      ensures GoodKindOf(task).Raise? ==> r == Raise(GoodKindOf(task).error) && sent == old(sent)
                                          && base.sessionState.data == old(base.sessionState.data)
                                          && base.sessionState.conversationHistory == old(base.sessionState.conversationHistory)
      ensures GoodKindOf(task) == Return(SummarizeTask) ==>
                r == Return(JObj(SummarizeResult(SummaryOf(reply))))
                && sent == old(sent) + [ClientRequest(GoodAgentId, personalUrl, GmailReadTask(Get(task, "user_id"), GoodAgentId), now)]
                && base.sessionState.data == MemoryAfter(old(base.sessionState.data), Get(task, "user_id"), SummaryOf(reply))
                && base.sessionState.conversationHistory
                   == HistoryAfter(old(base.sessionState.conversationHistory), Get(task, "user_id"), SummaryOf(reply), now)
      ensures GoodKindOf(task) == Return(AnalyzeTask) ==>
                r == Return(JObj(AnalyzeAnswer(old(base.Recall(SummaryKey(Get(task, "user_id")))), SummaryOf(reply))))
      ensures GoodKindOf(task) == Return(AnalyzeTask) && Truthy(old(base.Recall(SummaryKey(Get(task, "user_id"))))) ==>
                sent == old(sent) && base.sessionState.data == old(base.sessionState.data)
                && base.sessionState.conversationHistory == old(base.sessionState.conversationHistory)
      ensures GoodKindOf(task) == Return(AnalyzeTask) && !Truthy(old(base.Recall(SummaryKey(Get(task, "user_id"))))) ==>
                sent == old(sent) + [ClientRequest(GoodAgentId, personalUrl, GmailReadTask(Get(task, "user_id"), GoodAgentId), now)]
                && base.sessionState.data == MemoryAfter(old(base.sessionState.data), Get(task, "user_id"), SummaryOf(reply))
                && base.sessionState.conversationHistory
                   == HistoryAfter(old(base.sessionState.conversationHistory), Get(task, "user_id"), SummaryOf(reply), now)
    {
      match GoodKindOf(task)
      case Raise(e) =>
        r := Raise(e);
      case Return(SummarizeTask) =>
        var result := SummarizeEmails(task, reply, now);
        r := Return(JObj(result));
      case Return(AnalyzeTask) =>
        var result := AnalyzeActivity(task, reply, now);
        r := Return(JObj(result));
    }
  }
}
