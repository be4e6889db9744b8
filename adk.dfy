/** The agent framework of adk_core/base_agent.py: the agent card and its JSON form, the
    session memory and conversation history, and the base agent's tool table and sub-agent
    hand-off. Tools form a closed set of variants; what each one does is modelled by the
    agent that owns it. */
module Adk {
  import opened PyJson

  /** `AgentCard`: identity, capability and tool lists, endpoints and free-form metadata. */
  datatype AgentCard = AgentCard(
    agentId: string,
    name: string,
    description: string,
    version: string,
    capabilities: seq<string>,
    tools: seq<string>,
    endpoints: map<string, string>,
    metadata: map<string, Json>)

  /** A list of strings as JSON. */
  function Strings(xs: seq<string>): (items: seq<Json>)
    ensures |items| == |xs| && forall i :: 0 <= i < |xs| ==> items[i] == JStr(xs[i])
    decreases |xs|
  {
    if xs == [] then [] else Strings(xs[..|xs| - 1]) + [JStr(xs[|xs| - 1])]
  }

  /** Reads a JSON list back as a list of strings, if every item is a string. */
  function StringsBack(items: seq<Json>): Option<seq<string>>
    decreases |items|
  {
    if items == [] then Some([])
    else
      match StringsBack(items[..|items| - 1])
      case None => None
      case Some(init) =>
        var last := items[|items| - 1];
        if last.JStr? then Some(init + [last.s]) else None
  }

  lemma {:induction false} StringsRoundTrip(xs: seq<string>)
    ensures StringsBack(Strings(xs)) == Some(xs)
    decreases |xs|
  {
    if xs != [] {
      var n := |xs| - 1;
      StringsRoundTrip(xs[..n]);
      assert Strings(xs)[..n] == Strings(xs[..n]);
      assert xs[..n] + [xs[n]] == xs;
    }
  }

  /** A dict of strings as JSON. */
  function StringMap(m: map<string, string>): map<string, Json> {
    map k | k in m :: JStr(m[k])
  }

  function StringMapBack(d: map<string, Json>): Option<map<string, string>> {
    if forall k :: k in d ==> d[k].JStr? then Some(map k | k in d :: d[k].s) else None
  }

  lemma StringMapRoundTrip(m: map<string, string>)
    ensures StringMapBack(StringMap(m)) == Some(m)
  {
    var eps := StringMap(m);
    assert (map k | k in eps :: eps[k].s) == m;
  }

  /** The key set of `to_json`'s object. */
  const CardKeys: set<string> :=
    {"agent_id", "name", "description", "version", "capabilities", "tools", "endpoints", "metadata"}

  /** `json.loads(card.to_json())`: an object with exactly the eight card fields. */
  function CardToJson(c: AgentCard): (j: Json)
    ensures j.JObj? && j.fields.Keys == CardKeys
    ensures j.fields["agent_id"] == JStr(c.agentId) && j.fields["name"] == JStr(c.name)
    ensures j.fields["description"] == JStr(c.description) && j.fields["version"] == JStr(c.version)
    ensures j.fields["capabilities"] == JArr(Strings(c.capabilities))
    ensures j.fields["tools"] == JArr(Strings(c.tools))
    ensures j.fields["endpoints"] == JObj(StringMap(c.endpoints))
    ensures j.fields["metadata"] == JObj(c.metadata)
  {
    JObj(map[
      "agent_id" := JStr(c.agentId),
      "name" := JStr(c.name),
      "description" := JStr(c.description),
      "version" := JStr(c.version),
      "capabilities" := JArr(Strings(c.capabilities)),
      "tools" := JArr(Strings(c.tools)),
      "endpoints" := JObj(StringMap(c.endpoints)),
      "metadata" := JObj(c.metadata)])
  }

  /** Reads a card back from its JSON form; the inverse of `CardToJson`. */
  function CardFromJson(j: Json): Option<AgentCard> {
    if !j.JObj? || !(CardKeys <= j.fields.Keys) then None
    else
      var f := j.fields;
      if !(f["agent_id"].JStr? && f["name"].JStr? && f["description"].JStr? && f["version"].JStr?
           && f["capabilities"].JArr? && f["tools"].JArr? && f["endpoints"].JObj? && f["metadata"].JObj?)
      then None
      else
        match (StringsBack(f["capabilities"].items), StringsBack(f["tools"].items), StringMapBack(f["endpoints"].fields))
        case (Some(caps), Some(tools), Some(eps)) =>
          Some(AgentCard(f["agent_id"].s, f["name"].s, f["description"].s, f["version"].s,
                         caps, tools, eps, f["metadata"].fields))
        case _ => None
  }

  /** `to_json` loses nothing: the card can be read back from it. */
  lemma CardRoundTrip(c: AgentCard)
    ensures CardFromJson(CardToJson(c)) == Some(c)
  {
    StringsRoundTrip(c.capabilities);
    StringsRoundTrip(c.tools);
    StringMapRoundTrip(c.endpoints);
    var f := CardToJson(c).fields;
    assert StringsBack(f["capabilities"].items) == Some(c.capabilities);
    assert StringsBack(f["tools"].items) == Some(c.tools);
    assert StringMapBack(f["endpoints"].fields) == Some(c.endpoints);
  }

  /** `SessionState`: a key/value memory and an append-only conversation history. The session
      id (a fresh uuid) and the creation time are supplied by the caller. */
  class SessionState {
    const sessionId: string
    const createdAt: string
    var data: map<string, Json>
    var conversationHistory: seq<map<string, Json>>

    constructor (sessionId: string, createdAt: string)
      ensures this.sessionId == sessionId && this.createdAt == createdAt
      ensures data == map[] && conversationHistory == []
    {
      this.sessionId := sessionId;
      this.createdAt := createdAt;
      data := map[];
      conversationHistory := [];
    }

    /** `recall(key)`: the stored value, or None for a key never stored. */
    function Recall(key: string): (r: Json)
      reads this
      ensures key !in data ==> r == JNull
      ensures key in data ==> r == data[key]
    {
      Get(data, key)
    }

    /** `memorize(key, value)`: afterwards `recall(key)` yields `value`; every other key and
        the history are as before. */
    method Memorize(key: string, value: Json)
      modifies this
      ensures data == old(data)[key := value]
      ensures Recall(key) == value
      ensures forall k :: k != key ==> Recall(k) == old(Recall(k))
      ensures conversationHistory == old(conversationHistory)
    {
      data := data[key := value];
    }

    /** `add_to_history(message)`: appends one entry, the message stamped with the time, and
        keeps every earlier entry in place. */
    method AddToHistory(message: map<string, Json>, now: string)
      modifies this
      ensures conversationHistory == old(conversationHistory) + [message + map["timestamp" := JStr(now)]]
      ensures |conversationHistory| == |old(conversationHistory)| + 1
      ensures conversationHistory[..|old(conversationHistory)|] == old(conversationHistory)
      ensures data == old(data)
    {
      conversationHistory := conversationHistory + [message + map["timestamp" := JStr(now)]];
    }
  }

  /** The tools of the core's agents. */
  datatype Tool =
    | GmailRead
    | OpenFga(apiUrl: string, storeId: string)
    | EmailSummarizer
    | PhishingGenerator
  {
    /** `tool.name()`: the key a tool is registered under. */
    function Name(): string {
      match this
      case GmailRead => "gmail_read"
      case OpenFga(_, _) => "openfga_manage"
      case EmailSummarizer => "email_summarizer"
      case PhishingGenerator => "phishing_generator"
    }
  }

  /** `BaseAgent`: a card, a session, a tool table and named sub-agents. What a concrete agent
      does in `execute_task` is modelled by that agent; here, a sub-agent's run is an input. */
  class BaseAgent {
    const card: AgentCard
    var sessionState: SessionState
    var tools: map<string, Tool>
    var subAgents: map<string, BaseAgent>

    constructor (card: AgentCard, session: SessionState)
      ensures this.card == card && sessionState == session
      ensures tools == map[] && subAgents == map[]
    {
      this.card := card;
      sessionState := session;
      tools := map[];
      subAgents := map[];
    }

    /** `register_tool(tool)`: stored under its own name, replacing a tool of the same name. */
    method RegisterTool(tool: Tool)
      modifies this
      ensures tools == old(tools)[tool.Name() := tool]
      ensures tools[tool.Name()] == tool
      ensures sessionState == old(sessionState) && subAgents == old(subAgents)
    {
      tools := tools[tool.Name() := tool];
    }

    /** `register_sub_agent(name, agent)`. */
    method RegisterSubAgent(name: string, agent: BaseAgent)
      modifies this
      ensures subAgents == old(subAgents)[name := agent]
      ensures sessionState == old(sessionState) && tools == old(tools)
    {
      subAgents := subAgents[name := agent];
    }

    /** `use_tool(tool_name, params)` up to the call itself: an unregistered name raises
        ValueError; otherwise the tool to invoke is exactly the one registered under it. */
    method UseTool(toolName: string) returns (r: Outcome<Tool>)
      ensures toolName !in tools ==> r == Raise(ValueError("Tool " + toolName + " not registered"))
      ensures toolName in tools ==> r == Return(tools[toolName])
    {
      if toolName !in tools {
        return Raise(ValueError("Tool " + toolName + " not registered"));
      }
      r := Return(tools[toolName]);
    }

    /** `transfer_to_agent(agent_name, task)`: an unregistered sub-agent raises ValueError;
        otherwise the sub-agent is given this agent's session (the same object, so both see
        each other's writes) and its run's outcome is returned. */
    method TransferToAgent(agentName: string, subAgentRun: Outcome<Json>) returns (r: Outcome<Json>)
      modifies if agentName in subAgents then {subAgents[agentName]} else {}
      ensures agentName !in subAgents ==> r == Raise(ValueError("Sub-agent " + agentName + " not registered"))
      ensures agentName in subAgents ==> r == subAgentRun && subAgents[agentName].sessionState == sessionState
      ensures agentName in subAgents ==> subAgents[agentName].tools == old(subAgents[agentName].tools)
                                          && subAgents[agentName].subAgents == old(subAgents[agentName].subAgents)
    {
      if agentName !in subAgents {
        return Raise(ValueError("Sub-agent " + agentName + " not registered"));
      }
      var sub := subAgents[agentName];
      sub.sessionState := sessionState;
      r := subAgentRun;
    }

    /** `memorize(key, value)` on the agent: stored in its session. */
    method Memorize(key: string, value: Json)
      modifies sessionState
      ensures sessionState.data == old(sessionState.data)[key := value]
      ensures sessionState.conversationHistory == old(sessionState.conversationHistory)
    {
      sessionState.Memorize(key, value);
    }

    /** `recall(key)` on the agent. */
    function Recall(key: string): Json
      reads this, sessionState
    {
      sessionState.Recall(key)
    }
  }
}
