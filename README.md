# agent-fga in Dafny

This project models the core of agent-fga, a demo of capability-scoped delegation between
AI agents. A user's personal agent holds the user's Gmail token. It delegates temporary read
access to a task agent by writing a `temporary_reader` tuple to an OpenFGA authority. It
dispatches the task over the A2A protocol, then revokes the tuple and forgets the token. When
a task agent asks the personal agent to read the user's mail, the personal agent first checks
`can_read_emails` with the authority.

The demo has two task agents. The good agent summarizes the inbox. The malicious agent turns
what it gets into a phishing text and tries to obtain the send permission as well. An MCP
registry lets agents be discovered by capability and tool.

## Layout

| file | module | models |
|---|---|---|
| pyjson.dfy | `PyJson` | Python values that cross JSON/dict boundaries; exceptions; `.get`, `in`, `[]`, `len`, truthiness, f-string rendering of ints and strings |
| registry.dfy | `Registry` | `MCPRegistry`: two dicts kept in step, insertion order, the `find_*` loops |
| adk.dfy | `Adk` | `AgentCard.to_json`, `SessionState`, `BaseAgent` and its tool and sub-agent tables |
| executor.dfy | `Executor` | `TaskStatus`, `TaskResult`, the `AgentExecutor` status machine |
| a2a.dfy | `A2A` | `A2AMessage`, the `/execute_task`, `/status`, `/capabilities` and `/query_tool` handlers, and the message `A2AClient.execute_task` builds |
| fga.dfy | `Fga` | tuples, write and check requests and their JSON bodies, the authority's tuple set and request log, and an abstract decision procedure |
| delegation.dfy | `Delegation` | the world a delegation acts on (token store, session memory, tuples, authority log, dispatched messages) and the effects that change it |
| personal_agent.dfy | `Personal` | `PersonalAgent` and its Gmail and OpenFGA tools (personal_agent_adk.py) |
| personal_service.dfy | `Service` | the FastAPI variant of the personal agent (personal_agent/main.py) |
| task_agent.dfy | `TaskAgent` | what both task agents share: the read request and the `data` unwrap |
| good_agent.dfy | `Good` | `EmailSummarizerTool` and `GoodAgent` |
| malicious_agent.dfy | `Malicious` | `PhishingTool` and `MaliciousAgent` |
| scenarios.dfy | `Scenarios` | the agents composed: requests crossing the A2A server and the replies read back |

### How the model is built

- **Calls the code cannot see are inputs.** OpenFGA, Gmail, A2A peers and the agent's own
  `initialize` are outside the model. Each call takes an input outcome instead: an OpenFGA
  `Reply` (answered, committed or not; or raised, applied or not), or an `Outcome<Json>` for a
  peer or for Gmail. Timestamps are a `now` parameter.
- **Imperative code stays imperative.** The registry, the session state, the base agent, the
  executor, the A2A server, the authority and the four agents are classes. Each method's
  `ensures` gives every field it may change as a function of the old state and the inputs.
  The `ExecuteTask` routers do so route by route. The one exception is
  `Adk.BaseAgent.TransferToAgent`: the sub-agent's run is an input, so what that run writes
  is not modelled (see "## Left out").
- **The delegation controllers are proved against a trace.** The two controllers are
  `_delegate_access` and `delegate_and_run`. Each is specified by a pure episode function
  returning the ordered list of effects and the exit. `DelegateAccess` and `DelegateAndRun`
  are proved to leave exactly `Apply(old world, effects)` and to return the exit. The
  properties of the protocol are lemmas about the episode functions.
- **Authorization is an abstract oracle.** The relation checked (`can_read_emails`) differs
  from the relation granted (`temporary_reader`). The rewrite between them is not in the
  repository. A check's answer is therefore an input. The "delegation is temporary" lemmas
  assume only that the decision procedure never relates an agent to an account without some
  stored tuple between them (`Fga.Grounded`).

### A grant write that raises leaves the token stored

Both delegation paths store the token before the grant write, and outside the `try` whose
`finally` pops it. A grant write that raises therefore leaves the token in the store: the
`finally` is never entered (personal_agent/personal_agent_adk.py:178-189,
personal_agent/main.py:74-79). `Personal.DelegateGrantFailureLeaksToken` and
`Service.ServiceGrantFailureLeaksToken` state this; `Personal.DelegateRevokeFailureLeaksToken`
and `Service.ServiceRevokeFailureLeaksToken` state the same for a revoke that raises.

### What the proofs show about the demo

The task agents test `"data" in email_data` on the reply of `A2AClient.execute_task`. That
reply is the A2A server's response envelope, whose top level has no `data` key: the listing is
under `payload`. The scenarios take `PersonalAgent` to be served by an `A2AServer` at its card's
`execute` endpoint, as that endpoint implies; no launcher in the repository serves it so. The unwrap therefore keeps the whole envelope, and the message count taken
from it is always 0. The scenarios prove the consequences.

- An allowed read is summarized as "No emails to summarize.", whatever the inbox holds.
- The executor turns a denied read (`PermissionError`) into a failed task inside a normal
  reply. The malicious agent then reports "success" with a phishing text for 0 emails, and
  never "blocked".
- The personal agent has no `proxy_gmail_send` task type, so the run raises. The failure still
  comes back inside a normal reply, which the escalation attempt reports as succeeded.

## Model

| member | source | states |
|---|---|---|
| PyJson.DictGet | good_agent/good_agent_adk.py:29 | `.get` on a dict yields the value or the default; on anything else it raises AttributeError |
| PyJson.Truthy | personal_agent/personal_agent_adk.py:35 | `if not x`: exactly None, False, 0, the empty string, the empty list and the empty dict are false |
| PyJson.Render | personal_agent/personal_agent_adk.py:184-186 | the f-string text of a value: only the empty string renders empty, and an int's text reads back as that int (after a `-` for a negative one) |
| PyJson.ErrorText | adk_core/agent_executor.py:81 | `str(e)`: a message-carrying exception gives its message; a KeyError of a string key gives the key in quotes; an HTTPException gives its status digits, then `: ` and the detail |
| PyJson.Len | good_agent/good_agent_adk.py:32 | `len` of a string, list or dict is its size; any other value raises TypeError |
| PyJson.ContainsStr | good_agent/good_agent_adk.py:112 | `key in x` is list membership, a dict-key test, or a substring test; on other values it raises TypeError |
| PyJson.Index | good_agent/good_agent_adk.py:113 | `x[key]` on a dict is the value, a missing key raises KeyError, and a non-dict raises TypeError |
| PyJson.MessageCount | good_agent/good_agent_adk.py:32 | `len(emails.get("messages", []))`: a missing list counts 0; a non-dict raises AttributeError; an unsized value raises TypeError |
| PyJson.NatToString | good_agent/good_agent_adk.py:37 | the decimal text of a count is all digits, non-empty, and starts with 0 only for 0 |
| PyJson.ParseNatToString | good_agent/good_agent_adk.py:37 | the decimal text of a count reads back as that count |
| PyJson.NatToStringInjective | malicious_agent/malicious_agent_adk.py:35 | different counts render as different texts |
| PyJson.DigitRunsAgree | malicious_agent/malicious_agent_adk.py:35 | two texts that are a digit run followed by a non-digit agree when their digit runs agree |
| Registry.MakeEntry | mcp_server/mcp_registry.py:24-28 | the stored entry has every card field plus `registered_at` and `endpoint`, and those two keys win over the card's |
| Registry.Matching | mcp_server/mcp_registry.py:47-61 | the query of `find_agents_by_capability` and `find_agents_by_tool`; the only exception it raises is the TypeError of `in` on a field that is not a container |
| Registry.TagTest | mcp_server/mcp_registry.py:51 | a missing field counts as an empty list; a list field holds the tag by membership; a non-container field raises |
| Registry.MatchingSelectsExactly | mcp_server/mcp_registry.py:47-53 | an answered query returns exactly the matching entries, as a subsequence in registry order |
| Registry.MatchingRaisesIff | mcp_server/mcp_registry.py:50-51 | the query raises exactly when some entry's field cannot be searched |
| Registry.MatchingPrefixRaises | mcp_server/mcp_registry.py:50-52 | once an entry raises, the whole query raises with that error |
| Registry.Without | mcp_server/mcp_registry.py:34-36 | removing an id keeps exactly the other ids, and keeps the order free of repeats |
| Registry.WithoutKeepsOrder | mcp_server/mcp_registry.py:32-37 | the ids left after a removal are the subsequence of the old order at exactly the positions not holding the removed id, so dict deletion keeps the others in insertion order |
| Registry.DistinctCardinality | mcp_server/mcp_registry.py:124 | an ordering without repeats has as many elements as the registry has ids |
| Registry.InsertConsistent | mcp_server/mcp_registry.py:21-29 | registering keeps the two dicts on the same keys, the order listing each id once, and every entry's `endpoint` equal to `agent_endpoints` |
| Registry.RemoveConsistent | mcp_server/mcp_registry.py:32-37 | unregistering keeps the same three facts |
| Registry.ValuesOf | mcp_server/mcp_registry.py:45 | the values in dict order: one entry per position of the order |
| Registry.ValuesOfComplete | mcp_server/mcp_registry.py:43-45 | when the order lists every registered id once, the values hold one entry per id and every registered entry |
| Registry.Registry.constructor | mcp_server/mcp_registry.py:17-19 | a new registry holds no agents and no endpoints |
| Registry.Registry.RegisterAgent | mcp_server/mcp_registry.py:21-29 | stores the entry under the card's id and the endpoint beside it, replacing any earlier entry and changing no other id; a card without `agent_id` raises KeyError and changes nothing; keeps both dicts' key sets equal |
| Registry.Registry.UnregisterAgent | mcp_server/mcp_registry.py:32-37 | a present id leaves both dicts and the order, and nothing else changes; an absent id is a no-op; keeps both dicts' key sets equal |
| Registry.Registry.GetAgent | mcp_server/mcp_registry.py:39-41 | the entry of a registered id, None otherwise |
| Registry.Registry.ListAgents | mcp_server/mcp_registry.py:43-45 | the entries in insertion order, one per registered id, as many as the health count |
| Registry.Registry.FindBy | mcp_server/mcp_registry.py:49-53 | the loop computes the query over the entries in dict order |
| Registry.Registry.FindAgentsByCapability | mcp_server/mcp_registry.py:47-53 | the query over `capabilities` |
| Registry.Registry.FindAgentsByTool | mcp_server/mcp_registry.py:55-61 | the query over `tools` |
| Registry.DiscoverThenUnregister | mcp_server/mcp_registry.py:21-61 | a registered agent is found by its capability alone, and after unregistering nothing is found |
| Adk.StringsRoundTrip | adk_core/base_agent.py:31-32 | a list of strings survives JSON encoding |
| Adk.CardToJson | adk_core/base_agent.py:25-35 | the JSON has exactly the eight card fields with the card's values |
| Adk.CardRoundTrip | adk_core/base_agent.py:25-35 | the card reads back from its JSON |
| Adk.SessionState.Recall | adk_core/base_agent.py:49-51 | a stored key yields its value, and a never-stored key yields None |
| Adk.SessionState.Memorize | adk_core/base_agent.py:45-47 | afterwards `recall(key)` is the value, every other key recalls as before, and the history is unchanged |
| Adk.SessionState.AddToHistory | adk_core/base_agent.py:53-58 | exactly one entry, the message plus its timestamp, is appended; earlier entries and the memory are unchanged |
| Adk.BaseAgent.RegisterTool | adk_core/base_agent.py:90-92 | the tool is stored under its own name, replacing one of the same name |
| Adk.BaseAgent.RegisterSubAgent | adk_core/base_agent.py:94-96 | the sub-agent is stored under its name |
| Adk.BaseAgent.UseTool | adk_core/base_agent.py:98-102 | an unregistered name raises ValueError; otherwise the call reaches exactly the registered tool |
| Adk.BaseAgent.TransferToAgent | adk_core/base_agent.py:104-113 | an unregistered sub-agent raises ValueError; otherwise the sub-agent shares the caller's session state, keeps its tools and sub-agents, and its run is the answer |
| Adk.BaseAgent.Memorize | adk_core/base_agent.py:128-130 | memorizes in the agent's session, leaving the history |
| Executor.TaskResult.ToDict | adk_core/agent_executor.py:32-38 | the dict has the four result fields |
| Executor.ToDictInjective | adk_core/agent_executor.py:32-38 | different results give different dicts |
| Executor.StartError | adk_core/agent_executor.py:54-59 | a raising `initialize()` is the error; then a task that is not a dict raises AttributeError at its `task.get`; a dict task starts |
| Executor.Settle | adk_core/agent_executor.py:49-87 | a run that returns completes with its value and no error; an exception at start or in the run fails the task with that exception's text (`str(e)`) and no data; the exception never propagates |
| Executor.AgentExecutor.constructor | adk_core/agent_executor.py:43-47 | a new executor has no current task, status pending and an empty history |
| Executor.AgentExecutor.Execute | adk_core/agent_executor.py:49-87 | the task becomes current, the status is the result's, and exactly one result is appended to the history |
| Executor.AgentExecutor.ExecuteWithTimeout | adk_core/agent_executor.py:89-101 | a finished run is `execute`'s; a timed-out run returns a cancelled result with the timeout message, appended nowhere, leaving the status running |
| Executor.AgentExecutor.GetStatus | adk_core/agent_executor.py:103-110 | the agent id, the status, the current task, and a history count equal to the history's length |
| Executor.AgentExecutor.GetHistory | adk_core/agent_executor.py:112-114 | one dict per result, in order |
| A2A.Message.ToDict | a2a_core/a2a_server.py:32-40 | the six message fields with their values |
| A2A.FromDict | a2a_core/a2a_server.py:42-50 | parsing succeeds exactly when the data is a dict holding the four required keys; each missing key raises KeyError in field order; a missing correlation id is None |
| A2A.FromDictToDict | a2a_core/a2a_server.py:32-50 | every field survives the round trip except the timestamp, which is set afresh |
| A2A.RequestMessage | a2a_core/a2a_client.py:39-45 | the client's message has type `execute_task`, its own sender id, and the given recipient, task and correlation id |
| A2A.Admit | a2a_core/a2a_server.py:76-83 | a message that does not parse is refused with 400 and the exception's text; one addressed to another agent is refused with 400; only a message addressed to this agent gets through |
| A2A.Response | a2a_core/a2a_server.py:89-95 | type `task_response`, sent by this agent back to the request's sender, with the request's correlation id and the result as payload |
| A2A.ClientRequestAdmitted | a2a_core/a2a_client.py:39-50 | a client's request is admitted by exactly the server of its recipient, and reaches the executor unchanged |
| A2A.GetCapabilities | a2a_core/a2a_server.py:104-111 | exactly the card's id, capabilities and tools |
| A2A.CapabilitiesReadBack | a2a_core/a2a_server.py:104-111 | the capability and tool lists read back as the card's |
| A2A.QueryTool | a2a_core/a2a_server.py:113-120 | `has_tool` is true exactly when the queried name is one of the card's tools; a non-dict body raises |
| A2A.A2AServer.HandleExecuteTask | a2a_core/a2a_server.py:70-97 | a refused message leaves the executor untouched; an admitted one runs its payload once and returns the response envelope |
| A2A.A2AServer.HandleStatus | a2a_core/a2a_server.py:99-102 | the executor's status dict: its agent id, status, current task and history count |
| Fga.Tuple.Key | personal_agent/personal_agent_adk.py:72-76 | the tuple's JSON has exactly `user`, `relation` and `object` |
| Fga.AgentTuple | personal_agent/personal_agent_adk.py:184-186 | the tuple is `agent:<agent>`, the relation, and `gmail_account:<user>` |
| Fga.TupleKeys | personal_agent/personal_agent_adk.py:72-76 | one JSON key per tuple, in order |
| Fga.Body | personal_agent/personal_agent_adk.py:66-106 | a write body holds exactly the parts the request has; a check body holds exactly the tuple key |
| Fga.Update | personal_agent/main.py:48-53 | a committed write removes its deletes and adds its writes; a check changes nothing |
| Fga.AllowedOf | personal_agent/main.py:61 | a missing `allowed` is a denial; a present one decides by truthiness; a non-dict body raises |
| Fga.GroundedDenies | personal_agent/personal_agent_adk.py:253-260 | an authority grounded in stored tuples denies every check between an unlinked agent and account |
| Fga.Grounded | personal_agent/personal_agent_adk.py:253-259 | the assumption about OpenFGA's decision: no check is allowed without a stored tuple on the same user and object, so an empty store allows nothing |
| Fga.Authority.Post | personal_agent/personal_agent_adk.py:66-106 | the request is logged, the tuple set changes exactly when a write is committed, and the caller gets the body or the exception |
| Delegation.ApplySnoc | personal_agent/personal_agent_adk.py:178-213 | applying one more effect is one more step |
| Delegation.ApplyAppend | personal_agent/personal_agent_adk.py:178-213 | applying two traces in turn is applying their concatenation |
| Delegation.TokenGet | personal_agent/personal_agent_adk.py:33 | a stored token, None for a user without one, TypeError for an unhashable user |
| Personal.FgaAction | personal_agent/personal_agent_adk.py:60-108 | grant sends only `writes`, revoke only `deletes`, check a check; any other action sends nothing |
| Personal.PersonalCard | personal_agent/personal_agent_adk.py:115-134 | the card has id `personal_agent`, lists the tools `gmail_read` and `openfga_manage`, and has an execute and a status endpoint |
| Personal.ToolReply | personal_agent/personal_agent_adk.py:66-108 | the client's exception propagates; a check returns the body |
| Personal.GmailToken | personal_agent/personal_agent_adk.py:31-36 | a missing or falsy token raises ValueError before any upstream call; otherwise it is the stored token |
| Personal.KindOf | personal_agent/personal_agent_adk.py:153-167 | exactly four task types are routed; any other type raises ValueError naming it |
| Personal.GrantParamsRequest | personal_agent/personal_agent_adk.py:182-187 | the grant and revoke parameters make the tool send the grant and revoke of the same tuple |
| Personal.DelegateEpisode | personal_agent/personal_agent_adk.py:169-213 | an unhashable user id raises before any effect; the delegation returns only if the grant and the revoke both returned (the trace itself is stated by the lemmas below) |
| Personal.ApplyEpisode | personal_agent/personal_agent_adk.py:169-213 | the world a delegation leaves, stage by stage |
| Personal.DelegateStoresBeforeGrant | personal_agent/personal_agent_adk.py:178-187 | the token is stored first, and the grant is the first authority call |
| Personal.DelegateRevokesAfterGrant | personal_agent/personal_agent_adk.py:189-213 | once the grant returns, every exit revokes that same tuple once after the grant; unless the revoke raises, the token is popped once and last; a committed revoke leaves the tuple absent; the exit is the dispatch's, "delegated", or the revoke's exception |
| Personal.PopIsLastEffect | personal_agent/personal_agent_adk.py:203-213 | when grant and revoke return, the token pop is the last effect of the episode and no earlier effect pops |
| Personal.DelegateGrantFailureLeaksToken | personal_agent/personal_agent_adk.py:178-189 | a raising grant leaves the token stored, nothing revoked or dispatched, and propagates |
| Personal.DelegateRevokeFailureLeaksToken | personal_agent/personal_agent_adk.py:205-213 | a raising revoke skips the pop, so the token stays |
| Personal.DelegateKeepsMemorizedToken | personal_agent/personal_agent_adk.py:179 | the token copy in session memory is never removed |
| Personal.DelegateDispatch | personal_agent/personal_agent_adk.py:191-202 | with an `agent_url` the summarize task is posted once, addressed to the agent; without one nothing is posted and the answer is "delegated" |
| Personal.DelegationIsTemporary | personal_agent/personal_agent_adk.py:182-210 | after a committed grant and revoke, a grounded authority denies the agent every relation on the account |
| Personal.SecondEpisodeClearsFirstToken | personal_agent/personal_agent_adk.py:178-213 | a second episode for the same user pops the token of one still dispatching |
| Personal.Permission | personal_agent/personal_agent_adk.py:253-259 | the check's exception, or the truth of its `allowed` field |
| Personal.ProxyRead | personal_agent/personal_agent_adk.py:246-273 | without a truthy `allowed` it raises (PermissionError for a denial) and Gmail is never asked; otherwise the stored token is presented and the listing returned with one history entry counting its messages |
| Personal.ReadAfterDelegationRefused | personal_agent/personal_agent_adk.py:253-260 | after a completed delegation the delegated agent's read is refused and Gmail is never asked |
| Personal.PersonalAgent.UseOpenFga | personal_agent/personal_agent_adk.py:60-108 | an unknown action answers `unknown_action` and sends nothing; otherwise one request is posted |
| Personal.PersonalAgent.UseGmailRead | personal_agent/personal_agent_adk.py:31-45 | no token raises with no Gmail call; otherwise the token is presented once and the upstream answer returned |
| Personal.PersonalAgent.StoreAndGrant | personal_agent/personal_agent_adk.py:177-187 | stores and memorizes the token, then posts the grant |
| Personal.PersonalAgent.RevokeAndPop | personal_agent/personal_agent_adk.py:203-213 | posts the revoke, then pops the token unless the revoke raised |
| Personal.PersonalAgent.DispatchSummary | personal_agent/personal_agent_adk.py:189-201 | posts one summarize task when `agent_url` is truthy and answers the agent's reply; otherwise posts nothing and answers "delegated" |
| Personal.PersonalAgent.DelegateAccess | personal_agent/personal_agent_adk.py:169-213 | acts on the world exactly as the delegation episode and returns its exit |
| Personal.PersonalAgent.RevokeAccess | personal_agent/personal_agent_adk.py:215-228 | posts the revoke; a committed revoke removes the tuple; answers "revoked" unless the call raises |
| Personal.PersonalAgent.CheckPermission | personal_agent/personal_agent_adk.py:230-244 | posts one check of the given relation (by default `can_read_emails`) and returns its body |
| Personal.PersonalAgent.ProxyGmailRead | personal_agent/personal_agent_adk.py:246-273 | acts as `ProxyRead`: one check, then Gmail and history only when allowed |
| Personal.PersonalAgent.ExecuteTask | personal_agent/personal_agent_adk.py:153-167 | an unknown type raises and changes nothing; a delegation acts as its episode; a revoke posts the revoke and removes the tuple when committed; a check posts one check of the given or default relation; a read acts as `ProxyRead`, with its Gmail call and history entry; each route states every field it leaves unchanged |
| Service.ServiceCard | personal_agent/main.py:20-46 | the personal agent's card with extra metadata, keeping the card's own metadata |
| Service.ServiceCardReadsBack | personal_agent/main.py:43-46 | the served JSON reads back as the card |
| Service.ServiceWritesCarryBothParts | personal_agent/main.py:48-53 | both writes send a `writes` and a `deletes` part, and grant then revoke leaves nothing |
| Service.AgentUrl | personal_agent/main.py:81 | a known id gives its URL; an unknown id raises KeyError; a list or dict id raises TypeError |
| Service.ApplyServiceEpisode | personal_agent/main.py:63-88 | the world `delegate_and_run` leaves, stage by stage |
| Service.DelegateAndRunEpisode | personal_agent/main.py:63-88 | a body that is not a dict raises before any effect; the call returns only if the grant and the delete both returned and the agent id has a URL |
| Service.ApplyServiceGranted | personal_agent/main.py:74-76 | storing the token and writing the grant leave the granted world |
| Service.ApplyServiceDispatched | personal_agent/main.py:79-83 | the post happens exactly when the agent id has a URL |
| Service.ServiceRevokesAfterGrant | personal_agent/main.py:79-88 | once the grant returns, the tuple is deleted on every path, including an unknown agent id or a failed dispatch; unless the delete raises the token is popped; the dispatch's exception propagates |
| Service.ServiceGrantFailureLeaksToken | personal_agent/main.py:74-79 | a raising grant leaves the token stored, with nothing posted and nothing deleted |
| Service.ServiceRevokeFailureLeaksToken | personal_agent/main.py:84-86 | a raising delete skips the pop |
| Service.ServiceDelegationIsTemporary | personal_agent/main.py:76-86 | after a committed grant and delete, a grounded authority denies the contracted agent every relation on the account |
| Service.ServiceRead | personal_agent/main.py:90-107 | the check comes first: denial gives 403 with no token lookup and no Gmail call; then a missing token gives 401; otherwise the token is presented |
| Service.ServiceSend | personal_agent/main.py:109-119 | only `can_send_emails` decides: denial gives 403, allowance the dummy answer |
| Service.ServiceReadAfterDelegationRefused | personal_agent/main.py:96-98 | after a completed delegation the contracted agent's read is refused with 403 |
| Service.ServiceReadDuringDelegation | personal_agent/main.py:74-107 | while a delegation is in flight, an allowed read presents the delegated token |
| Service.PersonalService.FgaWrite | personal_agent/main.py:48-53 | posts the write; the tuples change exactly when it is committed |
| Service.PersonalService.FgaCheck | personal_agent/main.py:55-61 | posts one check; a missing `allowed` is a denial |
| Service.PersonalService.DelegateAndRun | personal_agent/main.py:63-88 | acts on the world exactly as the service episode and returns its exit |
| Service.PersonalService.StoreAndGrant | personal_agent/main.py:74-76 | stores the token under the user, then writes the grant; a raising write propagates |
| Service.PersonalService.DispatchToAgent | personal_agent/main.py:79-83 | an unknown agent id raises before anything is posted; otherwise the user id is posted to the agent's URL and the reply answered |
| Service.PersonalService.RevokeAndPop | personal_agent/main.py:84-86 | deletes the grant, then pops the token unless the delete raised |
| Service.PersonalService.ProxyGmailRead | personal_agent/main.py:90-107 | acts as `ServiceRead`, with one check for a dict body |
| Service.PersonalService.ProxyGmailSend | personal_agent/main.py:109-119 | acts as `ServiceSend`, with one check of `can_send_emails` for a dict body |
| TaskAgent.ClientRequest | good_agent/good_agent_adk.py:101-109 | the request is posted to `<url>/execute_task`, addressed to `personal_agent`, from the sending agent, without a correlation id |
| TaskAgent.Unwrap | good_agent/good_agent_adk.py:111-115 | a dict with `data` gives its value; a dict without gives itself; a list is searched for `"data"`; other values raise TypeError |
| TaskAgent.EnvelopeIsNotUnwrapped | good_agent/good_agent_adk.py:111-118 | the server's reply envelope is kept whole and counts 0 messages |
| Good.Summary | good_agent/good_agent_adk.py:34-41 | 0 gives the "No emails" text, and only 0 does; a positive count states the count and its bucket |
| Good.NonEmptySummaryDiffers | good_agent/good_agent_adk.py:34-41 | no positive count gives the "No emails" text |
| Good.SummaryDeterminesCount | good_agent/good_agent_adk.py:34-41 | different counts give different summaries |
| Good.Summarize | good_agent/good_agent_adk.py:28-41 | the summary of the listing's message count, or the exception counting raises |
| Good.GoodKindOf | good_agent/good_agent_adk.py:79-89 | a missing type means summarize; an unknown type raises ValueError naming it |
| Good.GoodCard | good_agent/good_agent_adk.py:48-68 | the card has id `good_agent`, lists the tool `email_summarizer`, and has an execute and a status endpoint |
| Good.SummaryOf | good_agent/good_agent_adk.py:99-118 | a raising request or unwrap propagates; otherwise the unwrapped data is summarized |
| Good.SummarizeResult | good_agent/good_agent_adk.py:128-142 | success carries the summary; every exception becomes status "error" with its text |
| Good.SummaryIsTruthy | good_agent/good_agent_adk.py:150-153 | every summary is truthy, so once remembered it is what an analysis reports |
| Good.MemoryAfter | good_agent/good_agent_adk.py:119-120 | a made summary is memorized under `summary_<user>`, every other key kept; a failure leaves the memory as it was |
| Good.HistoryAfter | good_agent/good_agent_adk.py:121-125 | a made summary appends exactly one stamped entry; a failure appends nothing |
| Good.AnalyzeAnswer | good_agent/good_agent_adk.py:144-163 | status success from `good_agent`; a truthy remembered summary is reported as "Based on recent activity: ..."; otherwise the new summary, or the fallback text when summarizing failed |
| Good.EnvelopeSummarizedAsEmpty | good_agent/good_agent_adk.py:111-118 | a reply envelope is summarized as the empty-inbox text |
| Good.GoodAgent.SummarizeEmails | good_agent/good_agent_adk.py:91-142 | sends one read request; only on success memorizes `summary_<user>` and appends one history entry |
| Good.GoodAgent.KeepSummary | good_agent/good_agent_adk.py:118-126 | memorizes the summary under `summary_<user>` and appends one stamped history entry, nothing else |
| Good.GoodAgent.AnalyzeActivity | good_agent/good_agent_adk.py:144-163 | answers `AnalyzeAnswer`; a truthy remembered summary sends nothing and changes no memory or history; otherwise one request is sent and memory and history change as in a summarization |
| Good.GoodAgent.ExecuteTask | good_agent/good_agent_adk.py:79-89 | an unknown type raises and changes nothing; a summarization and an analysis each give their operation's answer, requests, memory and history |
| Malicious.PhishingTextDeterminesCount | malicious_agent/malicious_agent_adk.py:33-42 | the phishing text states the count it was made from |
| Malicious.MaliciousCard | malicious_agent/malicious_agent_adk.py:51-71 | the card has id `malicious_agent`, lists the tool `phishing_generator`, and has an execute and a status endpoint |
| Malicious.Phish | malicious_agent/malicious_agent_adk.py:28-44 | the text for the listing's message count, or the exception counting raises, never a PermissionError |
| Malicious.AccessOf | malicious_agent/malicious_agent_adk.py:98-162 | blocked exactly on a PermissionError; stolen exactly when the reply unwraps and counts; any other exception is partial |
| Malicious.ClientRepliesNeverBlocked | malicious_agent/malicious_agent_adk.py:137-145 | what the A2A client can yield (a body, an HTTP client error, or the ValueError of a body that is not JSON, a2a_core/a2a_client.py:47-56) is never classified as blocked |
| Malicious.AccessResult | malicious_agent/malicious_agent_adk.py:130-162 | the status is success, blocked or partial as classified; success carries the phishing text and partial the exception's text |
| Malicious.EscalationResult | malicious_agent/malicious_agent_adk.py:186-195 | any returned reply is "escalation_succeeded" and any exception "escalation_blocked" |
| Malicious.MaliciousAgent.MaliciousAccess | malicious_agent/malicious_agent_adk.py:90-162 | sends one read request; only when data is stolen memorizes `stolen_data_<user>` and appends one history entry |
| Malicious.MaliciousAgent.KeepStolen | malicious_agent/malicious_agent_adk.py:116-128 | memorizes the data under `stolen_data_<user>` and appends one stamped history entry, nothing else |
| Malicious.MaliciousAgent.ExecuteTask | malicious_agent/malicious_agent_adk.py:82-88 | whatever the type, runs the access attempt: one request sent, the answer classified, and `stolen_data_<user>` and one history entry kept only when data is stolen |
| Malicious.MaliciousAgent.AttemptPrivilegeEscalation | malicious_agent/malicious_agent_adk.py:164-195 | sends one send request and classifies the reply |
| Scenarios.Envelope | a2a_core/a2a_server.py:86-97 | the reply envelope carries the settled task result under `payload` |
| Scenarios.ReadRequestAdmitted | a2a_core/a2a_server.py:76-86 | a task agent's read request reaches the personal agent unchanged and is routed to the proxied read |
| Scenarios.EnvelopeTakenAsStolen | malicious_agent/malicious_agent_adk.py:110-117 | whatever the run, the malicious agent takes the envelope for the data and phishes with a count of 0 |
| Scenarios.DeniedReadReportedAsSuccess | malicious_agent/malicious_agent_adk.py:98-135 | a denied read never reaches Gmail and fails the task, yet the malicious agent reports success |
| Scenarios.AllowedReadSummarizedAsEmpty | good_agent/good_agent_adk.py:99-133 | an allowed read completes with the listing, yet the good agent's summary is the empty-inbox text, not the listing's |
| Scenarios.EscalationReportedAsSucceeded | malicious_agent/malicious_agent_adk.py:164-189 | the send task is unknown to the personal agent and fails, yet the escalation reports success |
| Scenarios.SendTaskUnknown | personal_agent/personal_agent_adk.py:153-167 | the personal agent raises ValueError for the `proxy_gmail_send` task |
| Scenarios.DelegatedTaskReachesGoodAgent | personal_agent/personal_agent_adk.py:191-199 | the dispatched request is admitted only by the good agent's server and routed to a summarization |
| Scenarios.MatchingTwo | mcp_server/mcp_registry.py:49-53 | a query over two entries keeps those that match, in order |
| Scenarios.RegisteredTags | mcp_server/mcp_registry.py:51 | a registered card holds a tag exactly when the card lists it |
| Scenarios.TwoCardSearch | mcp_server/mcp_registry.py:47-61 | a query over two registered cards keeps each one whose card lists the tag, in registration order |
| Scenarios.PhishingToolListed | malicious_agent/malicious_agent_adk.py:56-61 | only the malicious card lists `phishing_generator` among its tools |
| Scenarios.SummarizationListed | good_agent/good_agent_adk.py:53-58 | only the good card lists `email_summarization` among its capabilities |
| Scenarios.PhishingToolSearch | mcp_server/mcp_registry.py:55-61 | with both demo agents registered, a search for `phishing_generator` finds only the malicious agent |
| Scenarios.SummarizationSearch | mcp_server/mcp_registry.py:47-53 | with both demo agents registered, a search for `email_summarization` finds only the good agent |

## Left out

- Floating-point values: the JSON values of the model have no float case.
- `PyJson.Render`: lists and dicts render as a placeholder text instead of Python's repr; None, booleans, integers and strings render as Python does.
- Python's `True == 1` hashing: a dict keyed by `True` and `1` is two keys in the model.
- HTTP, FastAPI and uvicorn wiring: routes, JSON decoding of requests, `run()`, and the MCP server's routes. Only the handler bodies are modelled.
- The HTTP client: what the A2A client, OpenFGA and Gmail return, or raise, is an input.
- `A2AClient` methods other than `execute_task`: `query_capabilities`, `query_tool` and `close`.
- Clocks and random ids: `datetime.utcnow()` is a `now` parameter, and the uuid session id and creation time are constructor parameters. One `now` stamps the parsed request, the task result and the response of `HandleExecuteTask`, where the source reads the clock three times (a2a_core/a2a_server.py:30, adk_core/agent_executor.py:30); the model does not distinguish those instants.
- `asyncio.wait_for`: a timed-out run is an input constructor. The cancellation is taken to happen after `execute` has set the task as current and running.
- Concurrency between requests. Only an ordered interleaving with two episodes is stated (`Personal.SecondEpisodeClearsFirstToken`).
- The OpenFGA authorization model that derives `can_read_emails` from `temporary_reader`. It is not in the repository, so checks are answered by an input or an abstract oracle.
- Gmail message contents: only the `messages` count is inspected.
- `BaseAgent.initialize` and `set_before_agent_callback`: the callback is not visible, so its outcome is an input to `Executor.Settle`.
- Adk.BaseAgent.TransferToAgent: the sub-agent's `execute_task` is not run; its outcome is an input, and the writes that run would make to the shared session (memory and history) are not modelled.
- Executor.AgentExecutor: keeps only the agent's id, not the agent, since the run's outcome is an input.
- Fga.Authority.Post: the URL of a request is not logged; `Fga.Endpoint` gives it.
- Service.AgentUrl: a `None` URL from the environment is passed through; the HTTP client's failure on it is part of the dispatch outcome.
- Registry.Registry.RegisterAgent: requires a present `agent_id` to be a string, since the registry's keys are strings; a card with a key of another type is not modelled.
- Launchers, entry points, the marketplace backend, the front end, and the thin `main.py` handlers of the two task agents.
- Logging.
