/** The user's trusted agent of personal_agent/personal_agent_adk.py: it holds the users' access
    tokens, delegates temporary read access to another agent through the authority, and proxies
    Gmail reads for agents the authority allows.

    The authority is a shared `Authority` object; the delegated agent's answer, the Gmail
    listing and every reply of the authority are inputs. The token storage is keyed by the
    request's `user_id` value as Python sees it, so an unhashable one raises TypeError. */
module Personal {
  import opened PyJson
  import opened Adk
  import opened A2A
  import opened Fga
  import opened Delegation

  const AgentId: string := "personal_agent"
  const TemporaryReader: Json := JStr("temporary_reader")
  const CanReadEmails: Json := JStr("can_read_emails")

  /** The personal agent's card: it lists the two tools the constructor registers and the
      agent's two endpoints. */
  function PersonalCard(): (r: AgentCard)
    ensures r.agentId == AgentId && r.tools == ["gmail_read", "openfga_manage"]
    ensures r.endpoints.Keys == {"execute", "status"}
  {
    AgentCard(AgentId, "Personal Gmail Agent",
              "User's trusted agent that manages Gmail permissions and access", "1.0.0",
              ["gmail_management", "permission_control", "secure_delegation"],
              ["gmail_read", "openfga_manage"],
              map["execute" := "http://personal_agent:8002/execute_task",
                  "status" := "http://personal_agent:8002/status"],
              map["trust_level" := JInt(5), "owner" := JStr("user")])
  }

  // ----- OpenFGATool -----

  /** The tuple named by a tool call's `user`, `relation` and `object` parameters. */
  function ParamTuple(params: map<string, Json>): Tuple {
    Tuple(Get(params, "user"), Get(params, "relation"), Get(params, "object"))
  }

  /** The request `OpenFGATool.execute` sends for a call's `action`: a grant is a write with
      only a `writes` part, a revoke one with only a `deletes` part, a check a check; any
      other action sends nothing. */
  function FgaAction(params: map<string, Json>): (r: Option<Request>)
    ensures Get(params, "action") == JStr("grant") ==> r == Some(Write(Some([ParamTuple(params)]), None))
    ensures Get(params, "action") == JStr("revoke") ==> r == Some(Write(None, Some([ParamTuple(params)])))
    ensures Get(params, "action") == JStr("check") ==> r == Some(Check(ParamTuple(params)))
    ensures r.None? <==> Get(params, "action") !in [JStr("grant"), JStr("revoke"), JStr("check")]
  {
    var action := Get(params, "action");
    if action == JStr("grant") then Some(Write(Some([ParamTuple(params)]), None))
    else if action == JStr("revoke") then Some(Write(None, Some([ParamTuple(params)])))
    else if action == JStr("check") then Some(Check(ParamTuple(params)))
    else None
  }

  function Status(s: string): Json { JObj(map["status" := JStr(s)]) }

  /** What `OpenFGATool.execute` returns once its request `req` got `reply`: the client's
      exception, or "granted" / "revoked" whatever the HTTP status, or the check's body. */
  function ToolReply(req: Request, reply: Reply): (r: Outcome<Json>)
    ensures reply.Failed? <==> r.Raise?
    ensures reply.Answered? && req.Check? ==> r == Return(reply.body)
  {
    if reply.Failed? then Raise(reply.error)
    else match req
      case Write(Some(_), _) => Return(Status("granted"))
      case Write(None, _) => Return(Status("revoked"))
      case Check(_) => Return(reply.body)
  }

  // ----- GmailReadTool -----

  /** The token `GmailReadTool.execute` would present: none stored (or a falsy one) raises
      ValueError before any upstream call. */
  function GmailToken(tokens: map<Json, Json>, user: Json): (r: Outcome<Json>)
    ensures r.Return? ==> Hashable(user) && user in tokens && r.value == tokens[user] && Truthy(r.value)
    ensures Hashable(user) && (user !in tokens || !Truthy(tokens[user]))
            ==> r == Raise(ValueError("No access token available for user"))
    ensures !Hashable(user) ==> r == Raise(UnhashableError(user))
  {
    match TokenGet(tokens, user)
    case Raise(e) => Raise(e)
    case Return(token) => if !Truthy(token) then Raise(ValueError("No access token available for user")) else Return(token)
  }

  // ----- task routing -----

  datatype TaskKind = DelegateTask | RevokeTask | CheckTask | ProxyReadTask

  /** `execute_task` routes on `task["type"]`: exactly four types are known. */
  function KindOf(task: map<string, Json>): (r: Outcome<TaskKind>)
    ensures r == Return(DelegateTask) <==> Get(task, "type") == JStr("delegate_access")
    ensures r == Return(RevokeTask) <==> Get(task, "type") == JStr("revoke_access")
    ensures r == Return(CheckTask) <==> Get(task, "type") == JStr("check_permission")
    ensures r == Return(ProxyReadTask) <==> Get(task, "type") == JStr("proxy_gmail_read")
    ensures r.Raise? ==> r.error == ValueError("Unknown task type: " + Render(Get(task, "type")))
  {
    var t := Get(task, "type");
    if t == JStr("delegate_access") then Return(DelegateTask)
    else if t == JStr("revoke_access") then Return(RevokeTask)
    else if t == JStr("check_permission") then Return(CheckTask)
    else if t == JStr("proxy_gmail_read") then Return(ProxyReadTask)
    else Raise(ValueError("Unknown task type: " + Render(t)))
  }

  // ----- the delegation episode -----

  /** `(agent:<agent_id>, temporary_reader, gmail_account:<user_id>)`. */
  function GrantTuple(task: map<string, Json>): Tuple {
    AgentTuple(Get(task, "agent_id"), TemporaryReader, Get(task, "user_id"))
  }

  /** The tool parameters of the grant and the revoke. */
  function GrantParams(task: map<string, Json>, action: string): map<string, Json> {
    var t := GrantTuple(task);
    map["action" := JStr(action), "user" := t.user, "relation" := t.relation, "object" := t.obj]
  }

  function GrantRequest(task: map<string, Json>): Request { Write(Some([GrantTuple(task)]), None) }
  function RevokeRequest(task: map<string, Json>): Request { Write(None, Some([GrantTuple(task)])) }

  /** The grant and revoke parameters make the OpenFGA tool send exactly these requests. */
  lemma GrantParamsRequest(task: map<string, Json>)
    ensures FgaAction(GrantParams(task, "grant")) == Some(GrantRequest(task))
    ensures FgaAction(GrantParams(task, "revoke")) == Some(RevokeRequest(task))
  {
    assert ParamTuple(GrantParams(task, "grant")) == GrantTuple(task);
    assert ParamTuple(GrantParams(task, "revoke")) == GrantTuple(task);
  }

  /** The memory key of the token copy. */
  function TokenKey(user: Json): string { "token_" + Render(user) }

  /** Where the delegated task is posted, and the A2A message posted there. */
  function DispatchTarget(task: map<string, Json>): string { Render(Get(task, "agent_url")) + "/execute_task" }

  function SummarizeTask(task: map<string, Json>): Json {
    JObj(map["type" := JStr("summarize_emails"), "user_id" := Get(task, "user_id")])
  }

  function DispatchMessage(task: map<string, Json>, now: string): Json {
    JObj(RequestMessage(AgentId, Get(task, "agent_id"), SummarizeTask(task), JNull, now).ToDict())
  }

  function Delegated(task: map<string, Json>): Json {
    JObj(map["status" := JStr("delegated"), "agent_id" := Get(task, "agent_id")])
  }

  /** Storing the token, memorizing it, writing the grant. */
  function GrantEffects(task: map<string, Json>, grant: Reply): seq<Effect> {
    var u := Get(task, "user_id");
    var token := Get(task, "access_token");
    [StoreToken(u, token), Remember(TokenKey(u), token), FgaCall(GrantRequest(task), grant.Applied())]
  }

  /** Posting the summarize task, when `agent_url` is truthy. */
  function DispatchEffects(task: map<string, Json>, now: string): seq<Effect> {
    if Truthy(Get(task, "agent_url")) then [Dispatch(DispatchTarget(task), DispatchMessage(task, now))] else []
  }

  function RevokeEffect(task: map<string, Json>, revoke: Reply): Effect {
    FgaCall(RevokeRequest(task), revoke.Applied())
  }

  /** `_delegate_access(task)`. The token is stored and memorized, then the grant is written;
      if that call raises, the exception leaves before the `try`. Otherwise the summarize task
      is dispatched when `agent_url` is truthy, and in the `finally` the grant is revoked and
      the token popped; an exception of the revoke replaces the episode's own outcome and
      skips the pop. */
  function DelegateEpisode(task: map<string, Json>, grant: Reply, dispatch: Outcome<Json>, revoke: Reply,
                           now: string): (r: Episode)
    ensures !Hashable(Get(task, "user_id")) ==> r.effects == [] && r.exit == Raise(UnhashableError(Get(task, "user_id")))
    ensures r.exit.Return? ==> Hashable(Get(task, "user_id")) && !grant.Failed? && !revoke.Failed?
  {
    var u := Get(task, "user_id");
    if !Hashable(u) then Episode([], Raise(UnhashableError(u)))
    else if grant.Failed? then Episode(GrantEffects(task, grant), Raise(grant.error))
    else
      var revoked := GrantEffects(task, grant) + DispatchEffects(task, now) + [RevokeEffect(task, revoke)];
      if revoke.Failed? then Episode(revoked, Raise(revoke.error))
      else Episode(revoked + [ClearToken(u)], if Truthy(Get(task, "agent_url")) then dispatch else Return(Delegated(task)))
  }

  /** The world after each stage of an episode. */
  function Granted(w: World, task: map<string, Json>, grant: Reply): World {
    var u := Get(task, "user_id");
    var token := Get(task, "access_token");
    w.(tokens := w.tokens[u := token], memory := w.memory[TokenKey(u) := token],
       fgaLog := w.fgaLog + [GrantRequest(task)],
       tuples := if grant.Applied() then Update(w.tuples, GrantRequest(task)) else w.tuples)
  }

  function Dispatched(w: World, task: map<string, Json>, now: string): World {
    if Truthy(Get(task, "agent_url"))
    then w.(dispatched := w.dispatched + [(DispatchTarget(task), DispatchMessage(task, now))])
    else w
  }

  function Revoked(w: World, task: map<string, Json>, revoke: Reply): World {
    w.(fgaLog := w.fgaLog + [RevokeRequest(task)],
       tuples := if revoke.Applied() then Update(w.tuples, RevokeRequest(task)) else w.tuples)
  }

  function EpisodeWorld(w: World, task: map<string, Json>, grant: Reply, revoke: Reply, now: string): World {
    if grant.Failed? then Granted(w, task, grant)
    else
      var w3 := Revoked(Dispatched(Granted(w, task, grant), task, now), task, revoke);
      if revoke.Failed? then w3 else w3.(tokens := w3.tokens - {Get(task, "user_id")})
  }

  lemma ApplyGranted(w: World, task: map<string, Json>, grant: Reply)
    ensures Apply(w, GrantEffects(task, grant)) == Granted(w, task, grant)
  {
    var es := GrantEffects(task, grant);
    ApplySnoc(w, [], es[0]);
    ApplySnoc(w, [es[0]], es[1]);
    ApplySnoc(w, [es[0], es[1]], es[2]);
    assert [es[0]] == [] + [es[0]];
    assert [es[0], es[1]] == [es[0]] + [es[1]];
    assert es == [es[0], es[1]] + [es[2]];
  }

  lemma ApplyDispatched(w: World, task: map<string, Json>, now: string)
    ensures Apply(w, DispatchEffects(task, now)) == Dispatched(w, task, now)
  {
    var es := DispatchEffects(task, now);
    if es != [] {
      ApplySnoc(w, [], es[0]);
      assert es == [] + [es[0]];
    }
  }

  /** The world an episode leaves, stage by stage. */
  lemma ApplyEpisode(w: World, task: map<string, Json>, grant: Reply, dispatch: Outcome<Json>, revoke: Reply,
                     now: string)
    requires Hashable(Get(task, "user_id"))
    ensures Apply(w, DelegateEpisode(task, grant, dispatch, revoke, now).effects) == EpisodeWorld(w, task, grant, revoke, now)
  {
    var g := GrantEffects(task, grant);
    ApplyGranted(w, task, grant);
    if !grant.Failed? {
      var d := DispatchEffects(task, now);
      ApplyAppend(w, g, d);
      ApplyDispatched(Granted(w, task, grant), task, now);
      ApplySnoc(w, g + d, RevokeEffect(task, revoke));
      if revoke.Answered? {
        ApplySnoc(w, g + d + [RevokeEffect(task, revoke)], ClearToken(Get(task, "user_id")));
      }
    }
  }

  /** The token is stored before the grant is written: the first effect stores it, and the
      grant is the third and first authority call. */
  lemma DelegateStoresBeforeGrant(task: map<string, Json>, grant: Reply, dispatch: Outcome<Json>, revoke: Reply,
                                  now: string)
    requires Hashable(Get(task, "user_id"))
    ensures var ep := DelegateEpisode(task, grant, dispatch, revoke, now);
            |ep.effects| >= 3 && ep.effects[0] == StoreToken(Get(task, "user_id"), Get(task, "access_token"))
            && ep.effects[2] == FgaCall(GrantRequest(task), grant.Applied())
            && !ep.effects[0].FgaCall? && !ep.effects[1].FgaCall?
  {
  }

  /** Once the grant call has returned, every exit path (a returned answer, no `agent_url`,
      a raising dispatch) revokes that same tuple exactly once, after the grant; unless the
      revoke itself raises, the token is popped, exactly once and last; a committed revoke
      leaves the tuple absent. */
  lemma DelegateRevokesAfterGrant(w: World, task: map<string, Json>, grant: Reply, dispatch: Outcome<Json>,
                                  revoke: Reply, now: string)
    requires Hashable(Get(task, "user_id")) && !grant.Failed?
    ensures var ep := DelegateEpisode(task, grant, dispatch, revoke, now);
            var after := Apply(w, ep.effects);
            after.fgaLog == w.fgaLog + [GrantRequest(task), RevokeRequest(task)]
            && (revoke.Applied() ==> GrantTuple(task) !in after.tuples)
            && (revoke.Answered? ==>
                  (Get(task, "user_id") !in after.tokens
                   && ep.effects[|ep.effects| - 1] == ClearToken(Get(task, "user_id"))
                   && forall i :: 0 <= i < |ep.effects| - 1 ==> !ep.effects[i].ClearToken?))
            && ep.exit == (if revoke.Failed? then Raise(revoke.error)
                           else if Truthy(Get(task, "agent_url")) then dispatch else Return(Delegated(task)))
  {
    ApplyEpisode(w, task, grant, dispatch, revoke, now);
    var w2 := Dispatched(Granted(w, task, grant), task, now);
    assert w2.fgaLog == w.fgaLog + [GrantRequest(task)];
    if revoke.Applied() {
      assert GrantTuple(task) in TupleSet(RevokeRequest(task).deletes);
      assert GrantTuple(task) !in Update(w2.tuples, RevokeRequest(task));
    }
    if revoke.Answered? {
      PopIsLastEffect(task, grant, dispatch, revoke, now);
    }
  }

  /** In an episode whose grant and revoke return, the only token pop is the last effect. */
  lemma PopIsLastEffect(task: map<string, Json>, grant: Reply, dispatch: Outcome<Json>, revoke: Reply, now: string)
    requires Hashable(Get(task, "user_id")) && !grant.Failed? && revoke.Answered?
    ensures var es := DelegateEpisode(task, grant, dispatch, revoke, now).effects;
            es[|es| - 1] == ClearToken(Get(task, "user_id"))
            && forall i :: 0 <= i < |es| - 1 ==> !es[i].ClearToken?
  {
    var before := GrantEffects(task, grant) + DispatchEffects(task, now) + [RevokeEffect(task, revoke)];
    assert forall i :: 0 <= i < |before| ==> !before[i].ClearToken?;
  }

  /** If the grant call raises, the `finally` is never entered: the stored token stays, nothing
      is revoked or dispatched, and the grant's exception propagates. */
  lemma DelegateGrantFailureLeaksToken(w: World, task: map<string, Json>, grant: Reply, dispatch: Outcome<Json>,
                                       revoke: Reply, now: string)
    requires Hashable(Get(task, "user_id")) && grant.Failed?
    ensures var ep := DelegateEpisode(task, grant, dispatch, revoke, now);
            var after := Apply(w, ep.effects);
            after.tokens == w.tokens[Get(task, "user_id") := Get(task, "access_token")]
            && after.fgaLog == w.fgaLog + [GrantRequest(task)]
            && after.dispatched == w.dispatched
            && ep.exit == Raise(grant.error)
  {
    ApplyEpisode(w, task, grant, dispatch, revoke, now);
  }

  /** If the revoke call raises, the pop after it never runs: the token stays stored. */
  lemma DelegateRevokeFailureLeaksToken(w: World, task: map<string, Json>, grant: Reply, dispatch: Outcome<Json>,
                                        revoke: Reply, now: string)
    requires Hashable(Get(task, "user_id")) && !grant.Failed? && revoke.Failed?
    ensures var ep := DelegateEpisode(task, grant, dispatch, revoke, now);
            var after := Apply(w, ep.effects);
            Get(task, "user_id") in after.tokens && after.tokens[Get(task, "user_id")] == Get(task, "access_token")
            && ep.exit == Raise(revoke.error)
  {
    ApplyEpisode(w, task, grant, dispatch, revoke, now);
  }

  /** The token copy memorized in the session is never removed, on any path. */
  lemma DelegateKeepsMemorizedToken(w: World, task: map<string, Json>, grant: Reply, dispatch: Outcome<Json>,
                                    revoke: Reply, now: string)
    requires Hashable(Get(task, "user_id"))
    ensures var after := Apply(w, DelegateEpisode(task, grant, dispatch, revoke, now).effects);
            after.memory == w.memory[TokenKey(Get(task, "user_id")) := Get(task, "access_token")]
  {
    ApplyEpisode(w, task, grant, dispatch, revoke, now);
  }

  /** With a truthy `agent_url` the summarize task is posted to that agent exactly once, as an
      A2A message addressed to `agent_id`; without one nothing is posted and, unless the revoke
      raises, the answer is "delegated". */
  lemma DelegateDispatch(w: World, task: map<string, Json>, grant: Reply, dispatch: Outcome<Json>,
                         revoke: Reply, now: string)
    requires Hashable(Get(task, "user_id")) && !grant.Failed?
    ensures var ep := DelegateEpisode(task, grant, dispatch, revoke, now);
            var after := Apply(w, ep.effects);
            (Truthy(Get(task, "agent_url")) ==>
               after.dispatched == w.dispatched + [(DispatchTarget(task), DispatchMessage(task, now))])
            && (!Truthy(Get(task, "agent_url")) ==>
                  after.dispatched == w.dispatched
                  && (revoke.Answered? ==> ep.exit == Return(Delegated(task))))
  {
    ApplyEpisode(w, task, grant, dispatch, revoke, now);
  }

  /** A completed delegation leaves no access behind: if no tuple linked the agent to the
      account before, and the grant and the revoke were both committed, an authority whose
      decisions are grounded in stored tuples denies that agent every relation on the account
      afterwards. */
  lemma DelegationIsTemporary(o: Oracle, w: World, task: map<string, Json>, grant: Reply, dispatch: Outcome<Json>,
                              revoke: Reply, now: string, relation: Json)
    requires Grounded(o)
    requires Hashable(Get(task, "user_id")) && !grant.Failed? && revoke.Applied()
    requires Unlinked(w.tuples, GrantTuple(task).user, GrantTuple(task).obj)
    ensures var after := Apply(w, DelegateEpisode(task, grant, dispatch, revoke, now).effects);
            var t := AgentTuple(Get(task, "agent_id"), relation, Get(task, "user_id"));
            AllowedOf(OracleReply(o, after.tuples, t).body) == Return(false)
  {
    ApplyEpisode(w, task, grant, dispatch, revoke, now);
    var g := GrantTuple(task);
    var w1 := Granted(w, task, grant);
    assert w1.tuples <= w.tuples + {g};
    var w2 := Dispatched(w1, task, now);
    var w3 := Revoked(w2, task, revoke);
    assert g in TupleSet(RevokeRequest(task).deletes);
    assert w3.tuples <= w.tuples;
    var after := EpisodeWorld(w, task, grant, revoke, now);
    assert after.tuples == w3.tuples;
    GroundedDenies(o, after.tuples, AgentTuple(Get(task, "agent_id"), relation, Get(task, "user_id")));
  }

  /** Two episodes for the same user share one token slot: a second episode that completes
      while the first is still dispatching pops the first one's token too. */
  lemma SecondEpisodeClearsFirstToken(w: World, first: map<string, Json>, grant1: Reply, dispatch1: Outcome<Json>,
                                      revoke1: Reply, second: map<string, Json>, grant2: Reply,
                                      dispatch2: Outcome<Json>, revoke2: Reply, now: string)
    requires Hashable(Get(first, "user_id")) && !grant1.Failed?
    requires Get(second, "user_id") == Get(first, "user_id") && !grant2.Failed? && revoke2.Answered?
    ensures var inFlight := DelegateEpisode(first, grant1, dispatch1, revoke1, now).effects[..3];
            var after := Apply(Apply(w, inFlight), DelegateEpisode(second, grant2, dispatch2, revoke2, now).effects);
            Get(first, "user_id") in Apply(w, inFlight).tokens && Get(first, "user_id") !in after.tokens
  {
    var ep1 := DelegateEpisode(first, grant1, dispatch1, revoke1, now);
    assert ep1.effects[..3] == GrantEffects(first, grant1);
    ApplyGranted(w, first, grant1);
    ApplyEpisode(Apply(w, ep1.effects[..3]), second, grant2, dispatch2, revoke2, now);
  }
  // ----- the Gmail read proxy -----

  /** `(agent:<agent_id>, can_read_emails, gmail_account:<user_id>)`, the tuple the proxy checks. */
  function ReadTuple(task: map<string, Json>): Tuple {
    AgentTuple(Get(task, "agent_id"), CanReadEmails, Get(task, "user_id"))
  }

  /** What the check call yields: the client's exception, or the `allowed` field of the body. */
  function Permission(check: Reply): (r: Outcome<bool>)
    ensures check.Failed? ==> r == Raise(check.error)
    ensures check.Answered? ==> r == AllowedOf(check.body)
  {
    if check.Failed? then Raise(check.error) else AllowedOf(check.body)
  }

  /** The history entry of a proxied read. */
  function ReadEntry(task: map<string, Json>, count: nat): map<string, Json> {
    map["action" := JStr("gmail_read"), "agent_id" := Get(task, "agent_id"),
        "user_id" := Get(task, "user_id"), "email_count" := JInt(count)]
  }

  /** What a proxied read does: the token presented to Gmail, if any; the history entry, if
      any; and the exit. */
  datatype ReadResult = ReadResult(presented: Option<Json>, entry: Option<map<string, Json>>, exit: Outcome<Json>)

  /** `_proxy_gmail_read(task)`: unless the check answers a truthy `allowed`, it raises (a
      PermissionError for a denial) and Gmail is never asked; otherwise the stored token is
      presented and the listing returned, with one history entry counting its messages. */
  function ProxyRead(tokens: map<Json, Json>, task: map<string, Json>, check: Reply, gmail: Outcome<Json>)
    : (res: ReadResult)
    ensures Permission(check) != Return(true) ==> res.presented == None && res.entry == None && res.exit.Raise?
    ensures Permission(check) == Return(false) ==>
              res.exit == Raise(PermissionError("Agent " + Render(Get(task, "agent_id")) + " not allowed to read emails"))
    ensures res.presented.Some? <==> Permission(check) == Return(true) && GmailToken(tokens, Get(task, "user_id")).Return?
    ensures res.presented.Some? ==> res.presented == Some(GmailToken(tokens, Get(task, "user_id")).value)
    ensures res.entry.Some? <==> res.presented.Some? && gmail.Return? && MessageCount(gmail.value).Return?
    ensures res.entry.Some? ==> res.entry == Some(ReadEntry(task, MessageCount(gmail.value).value)) && res.exit == gmail
  {
    match Permission(check)
    case Raise(e) => ReadResult(None, None, Raise(e))
    case Return(allowed) =>
      if !allowed then
        ReadResult(None, None, Raise(PermissionError("Agent " + Render(Get(task, "agent_id")) + " not allowed to read emails")))
      else
        match GmailToken(tokens, Get(task, "user_id"))
        case Raise(e) => ReadResult(None, None, Raise(e))
        case Return(token) =>
          match gmail
          case Raise(e) => ReadResult(Some(token), None, Raise(e))
          case Return(emails) =>
            match MessageCount(emails)
            case Raise(e) => ReadResult(Some(token), None, Raise(e))
            case Return(n) => ReadResult(Some(token), Some(ReadEntry(task, n)), Return(emails))
  }

  /** After a completed delegation, the delegated agent's proxied read of that user is refused
      by a grounded authority with a PermissionError, and Gmail is never asked. */
  lemma ReadAfterDelegationRefused(o: Oracle, w: World, task: map<string, Json>, grant: Reply,
                                   dispatch: Outcome<Json>, revoke: Reply, now: string,
                                   read: map<string, Json>, gmail: Outcome<Json>)
    requires Grounded(o)
    requires Hashable(Get(task, "user_id")) && !grant.Failed? && revoke.Applied()
    requires Unlinked(w.tuples, GrantTuple(task).user, GrantTuple(task).obj)
    requires Get(read, "user_id") == Get(task, "user_id") && Get(read, "agent_id") == Get(task, "agent_id")
    ensures var after := Apply(w, DelegateEpisode(task, grant, dispatch, revoke, now).effects);
            var res := ProxyRead(after.tokens, read, OracleReply(o, after.tuples, ReadTuple(read)), gmail);
            res.presented == None && res.entry == None
            && res.exit == Raise(PermissionError("Agent " + Render(Get(task, "agent_id")) + " not allowed to read emails"))
  {
    DelegationIsTemporary(o, w, task, grant, dispatch, revoke, now, CanReadEmails);
  }

  /** The inputs of one `execute_task` call: the replies every route may need. */
  datatype Env = Env(grant: Reply, dispatch: Outcome<Json>, revoke: Reply, check: Reply, gmail: Outcome<Json>)

  /** `PersonalAgent`: a base agent with the Gmail and OpenFGA tools, the token storage the
      Gmail tool reads, the authority, and the requests sent to other agents and to Gmail. */
  class PersonalAgent {
    const base: BaseAgent
    const authority: Authority
    var tokenStorage: map<Json, Json>
    var dispatched: seq<(string, Json)>
    var gmailCalls: seq<Json>

    /** The two tools registered by the constructor. */
    ghost predicate Valid()
      reads this, base
    {
      "gmail_read" in base.tools && base.tools["gmail_read"] == GmailRead
      && "openfga_manage" in base.tools && base.tools["openfga_manage"].OpenFga?
    }

    constructor (apiUrl: string, storeId: string, sessionId: string, createdAt: string, authority: Authority)
      ensures Valid() && base.card == PersonalCard() && fresh(base) && fresh(base.sessionState) && this.authority == authority
      ensures base.tools == map["gmail_read" := GmailRead, "openfga_manage" := OpenFga(apiUrl, storeId)]
      ensures base.sessionState.data == map[] && base.sessionState.conversationHistory == []
      ensures tokenStorage == map[] && dispatched == [] && gmailCalls == []
    {
      var session := new SessionState(sessionId, createdAt);
      var agent := new BaseAgent(PersonalCard(), session);
      agent.RegisterTool(GmailRead);
      agent.RegisterTool(OpenFga(apiUrl, storeId));
      base := agent;
      this.authority := authority;
      tokenStorage := map[];
      dispatched := [];
      gmailCalls := [];
    }

    /** The part of the world a delegation episode acts on. */
    function State(): World
      reads this, base, base.sessionState, authority
    {
      World(tokenStorage, base.sessionState.data, authority.tuples, authority.log, dispatched)
    }

    /** `use_tool("openfga_manage", params)`: the tool is registered, so the call reaches
        `OpenFGATool.execute`, which sends at most one request. */
    method UseOpenFga(params: map<string, Json>, reply: Reply) returns (r: Outcome<Json>)
      requires Valid()
      ensures Valid()
      modifies authority
      ensures FgaAction(params).None? ==> r == Return(Status("unknown_action")) && unchanged(authority)
      ensures FgaAction(params).Some? ==>
                var req := FgaAction(params).value;
                authority.log == old(authority.log) + [req]
                && authority.tuples == (if reply.Applied() then Update(old(authority.tuples), req) else old(authority.tuples))
                && r == ToolReply(req, reply)
    {
      var tool := base.UseTool("openfga_manage");
      assert tool.Return? && tool.value.OpenFga?;
      var req := FgaAction(params);
      if req.None? {
        return Return(Status("unknown_action"));
      }
      var answer := authority.Post(req.value, reply);
      r := ToolReply(req.value, reply);
    }

    /** `use_tool("gmail_read", {"user_id": user})`: the registered Gmail tool presents the
        stored token, or raises before any upstream call. */
    method UseGmailRead(user: Json, upstream: Outcome<Json>) returns (r: Outcome<Json>)
      requires Valid()
      ensures Valid()
      modifies this
      ensures GmailToken(tokenStorage, user).Raise? ==> r == Raise(GmailToken(tokenStorage, user).error) && gmailCalls == old(gmailCalls)
      ensures GmailToken(tokenStorage, user).Return? ==> r == upstream && gmailCalls == old(gmailCalls) + [GmailToken(tokenStorage, user).value]
      ensures tokenStorage == old(tokenStorage) && dispatched == old(dispatched)
    {
      var tool := base.UseTool("gmail_read");
      assert tool == Return(GmailRead);
      var token := GmailToken(tokenStorage, user);
      if token.Raise? {
        return Raise(token.error);
      }
      gmailCalls := gmailCalls + [token.value];
      r := upstream;
    }

    /** The part of `_delegate_access` before the `try`: store, memorize, grant. */
    method StoreAndGrant(task: map<string, Json>, grant: Reply) returns (g: Outcome<Json>)
      requires Valid() && Hashable(Get(task, "user_id"))
      ensures Valid()
      modifies this, base.sessionState, authority
      ensures State() == Granted(old(State()), task, grant)
      ensures grant.Failed? ==> g == Raise(grant.error)
      ensures grant.Answered? ==> g.Return?
      ensures gmailCalls == old(gmailCalls)
      ensures base.sessionState.conversationHistory == old(base.sessionState.conversationHistory)
    {
      var u := Get(task, "user_id");
      var token := Get(task, "access_token");
      GrantParamsRequest(task);
      tokenStorage := tokenStorage[u := token];
      base.Memorize(TokenKey(u), token);
      g := UseOpenFga(GrantParams(task, "grant"), grant);
    }

    /** The `finally` of `_delegate_access`: revoke, then pop the token unless the revoke raised. */
    method RevokeAndPop(task: map<string, Json>, revoke: Reply) returns (v: Outcome<Json>)
      requires Valid() && Hashable(Get(task, "user_id"))
      ensures Valid()
      modifies this, authority
      ensures revoke.Failed? ==> State() == Revoked(old(State()), task, revoke) && v == Raise(revoke.error)
      ensures revoke.Answered? ==> State() == Revoked(old(State()), task, revoke).(tokens := old(tokenStorage) - {Get(task, "user_id")})
                                   && v.Return?
      ensures gmailCalls == old(gmailCalls)
    {
      GrantParamsRequest(task);
      v := UseOpenFga(GrantParams(task, "revoke"), revoke);
      if v.Raise? {
        return;
      }
      tokenStorage := tokenStorage - {Get(task, "user_id")};
    }

    /** `_delegate_access(task)`, proved to act on the world exactly as `DelegateEpisode`. */
    method DelegateAccess(task: map<string, Json>, grant: Reply, dispatch: Outcome<Json>, revoke: Reply, now: string)
      returns (r: Outcome<Json>)
      requires Valid()
      ensures Valid()
      modifies this, base.sessionState, authority
      ensures State() == Apply(old(State()), DelegateEpisode(task, grant, dispatch, revoke, now).effects)
      ensures r == DelegateEpisode(task, grant, dispatch, revoke, now).exit
      ensures gmailCalls == old(gmailCalls)
      ensures base.sessionState.conversationHistory == old(base.sessionState.conversationHistory)
    {
      var u := Get(task, "user_id");
      if !Hashable(u) {
        assert DelegateEpisode(task, grant, dispatch, revoke, now).effects == [];
        return Raise(UnhashableError(u));
      }
      ghost var w0 := State();
      ApplyEpisode(w0, task, grant, dispatch, revoke, now);
      var g := StoreAndGrant(task, grant);
      if g.Raise? {
        return g;
      }
      var body := DispatchSummary(task, dispatch, now);
      ghost var w2 := State();
      assert w2 == Dispatched(Granted(w0, task, grant), task, now);
      var v := RevokeAndPop(task, revoke);
      if v.Raise? {
        assert State() == Revoked(w2, task, revoke);
        return v;
      }
      assert State() == Revoked(w2, task, revoke).(tokens := w2.tokens - {u});
      r := body;
    }

    /** The body of the `try` in `_delegate_access`: the summarize task is posted to the
        agent's URL when `agent_url` is truthy; otherwise the answer is "delegated". */
    method DispatchSummary(task: map<string, Json>, dispatch: Outcome<Json>, now: string) returns (body: Outcome<Json>)
      modifies this
      ensures State() == Dispatched(old(State()), task, now)
      ensures body == (if Truthy(Get(task, "agent_url")) then dispatch else Return(Delegated(task)))
      ensures tokenStorage == old(tokenStorage) && gmailCalls == old(gmailCalls)
    {
      if Truthy(Get(task, "agent_url")) {
        dispatched := dispatched + [(DispatchTarget(task), DispatchMessage(task, now))];
        body := dispatch;
      } else {
        body := Return(Delegated(task));
      }
    }

    /** `_revoke_access(task)`: deletes the grant tuple and answers "revoked" whatever the
        HTTP status; only a raising call propagates. */
    method RevokeAccess(task: map<string, Json>, revoke: Reply) returns (r: Outcome<Json>)
      requires Valid()
      ensures Valid()
      modifies authority
      ensures authority.log == old(authority.log) + [RevokeRequest(task)]
      ensures authority.tuples == (if revoke.Applied() then old(authority.tuples) - {GrantTuple(task)} else old(authority.tuples))
      ensures r == (if revoke.Failed? then Raise(revoke.error)
                    else Return(JObj(map["status" := JStr("revoked"), "agent_id" := Get(task, "agent_id")])))
    {
      var result := UseOpenFga(GrantParams(task, "revoke"), revoke);
      if result.Raise? {
        return result;
      }
      r := Return(JObj(map["status" := JStr("revoked"), "agent_id" := Get(task, "agent_id")]));
    }

    /** `_check_permission(task)`: checks `relation` (by default "can_read_emails") of the agent
        on the account and returns the authority's body as it is. */
    method CheckPermission(task: map<string, Json>, check: Reply) returns (r: Outcome<Json>)
      requires Valid()
      ensures Valid()
      modifies authority
      ensures authority.log == old(authority.log) + [Check(AgentTuple(Get(task, "agent_id"), GetOr(task, "relation", CanReadEmails), Get(task, "user_id")))]
      ensures authority.tuples == old(authority.tuples)
      ensures r == (if check.Failed? then Raise(check.error) else Return(check.body))
    {
      var t := AgentTuple(Get(task, "agent_id"), GetOr(task, "relation", CanReadEmails), Get(task, "user_id"));
      r := UseOpenFga(map["action" := JStr("check"), "user" := t.user, "relation" := t.relation, "object" := t.obj], check);
    }

    /** `_proxy_gmail_read(task)`, proved to act as `ProxyRead`: one check of
        `can_read_emails`, then at most one Gmail call and at most one history entry. */
    method ProxyGmailRead(task: map<string, Json>, check: Reply, gmail: Outcome<Json>, now: string)
      returns (r: Outcome<Json>)
      requires Valid()
      ensures Valid()
      modifies this, authority, base.sessionState
      ensures var res := ProxyRead(old(tokenStorage), task, check, gmail);
              r == res.exit
              && gmailCalls == old(gmailCalls) + (if res.presented.Some? then [res.presented.value] else [])
              && base.sessionState.conversationHistory
                 == old(base.sessionState.conversationHistory)
                    + (if res.entry.Some? then [res.entry.value + map["timestamp" := JStr(now)]] else [])
      ensures authority.log == old(authority.log) + [Check(ReadTuple(task))]
      ensures authority.tuples == old(authority.tuples)
      ensures tokenStorage == old(tokenStorage) && dispatched == old(dispatched)
      ensures base.sessionState.data == old(base.sessionState.data)
    {
      var u := Get(task, "user_id");
      var a := Get(task, "agent_id");
      var permCheck := CheckPermission(map["user_id" := u, "agent_id" := a, "relation" := CanReadEmails], check);
      if permCheck.Raise? {
        return permCheck;
      }
      var allowed := AllowedOf(permCheck.value);
      if allowed.Raise? {
        return Raise(allowed.error);
      }
      if !allowed.value {
        return Raise(PermissionError("Agent " + Render(a) + " not allowed to read emails"));
      }
      var emails := UseGmailRead(u, gmail);
      if emails.Raise? {
        return emails;
      }
      var count := MessageCount(emails.value);
      if count.Raise? {
        return Raise(count.error);
      }
      base.sessionState.AddToHistory(ReadEntry(task, count.value), now);
      r := emails;
    }

    /** `execute_task(task)`: an unknown type raises ValueError and changes nothing; each of
        the four types runs its operation. */
    method ExecuteTask(task: map<string, Json>, env: Env, now: string) returns (r: Outcome<Json>)
      requires Valid()
      ensures Valid()
      modifies this, base.sessionState, authority
      ensures KindOf(task).Raise? ==> r == Raise(KindOf(task).error) && State() == old(State())
      ensures KindOf(task) == Return(DelegateTask) ==>
                State() == Apply(old(State()), DelegateEpisode(task, env.grant, env.dispatch, env.revoke, now).effects)
                && r == DelegateEpisode(task, env.grant, env.dispatch, env.revoke, now).exit
      ensures KindOf(task) == Return(RevokeTask) ==>
                State() == old(State()).(fgaLog := old(State()).fgaLog + [RevokeRequest(task)],
                                         tuples := if env.revoke.Applied() then old(State()).tuples - {GrantTuple(task)}
                                                   else old(State()).tuples)
                && r == (if env.revoke.Failed? then Raise(env.revoke.error)
                         else Return(JObj(map["status" := JStr("revoked"), "agent_id" := Get(task, "agent_id")])))
      ensures KindOf(task) == Return(CheckTask) ==>
                State() == old(State()).(fgaLog := old(State()).fgaLog
                                                   + [Check(AgentTuple(Get(task, "agent_id"), GetOr(task, "relation", CanReadEmails),
                                                                       Get(task, "user_id")))])
                && r == (if env.check.Failed? then Raise(env.check.error) else Return(env.check.body))
      ensures KindOf(task) != Return(ProxyReadTask) ==>
                gmailCalls == old(gmailCalls)
                && base.sessionState.conversationHistory == old(base.sessionState.conversationHistory)
      ensures KindOf(task) == Return(ProxyReadTask) ==>
                var res := ProxyRead(old(tokenStorage), task, env.check, env.gmail);
                State() == old(State()).(fgaLog := old(State()).fgaLog + [Check(ReadTuple(task))])
                && r == res.exit
                && gmailCalls == old(gmailCalls) + (if res.presented.Some? then [res.presented.value] else [])
                && base.sessionState.conversationHistory
                   == old(base.sessionState.conversationHistory)
                      + (if res.entry.Some? then [res.entry.value + map["timestamp" := JStr(now)]] else [])
    {
      var kind := KindOf(task);
      match kind
      case Raise(e) =>
        r := Raise(e);
      case Return(DelegateTask) =>
        r := DelegateAccess(task, env.grant, env.dispatch, env.revoke, now);
      case Return(RevokeTask) =>
        r := RevokeAccess(task, env.revoke);
      case Return(CheckTask) =>
        r := CheckPermission(task, env.check);
      case Return(ProxyReadTask) =>
        r := ProxyGmailRead(task, env.check, env.gmail, now);
    }
  }
}
