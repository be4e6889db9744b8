/** The personal agent as the FastAPI service of personal_agent/main.py: the same delegation and
    proxy, written without the agent framework. The delegated agent is looked up by id in a
    fixed table of URLs; the token store is keyed by the string `user:<google_sub>`; nothing is
    memorized and no history is kept.

    Request bodies are the JSON values clients post; the authority's replies, the delegated
    agent's answer and Gmail's answer are inputs. */
module Service {
  import opened PyJson
  import opened Adk
  import opened Fga
  import opened Delegation
  import opened Personal

  const CanSendEmails: Json := JStr("can_send_emails")

  /** The card served at `/agent_card`: the personal agent's card with two more metadata
      entries. */
  function ServiceCard(): (c: AgentCard)
    ensures c == PersonalCard().(metadata := c.metadata)
    ensures PersonalCard().metadata.Keys <= c.metadata.Keys
    ensures forall k :: k in PersonalCard().metadata ==> c.metadata[k] == PersonalCard().metadata[k]
  {
    PersonalCard().(metadata := map["trust_level" := JInt(5), "owner" := JStr("user"),
                                    "category" := JStr("system"), "verified" := JBool(true)])
  }

  /** `/agent_card` returns the card's JSON, from which the card reads back. */
  lemma ServiceCardReadsBack()
    ensures CardFromJson(CardToJson(ServiceCard())) == Some(ServiceCard())
    ensures CardToJson(ServiceCard()).fields["agent_id"] == JStr(AgentId)
  {
    CardRoundTrip(ServiceCard());
  }

  // ----- delegate-and-run -----

  /** The token store key of a delegation: `user:<google_sub>`. */
  function ServiceUser(body: map<string, Json>): Json { JStr("user:" + Render(Get(body, "google_sub"))) }

  /** `(agent:<contracted_agent_id>, temporary_reader, gmail_account:user:<google_sub>)`. */
  function ServiceTuple(body: map<string, Json>): Tuple {
    AgentTuple(Get(body, "contracted_agent_id"), TemporaryReader, ServiceUser(body))
  }

  /** `fga_write` always sends both parts; the one not given is an empty list. */
  function ServiceGrant(body: map<string, Json>): Request { Write(Some([ServiceTuple(body)]), Some([])) }
  function ServiceRevoke(body: map<string, Json>): Request { Write(Some([]), Some([ServiceTuple(body)])) }

  /** Both writes carry a `writes` and a `deletes` part. */
  lemma ServiceWritesCarryBothParts(body: map<string, Json>)
    ensures Body(ServiceGrant(body)).fields.Keys == {"writes", "deletes"}
    ensures Body(ServiceRevoke(body)).fields.Keys == {"writes", "deletes"}
    ensures Update(Update({}, ServiceGrant(body)), ServiceRevoke(body)) == {}
  {
    assert ServiceTuple(body) in TupleSet(ServiceRevoke(body).deletes);
  }

  /** `AGENT_URLS[contracted_agent_id]`: a list or dict id is unhashable, any other id that is
      not a known string raises KeyError. */
  function AgentUrl(urls: map<string, Json>, cid: Json): (r: Outcome<Json>)
    ensures !Hashable(cid) ==> r == Raise(UnhashableError(cid))
    ensures cid.JStr? && cid.s in urls ==> r == Return(urls[cid.s])
    ensures Hashable(cid) && !(cid.JStr? && cid.s in urls) ==> r == Raise(KeyError(cid))
  {
    if !Hashable(cid) then Raise(UnhashableError(cid))
    else if cid.JStr? && cid.s in urls then Return(urls[cid.s])
    else Raise(KeyError(cid))
  }

  /** The service's table: the two demo agents, at URLs taken from the environment. */
  function AgentUrls(goodUrl: Json, maliciousUrl: Json): map<string, Json> {
    map["good_agent" := goodUrl, "malicious_agent" := maliciousUrl]
  }

  function BodyError(body: Json): PyError {
    AttributeError("'" + TypeName(body) + "' object has no attribute 'get'")
  }

  function ServiceGrantEffects(body: map<string, Json>, grant: Reply): seq<Effect> {
    [StoreToken(ServiceUser(body), Get(body, "access_token")), FgaCall(ServiceGrant(body), grant.Applied())]
  }

  function ServiceDispatchEffects(urls: map<string, Json>, body: map<string, Json>): seq<Effect> {
    match AgentUrl(urls, Get(body, "contracted_agent_id"))
    case Raise(_) => []
    case Return(url) => [Dispatch(Render(url), JObj(map["user_id" := ServiceUser(body)]))]
  }

  /** `delegate_and_run`. A body that is not a dict fails at its first `.get`. The token is
      stored and the grant written before the `try`; a raising grant leaves the token stored.
      In the `try` the agent's URL is looked up (a KeyError for an unknown id) and the user id
      posted to it; whatever happens there, the `finally` deletes the tuple and pops the token,
      unless the delete raises. */
  function DelegateAndRunEpisode(urls: map<string, Json>, body: Json, grant: Reply, dispatch: Outcome<Json>,
                                 revoke: Reply): (r: Episode)
    ensures !body.JObj? ==> r.effects == [] && r.exit == Raise(BodyError(body))
    ensures r.exit.Return? ==>
      body.JObj? && !grant.Failed? && !revoke.Failed? && AgentUrl(urls, Get(body.fields, "contracted_agent_id")).Return?
  {
    if !body.JObj? then Episode([], Raise(BodyError(body)))
    else
      var f := body.fields;
      if grant.Failed? then Episode(ServiceGrantEffects(f, grant), Raise(grant.error))
      else
        var lookup := AgentUrl(urls, Get(f, "contracted_agent_id"));
        var revoked := ServiceGrantEffects(f, grant) + ServiceDispatchEffects(urls, f)
                       + [FgaCall(ServiceRevoke(f), revoke.Applied())];
        if revoke.Failed? then Episode(revoked, Raise(revoke.error))
        else Episode(revoked + [ClearToken(ServiceUser(f))], if lookup.Raise? then Raise(lookup.error) else dispatch)
  }

  /** The world an episode leaves, stage by stage. */
  function ServiceGranted(w: World, body: map<string, Json>, grant: Reply): World {
    w.(tokens := w.tokens[ServiceUser(body) := Get(body, "access_token")],
       fgaLog := w.fgaLog + [ServiceGrant(body)],
       tuples := if grant.Applied() then Update(w.tuples, ServiceGrant(body)) else w.tuples)
  }

  function ServiceDispatched(w: World, urls: map<string, Json>, body: map<string, Json>): World {
    match AgentUrl(urls, Get(body, "contracted_agent_id"))
    case Raise(_) => w
    case Return(url) => w.(dispatched := w.dispatched + [(Render(url), JObj(map["user_id" := ServiceUser(body)]))])
  }

  function ServiceRevoked(w: World, body: map<string, Json>, revoke: Reply): World {
    w.(fgaLog := w.fgaLog + [ServiceRevoke(body)],
       tuples := if revoke.Applied() then Update(w.tuples, ServiceRevoke(body)) else w.tuples)
  }

  function ServiceWorld(w: World, urls: map<string, Json>, body: map<string, Json>, grant: Reply, revoke: Reply): World {
    if grant.Failed? then ServiceGranted(w, body, grant)
    else
      var w3 := ServiceRevoked(ServiceDispatched(ServiceGranted(w, body, grant), urls, body), body, revoke);
      if revoke.Failed? then w3 else w3.(tokens := w3.tokens - {ServiceUser(body)})
  }

  lemma ApplyServiceGranted(w: World, body: map<string, Json>, grant: Reply)
    ensures Apply(w, ServiceGrantEffects(body, grant)) == ServiceGranted(w, body, grant)
  {
    var g := ServiceGrantEffects(body, grant);
    ApplySnoc(w, [], g[0]);
    ApplySnoc(w, [g[0]], g[1]);
    assert [g[0]] == [] + [g[0]];
    assert g == [g[0]] + [g[1]];
  }

  lemma ApplyServiceDispatched(w: World, urls: map<string, Json>, body: map<string, Json>)
    ensures Apply(w, ServiceDispatchEffects(urls, body)) == ServiceDispatched(w, urls, body)
  {
    var d := ServiceDispatchEffects(urls, body);
    if d != [] {
      ApplySnoc(w, [], d[0]);
      assert d == [] + [d[0]];
    }
  }

  lemma ApplyServiceEpisode(w: World, urls: map<string, Json>, body: map<string, Json>, grant: Reply,
                            dispatch: Outcome<Json>, revoke: Reply)
    ensures Apply(w, DelegateAndRunEpisode(urls, JObj(body), grant, dispatch, revoke).effects)
            == ServiceWorld(w, urls, body, grant, revoke)
  {
    var es := DelegateAndRunEpisode(urls, JObj(body), grant, dispatch, revoke).effects;
    var g := ServiceGrantEffects(body, grant);
    ApplyServiceGranted(w, body, grant);
    if grant.Failed? {
      assert es == g;
    } else {
      var d := ServiceDispatchEffects(urls, body);
      ApplyAppend(w, g, d);
      ApplyServiceDispatched(ServiceGranted(w, body, grant), urls, body);
      var rv := FgaCall(ServiceRevoke(body), revoke.Applied());
      ApplySnoc(w, g + d, rv);
      var w3 := ServiceRevoked(ServiceDispatched(ServiceGranted(w, body, grant), urls, body), body, revoke);
      assert Apply(w, g + d + [rv]) == w3;
      if revoke.Answered? {
        ApplySnoc(w, g + d + [rv], ClearToken(ServiceUser(body)));
        assert es == g + d + [rv] + [ClearToken(ServiceUser(body))];
      } else {
        assert es == g + d + [rv];
      }
    }
  }

  /** Once the grant call has returned, the tuple is deleted on every path: after a dispatch
      that answers, after one that raises, and after an unknown agent id; unless the delete
      raises, the token is popped and the exit is the agent's answer or the lookup's error. */
  lemma ServiceRevokesAfterGrant(w: World, urls: map<string, Json>, body: map<string, Json>, grant: Reply,
                                 dispatch: Outcome<Json>, revoke: Reply)
    requires !grant.Failed?
    ensures var ep := DelegateAndRunEpisode(urls, JObj(body), grant, dispatch, revoke);
            var after := Apply(w, ep.effects);
            var lookup := AgentUrl(urls, Get(body, "contracted_agent_id"));
            after.fgaLog == w.fgaLog + [ServiceGrant(body), ServiceRevoke(body)]
            && (revoke.Applied() ==> ServiceTuple(body) !in after.tuples)
            && (revoke.Answered? ==> ServiceUser(body) !in after.tokens)
            && ep.exit == (if revoke.Failed? then Raise(revoke.error)
                           else if lookup.Raise? then Raise(lookup.error) else dispatch)
            && (lookup.Raise? ==> after.dispatched == w.dispatched)
            && (lookup.Return? ==>
                  after.dispatched == w.dispatched + [(Render(lookup.value), JObj(map["user_id" := ServiceUser(body)]))])
  {
    ApplyServiceEpisode(w, urls, body, grant, dispatch, revoke);
    if revoke.Applied() {
      var w2 := ServiceDispatched(ServiceGranted(w, body, grant), urls, body);
      assert ServiceTuple(body) in TupleSet(ServiceRevoke(body).deletes);
      assert ServiceTuple(body) !in Update(w2.tuples, ServiceRevoke(body));
    }
  }

  /** A raising grant leaves the token stored, nothing posted and nothing deleted. */
  lemma ServiceGrantFailureLeaksToken(w: World, urls: map<string, Json>, body: map<string, Json>, grant: Reply,
                                      dispatch: Outcome<Json>, revoke: Reply)
    requires grant.Failed?
    ensures var ep := DelegateAndRunEpisode(urls, JObj(body), grant, dispatch, revoke);
            var after := Apply(w, ep.effects);
            after.tokens == w.tokens[ServiceUser(body) := Get(body, "access_token")]
            && after.fgaLog == w.fgaLog + [ServiceGrant(body)] && after.dispatched == w.dispatched
            && ep.exit == Raise(grant.error)
  {
    ApplyServiceEpisode(w, urls, body, grant, dispatch, revoke);
  }

  /** A raising delete skips the pop: the token stays stored. */
  lemma ServiceRevokeFailureLeaksToken(w: World, urls: map<string, Json>, body: map<string, Json>, grant: Reply,
                                       dispatch: Outcome<Json>, revoke: Reply)
    requires !grant.Failed? && revoke.Failed?
    ensures var ep := DelegateAndRunEpisode(urls, JObj(body), grant, dispatch, revoke);
            var after := Apply(w, ep.effects);
            ServiceUser(body) in after.tokens && after.tokens[ServiceUser(body)] == Get(body, "access_token")
            && ep.exit == Raise(revoke.error)
  {
    ApplyServiceEpisode(w, urls, body, grant, dispatch, revoke);
  }

  /** With a grounded authority, a completed delegation leaves the contracted agent with no
      relation on the account it did not have before. */
  lemma ServiceDelegationIsTemporary(o: Oracle, w: World, urls: map<string, Json>, body: map<string, Json>,
                                     grant: Reply, dispatch: Outcome<Json>, revoke: Reply, relation: Json)
    requires Grounded(o) && !grant.Failed? && revoke.Applied()
    requires Unlinked(w.tuples, ServiceTuple(body).user, ServiceTuple(body).obj)
    ensures var after := Apply(w, DelegateAndRunEpisode(urls, JObj(body), grant, dispatch, revoke).effects);
            var t := AgentTuple(Get(body, "contracted_agent_id"), relation, ServiceUser(body));
            AllowedOf(OracleReply(o, after.tuples, t).body) == Return(false)
  {
    ApplyServiceEpisode(w, urls, body, grant, dispatch, revoke);
    var g := ServiceTuple(body);
    var w1 := ServiceGranted(w, body, grant);
    assert w1.tuples <= w.tuples + {g};
    var w3 := ServiceRevoked(ServiceDispatched(w1, urls, body), body, revoke);
    assert g in TupleSet(ServiceRevoke(body).deletes);
    assert w3.tuples <= w.tuples;
    var after := ServiceWorld(w, urls, body, grant, revoke);
    GroundedDenies(o, after.tuples, AgentTuple(Get(body, "contracted_agent_id"), relation, ServiceUser(body)));
  }

  // ----- the proxies -----

  /** What a proxied read does: the token presented to Gmail, if any, and the exit. */
  datatype Proxied = Proxied(presented: Option<Json>, exit: Outcome<Json>)

  const ReadForbidden: PyError := HTTPException(403, "Forbidden by OpenFGA: Agent cannot read emails.")
  const SendForbidden: PyError := HTTPException(403, "Forbidden by OpenFGA: Agent cannot send emails.")
  const NoToken: PyError := HTTPException(401, "No valid token for user.")

  /** `proxy_gmail_read`: the check comes first (403 unless `allowed` is truthy), then the
      token (401 when none, or a falsy one, is stored); only then is Gmail asked, and its
      answer returned whatever its status. */
  function ServiceRead(tokens: map<Json, Json>, body: Json, check: Reply, gmail: Outcome<Json>): (res: Proxied)
    ensures !body.JObj? ==> res == Proxied(None, Raise(BodyError(body)))
    ensures body.JObj? && Permission(check) == Return(false) ==> res == Proxied(None, Raise(ReadForbidden))
    ensures res.presented.Some? <==> body.JObj? && Permission(check) == Return(true)
                                     && TokenGet(tokens, Get(body.fields, "user_id")).Return?
                                     && Truthy(TokenGet(tokens, Get(body.fields, "user_id")).value)
    ensures res.presented.Some? ==> res.presented == Some(tokens[Get(body.fields, "user_id")]) && res.exit == gmail
    ensures (body.JObj? && Permission(check) == Return(true) && Hashable(Get(body.fields, "user_id"))
             && (Get(body.fields, "user_id") !in tokens || !Truthy(tokens[Get(body.fields, "user_id")])))
            ==> res == Proxied(None, Raise(NoToken))
  {
    if !body.JObj? then Proxied(None, Raise(BodyError(body)))
    else
      match Permission(check)
      case Raise(e) => Proxied(None, Raise(e))
      case Return(allowed) =>
        if !allowed then Proxied(None, Raise(ReadForbidden))
        else
          match TokenGet(tokens, Get(body.fields, "user_id"))
          case Raise(e) => Proxied(None, Raise(e))
          case Return(token) =>
            if !Truthy(token) then Proxied(None, Raise(NoToken)) else Proxied(Some(token), gmail)
  }

  /** `proxy_gmail_send`: only the check; an allowed call gets the dummy answer. */
  function ServiceSend(body: Json, check: Reply): (r: Outcome<Json>)
    ensures !body.JObj? ==> r == Raise(BodyError(body))
    ensures body.JObj? && Permission(check) == Return(false) ==> r == Raise(SendForbidden)
    ensures r.Return? <==> body.JObj? && Permission(check) == Return(true)
    ensures r.Return? ==> r.value == JObj(map["message" := JStr("This is a dummy response. If you see this, the check passed.")])
  {
    if !body.JObj? then Raise(BodyError(body))
    else
      match Permission(check)
      case Raise(e) => Raise(e)
      case Return(allowed) =>
        if !allowed then Raise(SendForbidden)
        else Return(JObj(map["message" := JStr("This is a dummy response. If you see this, the check passed.")]))
  }

  /** The tuple the send proxy checks. */
  function SendTuple(body: map<string, Json>): Tuple {
    AgentTuple(Get(body, "agent_id"), CanSendEmails, Get(body, "user_id"))
  }

  /** After a completed delegation, the contracted agent's read through the proxy is refused
      with 403 by a grounded authority, and Gmail is never asked. */
  lemma ServiceReadAfterDelegationRefused(o: Oracle, w: World, urls: map<string, Json>, body: map<string, Json>,
                                          grant: Reply, dispatch: Outcome<Json>, revoke: Reply,
                                          read: map<string, Json>, gmail: Outcome<Json>)
    requires Grounded(o) && !grant.Failed? && revoke.Applied()
    requires Unlinked(w.tuples, ServiceTuple(body).user, ServiceTuple(body).obj)
    requires Get(read, "agent_id") == Get(body, "contracted_agent_id") && Get(read, "user_id") == ServiceUser(body)
    ensures var after := Apply(w, DelegateAndRunEpisode(urls, JObj(body), grant, dispatch, revoke).effects);
            ServiceRead(after.tokens, JObj(read), OracleReply(o, after.tuples, ReadTuple(read)), gmail)
            == Proxied(None, Raise(ReadForbidden))
  {
    ServiceDelegationIsTemporary(o, w, urls, body, grant, dispatch, revoke, CanReadEmails);
  }

  /** The proxy reaches Gmail only with a token stored by a delegation still in flight: while
      the contracted agent's request is out, the token it is sent for is presented. */
  lemma ServiceReadDuringDelegation(w: World, urls: map<string, Json>, body: map<string, Json>, grant: Reply,
                                    read: map<string, Json>, check: Reply, gmail: Outcome<Json>)
    requires Permission(check) == Return(true) && Get(read, "user_id") == ServiceUser(body)
    requires Truthy(Get(body, "access_token"))
    ensures var inFlight := ServiceGranted(w, body, grant);
            ServiceRead(inFlight.tokens, JObj(read), check, gmail) == Proxied(Some(Get(body, "access_token")), gmail)
  {
  }

  /** The service's state: the authority it writes to, its URL table, the token store, and the
      requests it sent to agents and to Gmail. */
  class PersonalService {
    const authority: Authority
    const agentUrls: map<string, Json>
    var tokenStorage: map<Json, Json>
    var dispatched: seq<(string, Json)>
    var gmailCalls: seq<Json>

    constructor (authority: Authority, goodUrl: Json, maliciousUrl: Json)
      ensures this.authority == authority && agentUrls == AgentUrls(goodUrl, maliciousUrl)
      ensures tokenStorage == map[] && dispatched == [] && gmailCalls == []
    {
      this.authority := authority;
      agentUrls := AgentUrls(goodUrl, maliciousUrl);
      tokenStorage := map[];
      dispatched := [];
      gmailCalls := [];
    }

    function State(): World
      reads this, authority
    {
      World(tokenStorage, map[], authority.tuples, authority.log, dispatched)
    }

    /** `fga_write(tuples, deletes)`: the reply's status is never looked at. */
    method FgaWrite(req: Request, reply: Reply) returns (r: Outcome<()>)
      requires req.Write?
      modifies authority
      ensures authority.log == old(authority.log) + [req]
      ensures authority.tuples == (if reply.Applied() then Update(old(authority.tuples), req) else old(authority.tuples))
      ensures r == (if reply.Failed? then Raise(reply.error) else Return(()))
    {
      var _ := authority.Post(req, reply);
      r := if reply.Failed? then Raise(reply.error) else Return(());
    }

    /** `fga_check(user, relation, object)`: the `allowed` field, missing meaning denied. */
    method FgaCheck(t: Tuple, reply: Reply) returns (r: Outcome<bool>)
      modifies authority
      ensures authority.log == old(authority.log) + [Check(t)]
      ensures authority.tuples == old(authority.tuples)
      ensures r == Permission(reply)
    {
      var answer := authority.Post(Check(t), reply);
      if answer.Raise? {
        return Raise(answer.error);
      }
      r := AllowedOf(answer.value);
    }

    /** `delegate_and_run`, proved to act on the world exactly as `DelegateAndRunEpisode`. */
    method DelegateAndRun(body: Json, grant: Reply, dispatch: Outcome<Json>, revoke: Reply) returns (r: Outcome<Json>)
      modifies this, authority
      ensures State() == Apply(old(State()), DelegateAndRunEpisode(agentUrls, body, grant, dispatch, revoke).effects)
      ensures r == DelegateAndRunEpisode(agentUrls, body, grant, dispatch, revoke).exit
      ensures gmailCalls == old(gmailCalls)
    {
      if !body.JObj? {
        return Raise(BodyError(body));
      }
      var f := body.fields;
      ghost var w0 := State();
      ApplyServiceEpisode(w0, agentUrls, f, grant, dispatch, revoke);
      var g := StoreAndGrant(f, grant);
      if g.Raise? {
        return Raise(g.error);
      }
      ghost var w1 := State();
      var outcome := DispatchToAgent(f, dispatch);
      assert State() == ServiceDispatched(w1, agentUrls, f);
      var v := RevokeAndPop(f, revoke);
      if v.Raise? {
        return Raise(v.error);
      }
      r := outcome;
    }

    /** The token is stored, then the grant written. */
    method StoreAndGrant(f: map<string, Json>, grant: Reply) returns (g: Outcome<()>)
      modifies this, authority
      ensures State() == ServiceGranted(old(State()), f, grant)
      ensures g == (if grant.Failed? then Raise(grant.error) else Return(()))
      ensures gmailCalls == old(gmailCalls)
    {
      tokenStorage := tokenStorage[ServiceUser(f) := Get(f, "access_token")];
      g := FgaWrite(ServiceGrant(f), grant);
    }

    /** The contracted agent's URL is looked up and the user posted to it; a missing agent
        raises before anything is posted. */
    method DispatchToAgent(f: map<string, Json>, dispatch: Outcome<Json>) returns (outcome: Outcome<Json>)
      modifies this
      ensures State() == ServiceDispatched(old(State()), agentUrls, f)
      ensures var lookup := AgentUrl(agentUrls, Get(f, "contracted_agent_id"));
              outcome == (if lookup.Raise? then Raise(lookup.error) else dispatch)
      ensures gmailCalls == old(gmailCalls)
    {
      var lookup := AgentUrl(agentUrls, Get(f, "contracted_agent_id"));
      if lookup.Raise? {
        outcome := Raise(lookup.error);
      } else {
        dispatched := dispatched + [(Render(lookup.value), JObj(map["user_id" := ServiceUser(f)]))];
        outcome := dispatch;
      }
    }

    /** The `finally` of `delegate_and_run`: the revoke, then the pop unless it raised. */
    method RevokeAndPop(f: map<string, Json>, revoke: Reply) returns (v: Outcome<()>)
      modifies this, authority
      ensures revoke.Failed? ==> State() == ServiceRevoked(old(State()), f, revoke) && v == Raise(revoke.error)
      ensures revoke.Answered? ==>
                State() == ServiceRevoked(old(State()), f, revoke).(tokens := old(tokenStorage) - {ServiceUser(f)})
                && v == Return(())
      ensures gmailCalls == old(gmailCalls)
    {
      v := FgaWrite(ServiceRevoke(f), revoke);
      if v.Raise? {
        return;
      }
      tokenStorage := tokenStorage - {ServiceUser(f)};
    }

    /** `proxy_gmail_read`, proved to act as `ServiceRead`: one check when the body is a dict,
        at most one Gmail call. */
    method ProxyGmailRead(body: Json, check: Reply, gmail: Outcome<Json>) returns (r: Outcome<Json>)
      modifies this, authority
      ensures var res := ServiceRead(old(tokenStorage), body, check, gmail);
              r == res.exit && gmailCalls == old(gmailCalls) + (if res.presented.Some? then [res.presented.value] else [])
      ensures authority.log == old(authority.log) + (if body.JObj? then [Check(ReadTuple(body.fields))] else [])
      ensures authority.tuples == old(authority.tuples)
      ensures tokenStorage == old(tokenStorage) && dispatched == old(dispatched)
    {
      if !body.JObj? {
        return Raise(BodyError(body));
      }
      var allowed := FgaCheck(ReadTuple(body.fields), check);
      if allowed.Raise? {
        return Raise(allowed.error);
      }
      if !allowed.value {
        return Raise(ReadForbidden);
      }
      var token := TokenGet(tokenStorage, Get(body.fields, "user_id"));
      if token.Raise? {
        return Raise(token.error);
      }
      if !Truthy(token.value) {
        return Raise(NoToken);
      }
      gmailCalls := gmailCalls + [token.value];
      r := gmail;
    }

    /** `proxy_gmail_send`, proved to act as `ServiceSend`. */
    method ProxyGmailSend(body: Json, check: Reply) returns (r: Outcome<Json>)
      modifies authority
      ensures r == ServiceSend(body, check)
      ensures authority.log == old(authority.log) + (if body.JObj? then [Check(SendTuple(body.fields))] else [])
      ensures authority.tuples == old(authority.tuples)
    {
      if !body.JObj? {
        return Raise(BodyError(body));
      }
      var allowed := FgaCheck(SendTuple(body.fields), check);
      if allowed.Raise? {
        return Raise(allowed.error);
      }
      if !allowed.value {
        return Raise(SendForbidden);
      }
      r := Return(JObj(map["message" := JStr("This is a dummy response. If you see this, the check passed.")]));
    }
  }
}
