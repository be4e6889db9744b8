/** The OpenFGA authority as the personal agent sees it: relationship tuples, the write and
    check requests the core sends (their JSON bodies and endpoints), the authority's tuple set
    and the log of requests it received.

    The authority's authorization model, which decides a check from the stored tuples, is not
    part of the repository; a check's answer is an input (`Reply`), and properties that need
    it take the decision procedure as a parameter (`Oracle`). Whether a write is committed is
    an input as well, since the core never looks at the HTTP status of a write. */
module Fga {
  import opened PyJson

  /** A relationship tuple `{user, relation, object}`; the core builds its fields from
      request values, so they are Json. */
  datatype Tuple = Tuple(user: Json, relation: Json, obj: Json) {
    /** The tuple's JSON form. */
    function Key(): (j: Json)
      ensures j.JObj? && j.fields.Keys == {"user", "relation", "object"}
    {
      JObj(map["user" := user, "relation" := relation, "object" := obj])
    }
  }

  /** `{"user": "agent:<a>", "relation": <rel>, "object": "gmail_account:<u>"}`, the shape of
      every tuple the core writes, deletes or checks. */
  function AgentTuple(agentId: Json, relation: Json, userId: Json): (t: Tuple)
    ensures t.user == JStr("agent:" + Render(agentId)) && t.relation == relation
    ensures t.obj == JStr("gmail_account:" + Render(userId))
  {
    Tuple(JStr("agent:" + Render(agentId)), relation, JStr("gmail_account:" + Render(userId)))
  }

  /** A request to the authority. A write carries a `writes` part, a `deletes` part, or both
      (`None` when the key is absent from the body). */
  datatype Request =
    | Write(writes: Option<seq<Tuple>>, deletes: Option<seq<Tuple>>)
    | Check(tuple: Tuple)

  /** The tuples as a JSON list. */
  function TupleKeys(ts: seq<Tuple>): (items: seq<Json>)
    ensures |items| == |ts| && forall i :: 0 <= i < |ts| ==> items[i] == ts[i].Key()
    decreases |ts|
  {
    if ts == [] then [] else TupleKeys(ts[..|ts| - 1]) + [ts[|ts| - 1].Key()]
  }

  /** The request's JSON body: `{"writes": {"tuple_keys": [...]}, "deletes": {...}}` with only
      the parts present, or `{"tuple_key": {...}}` for a check. */
  function Body(req: Request): (j: Json)
    ensures j.JObj?
    ensures req.Write? ==> ("writes" in j.fields <==> req.writes.Some?) && ("deletes" in j.fields <==> req.deletes.Some?)
                           && j.fields.Keys <= {"writes", "deletes"}
    ensures req.Check? ==> j.fields.Keys == {"tuple_key"} && j.fields["tuple_key"] == req.tuple.Key()
  {
    match req
    case Write(writes, deletes) =>
      var w := if writes.Some? then map["writes" := JObj(map["tuple_keys" := JArr(TupleKeys(writes.value))])] else map[];
      var d := if deletes.Some? then map["deletes" := JObj(map["tuple_keys" := JArr(TupleKeys(deletes.value))])] else map[];
      JObj(w + d)
    case Check(t) => JObj(map["tuple_key" := t.Key()])
  }

  /** The URL a request is posted to. */
  function Endpoint(apiUrl: string, storeId: string, req: Request): string {
    apiUrl + "/stores/" + storeId + (if req.Write? then "/write" else "/check")
  }

  function TupleSet(ts: Option<seq<Tuple>>): set<Tuple> {
    match ts
    case None => {}
    case Some(s) => set t | t in s
  }

  /** The tuple set after the authority commits a request: a check changes nothing; a write
      removes its deletes and adds its writes. */
  function Update(tuples: set<Tuple>, req: Request): (after: set<Tuple>)
    ensures req.Check? ==> after == tuples
    ensures req.Write? ==> forall t :: t in after <==> t in TupleSet(req.writes) || (t in tuples && t !in TupleSet(req.deletes))
  {
    match req
    case Check(_) => tuples
    case Write(writes, deletes) => (tuples - TupleSet(deletes)) + TupleSet(writes)
  }

  /** How a call to the authority ends: the HTTP exchange completes (with any status; the
      write is committed or not, and the body is what `res.json()` yields), or the client
      raises (a broken connection, a time-out), with or without the write committed. */
  datatype Reply =
    | Answered(committed: bool, body: Json)
    | Failed(error: PyError, applied: bool)
  {
    predicate Applied() {
      match this
      case Answered(committed, _) => committed
      case Failed(_, applied) => applied
    }
  }

  /** `x.get("allowed", False)` made a truth value: a missing field is a denial, and a body
      that is not a dict raises AttributeError. */
  function AllowedOf(body: Json): (r: Outcome<bool>)
    ensures r.Return? <==> body.JObj?
    ensures body.JObj? && "allowed" !in body.fields ==> r == Return(false)
    ensures body.JObj? && "allowed" in body.fields ==> r == Return(Truthy(body.fields["allowed"]))
  {
    match DictGet(body, "allowed", JBool(false))
    case Raise(e) => Raise(e)
    case Return(v) => Return(Truthy(v))
  }

  /** The authority's decision procedure: whether a check of a tuple succeeds against a set of
      stored tuples. */
  type Oracle = (set<Tuple>, Tuple) -> bool

  /** The reply an authority deciding with `o` gives to a check of `t` over `tuples`. */
  function OracleReply(o: Oracle, tuples: set<Tuple>, t: Tuple): Reply {
    Answered(false, JObj(map["allowed" := JBool(o(tuples, t))]))
  }

  /** The decision never relates a user to an object without a stored tuple between them:
      every relation the core checks is derived from stored tuples on the same user and
      object. */
  ghost predicate Grounded(o: Oracle)
    ensures Grounded(o) ==> forall t: Tuple :: !o({}, t)
  {
    forall tuples: set<Tuple>, t: Tuple :: o(tuples, t) ==>
      exists g :: g in tuples && g.user == t.user && g.obj == t.obj
  }

  /** No stored tuple links `user` to `obj`. */
  ghost predicate Unlinked(tuples: set<Tuple>, user: Json, obj: Json) {
    forall g :: g in tuples ==> !(g.user == user && g.obj == obj)
  }

  /** A grounded authority denies every check between an unlinked user and object. */
  lemma GroundedDenies(o: Oracle, tuples: set<Tuple>, t: Tuple)
    requires Grounded(o) && Unlinked(tuples, t.user, t.obj)
    ensures AllowedOf(OracleReply(o, tuples, t).body) == Return(false)
  {
    if o(tuples, t) {
      assert false;
    }
  }

  /** The authority: its stored tuples and every request it received, in order. */
  class Authority {
    var tuples: set<Tuple>
    var log: seq<Request>

    constructor (tuples: set<Tuple>)
      ensures this.tuples == tuples && log == []
    {
      this.tuples := tuples;
      log := [];
    }

    /** One HTTP POST to the authority: the request is received, the store changes exactly
        when a write is committed, and the caller gets the body or the client's exception. */
    method Post(req: Request, reply: Reply) returns (r: Outcome<Json>)
      modifies this
      ensures log == old(log) + [req]
      ensures tuples == (if reply.Applied() then Update(old(tuples), req) else old(tuples))
      ensures reply.Failed? ==> r == Raise(reply.error)
      ensures reply.Answered? ==> r == Return(reply.body)
    {
      log := log + [req];
      if reply.Applied() {
        tuples := Update(tuples, req);
      }
      r := if reply.Failed? then Raise(reply.error) else Return(reply.body);
    }
  }
}
