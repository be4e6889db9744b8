/** What a delegation episode does to the world around the personal agent, as an ordered trace
    of effects: the token store, the session memory, the authority's tuples and request log,
    and the requests sent to the delegated agent. Both implementations of the delegation
    controller (personal_agent/personal_agent_adk.py and personal_agent/main.py) are given as
    a pure episode function producing such a trace and an exit; their imperative versions are
    proved to leave the world in `Apply(old world, trace)`. */
module Delegation {
  import opened PyJson
  import opened Fga

  datatype Effect =
    | StoreToken(user: Json, token: Json)       // token_storage[user] = token
    | Remember(key: string, value: Json)        // memorize(key, value)
    | FgaCall(request: Request, applied: bool)  // a request reaches the authority
    | Dispatch(target: string, message: Json)   // a task is posted to the delegated agent
    | ClearToken(user: Json)                    // token_storage.pop(user, None)

  datatype World = World(
    tokens: map<Json, Json>,
    memory: map<string, Json>,
    tuples: set<Tuple>,
    fgaLog: seq<Request>,
    dispatched: seq<(string, Json)>)

  function Step(w: World, e: Effect): World {
    match e
    case StoreToken(u, t) => w.(tokens := w.tokens[u := t])
    case Remember(k, v) => w.(memory := w.memory[k := v])
    case FgaCall(req, applied) =>
      w.(fgaLog := w.fgaLog + [req], tuples := if applied then Update(w.tuples, req) else w.tuples)
    case Dispatch(target, message) => w.(dispatched := w.dispatched + [(target, message)])
    case ClearToken(u) => w.(tokens := w.tokens - {u})
  }

  /** The world after a trace of effects, in order. */
  function Apply(w: World, es: seq<Effect>): World
    decreases |es|
  {
    if es == [] then w else Step(Apply(w, es[..|es| - 1]), es[|es| - 1])
  }

  lemma ApplySnoc(w: World, es: seq<Effect>, e: Effect)
    ensures Apply(w, es + [e]) == Step(Apply(w, es), e)
  {
    assert (es + [e])[..|es|] == es;
  }

  /** Running two traces one after the other is running their concatenation. */
  lemma {:induction false} ApplyAppend(w: World, a: seq<Effect>, b: seq<Effect>)
    ensures Apply(w, a + b) == Apply(Apply(w, a), b)
    decreases |b|
  {
    if b != [] {
      var init := b[..|b| - 1];
      assert a + b == (a + init) + [b[|b| - 1]];
      ApplySnoc(w, a + init, b[|b| - 1]);
      ApplyAppend(w, a, init);
      ApplySnoc(Apply(w, a), init, b[|b| - 1]);
      assert b == init + [b[|b| - 1]];
    } else {
      assert a + b == a;
    }
  }

  /** How an episode ends, and what it did on the way. */
  datatype Episode = Episode(effects: seq<Effect>, exit: Outcome<Json>)

  /** Values Python can use as dict keys (lists and dicts cannot). */
  predicate Hashable(j: Json) { !j.JArr? && !j.JObj? }

  function UnhashableError(j: Json): PyError {
    TypeError("unhashable type: '" + TypeName(j) + "'")
  }

  /** `token_storage.get(user)` as a Python call. */
  function TokenGet(tokens: map<Json, Json>, user: Json): (r: Outcome<Json>)
    ensures r.Raise? <==> !Hashable(user)
    ensures Hashable(user) ==> r == Return(if user in tokens then tokens[user] else JNull)
  {
    if !Hashable(user) then Raise(UnhashableError(user))
    else Return(if user in tokens then tokens[user] else JNull)
  }
}
