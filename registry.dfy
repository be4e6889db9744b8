/** The marketplace registry (mcp_server/mcp_registry.py): two dictionaries keyed by agent id,
    one holding the registered entry (the agent card's fields plus `registered_at` and
    `endpoint`), the other the endpoint alone. Python dictionaries keep insertion order, which
    `list_agents` and the `find_*` queries expose; the field `order` models it. */
module Registry {
  import opened PyJson

  /** A registered entry, as the dict `{**agent_card, "registered_at": ..., "endpoint": ...}`. */
  type Entry = map<string, Json>

  /** The entry `register_agent` stores: later keys win, so the card's own `registered_at`
      and `endpoint` (if any) are overwritten. */
  function MakeEntry(card: map<string, Json>, endpoint: string, registeredAt: string): (e: Entry)
    ensures e.Keys == card.Keys + {"registered_at", "endpoint"}
    ensures e["endpoint"] == JStr(endpoint) && e["registered_at"] == JStr(registeredAt)
    ensures forall k :: k in card && k != "registered_at" && k != "endpoint" ==> e[k] == card[k]
  {
    card + map["registered_at" := JStr(registeredAt), "endpoint" := JStr(endpoint)]
  }

  /** `tag in entry.get(field, [])`: a missing field is an empty list. */
  function TagTest(e: Entry, field: string, tag: string): (r: Outcome<bool>)
    ensures field !in e ==> r == Return(false)
    ensures field in e && e[field].JArr? ==> r == Return(JStr(tag) in e[field].items)
    ensures r.Raise? <==> field in e && !(e[field].JArr? || e[field].JStr? || e[field].JObj?)
  {
    ContainsStr(GetOr(e, field, JArr([])), tag)
  }

  predicate Hits(e: Entry, field: string, tag: string) {
    TagTest(e, field, tag) == Return(true)
  }

  /** The entries whose `field` holds `tag`, in their order; the first entry whose field is
      not a container makes the whole query raise (the loop in `find_agents_by_*`). */
  function Matching(entries: seq<Entry>, field: string, tag: string): (r: Outcome<seq<Entry>>)
    ensures r.Raise? ==> r.error.TypeError?
    decreases |entries|
  {
    if entries == [] then Return([])
    else
      var last := entries[|entries| - 1];
      match Matching(entries[..|entries| - 1], field, tag)
      case Raise(e) => Raise(e)
      case Return(acc) =>
        match TagTest(last, field, tag)
        case Raise(e) => Raise(e)
        case Return(hit) => Return(if hit then acc + [last] else acc)
  }

  /** `idx` lists, in increasing order, the positions in `entries` that `ms` was taken from. */
  ghost predicate Picks<T>(idx: seq<nat>, ms: seq<T>, entries: seq<T>) {
    && |idx| == |ms|
    && (forall k :: 0 <= k < |idx| ==> idx[k] < |entries| && ms[k] == entries[idx[k]])
    && (forall k, l :: 0 <= k < l < |idx| ==> idx[k] < idx[l])
  }

  /** The positions in `idx` are exactly the positions of `entries` that match. */
  ghost predicate ExactPositions(idx: seq<nat>, entries: seq<Entry>, field: string, tag: string) {
    forall k :: 0 <= k < |entries| ==> (k in idx <==> Hits(entries[k], field, tag))
  }

  /** One step of the query: an answering query over a non-empty list answered over all but
      the last entry too, and appended the last entry exactly when it matches. */
  lemma MatchingStep(entries: seq<Entry>, field: string, tag: string)
    requires entries != [] && Matching(entries, field, tag).Return?
    ensures var n := |entries| - 1;
      && Matching(entries[..n], field, tag).Return?
      && TagTest(entries[n], field, tag).Return?
      && Matching(entries, field, tag).value
         == Matching(entries[..n], field, tag).value + (if Hits(entries[n], field, tag) then [entries[n]] else [])
  {
  }

  /** A query that answers returns exactly the matching entries, as a subsequence of the
      registry's entries: the positions it picks are exactly the positions that match. */
  lemma {:induction false} MatchingSelectsExactly(entries: seq<Entry>, field: string, tag: string)
      returns (idx: seq<nat>)
    requires Matching(entries, field, tag).Return?
    ensures Picks(idx, Matching(entries, field, tag).value, entries)
    ensures ExactPositions(idx, entries, field, tag)
    decreases |entries|
  {
    var ms := Matching(entries, field, tag).value;
    if entries == [] {
      idx := [];
    } else {
      var n := |entries| - 1;
      var init := entries[..n];
      MatchingStep(entries, field, tag);
      var idx0 := MatchingSelectsExactly(init, field, tag);
      var acc := Matching(init, field, tag).value;
      assert forall k :: k in idx0 ==> k < |init|;
      if Hits(entries[n], field, tag) {
        idx := idx0 + [n];
        assert ms == acc + [entries[n]];
      } else {
        idx := idx0;
        assert ms == acc;
      }
      PicksExtend(idx0, acc, init, entries, idx, ms);
      PositionsExtend(idx0, init, entries, field, tag, idx);
    }
  }

  lemma PicksExtend<T>(idx0: seq<nat>, acc: seq<T>, init: seq<T>, entries: seq<T>, idx: seq<nat>, ms: seq<T>)
    requires entries != [] && init == entries[..|entries| - 1] && Picks(idx0, acc, init)
    requires (idx == idx0 + [|init|] && ms == acc + [entries[|init|]]) || (idx == idx0 && ms == acc)
    ensures Picks(idx, ms, entries)
  {
    assert forall k :: 0 <= k < |idx0| ==> idx0[k] < |init| && init[idx0[k]] == entries[idx0[k]];
  }

  lemma PositionsExtend(idx0: seq<nat>, init: seq<Entry>, entries: seq<Entry>, field: string, tag: string, idx: seq<nat>)
    requires entries != [] && init == entries[..|entries| - 1] && ExactPositions(idx0, init, field, tag)
    requires forall k :: k in idx0 ==> k < |init|
    requires var n := |init|;
      (idx == idx0 + [n] && Hits(entries[n], field, tag)) || (idx == idx0 && !Hits(entries[n], field, tag))
    ensures ExactPositions(idx, entries, field, tag)
  {
    var n := |init|;
    forall k | 0 <= k < |entries|
      ensures k in idx <==> Hits(entries[k], field, tag)
    {
      if k < n {
        assert entries[k] == init[k];
      }
    }
  }

  /** The query raises exactly when some entry holds a `field` that `in` cannot search. */
  lemma {:induction false} MatchingRaisesIff(entries: seq<Entry>, field: string, tag: string)
    ensures Matching(entries, field, tag).Raise?
        <==> exists k :: 0 <= k < |entries| && TagTest(entries[k], field, tag).Raise?
    decreases |entries|
  {
    if entries != [] {
      var n := |entries| - 1;
      MatchingRaisesIff(entries[..n], field, tag);
      assert forall k :: 0 <= k < n ==> entries[..n][k] == entries[k];
    }
  }

  /** The query over one more entry: it raises with the entry's error, or appends the entry
      when it matches. */
  lemma MatchingExtend(entries: seq<Entry>, i: nat, field: string, tag: string, acc: seq<Entry>)
    requires i < |entries| && Matching(entries[..i], field, tag) == Return(acc)
    ensures TagTest(entries[i], field, tag).Raise? ==> Matching(entries[..i + 1], field, tag) == Raise(TagTest(entries[i], field, tag).error)
    ensures TagTest(entries[i], field, tag).Return? ==>
      Matching(entries[..i + 1], field, tag) == Return(if TagTest(entries[i], field, tag).value then acc + [entries[i]] else acc)
  {
    assert entries[..i + 1][..i] == entries[..i];
  }

  /** Once a prefix of the entries raises, so does the whole query, with the same error. */
  lemma {:induction false} MatchingPrefixRaises(entries: seq<Entry>, i: nat, field: string, tag: string)
    requires i <= |entries| && Matching(entries[..i], field, tag).Raise?
    ensures Matching(entries, field, tag) == Matching(entries[..i], field, tag)
    decreases |entries| - i
  {
    if i < |entries| {
      var next := entries[..i + 1];
      assert next[..i] == entries[..i];
      MatchingPrefixRaises(entries, i + 1, field, tag);
    } else {
      assert entries[..i] == entries;
    }
  }

  predicate Distinct(s: seq<string>) {
    forall i, j :: 0 <= i < j < |s| ==> s[i] != s[j]
  }

  /** `s` with every occurrence of `x` removed, the rest in order. */
  function Without(s: seq<string>, x: string): (r: seq<string>)
    ensures forall y :: y in r <==> y in s && y != x
    ensures Distinct(s) ==> Distinct(r)
    decreases |s|
  {
    if s == [] then []
    else
      var rest := Without(s[..|s| - 1], x);
      assert forall y :: y in s <==> y in s[..|s| - 1] || y == s[|s| - 1];
      assert Distinct(s) ==> Distinct(s[..|s| - 1]) && s[|s| - 1] !in s[..|s| - 1];
      if s[|s| - 1] == x then rest else rest + [s[|s| - 1]]
  }

  /** Removing an id keeps the survivors in their order: `Without(s, x)` is the subsequence of
      `s` at exactly the positions that do not hold `x`. */
  lemma {:induction false} WithoutKeepsOrder(s: seq<string>, x: string) returns (idx: seq<nat>)
    ensures Picks(idx, Without(s, x), s)
    ensures forall k :: 0 <= k < |s| ==> (k in idx <==> s[k] != x)
    decreases |s|
  {
    if s == [] {
      idx := [];
    } else {
      var n := |s| - 1;
      var init := s[..n];
      var idx0 := WithoutKeepsOrder(init, x);
      var acc := Without(init, x);
      assert forall k :: k in idx0 ==> k < |init|;
      if s[n] == x {
        idx := idx0;
      } else {
        idx := idx0 + [n];
      }
      PicksExtend(idx0, acc, init, s, idx, Without(s, x));
      forall k | 0 <= k < |s|
        ensures k in idx <==> s[k] != x
      {
        if k < n {
          assert s[k] == init[k];
        }
      }
    }
  }

  lemma DistinctSnoc(s: seq<string>, x: string)
    requires Distinct(s) && x !in s
    ensures Distinct(s + [x])
  {
    var t := s + [x];
    forall i, j | 0 <= i < j < |t|
      ensures t[i] != t[j]
    {
      if j == |s| {
        assert t[i] == s[i];
      }
    }
  }

  /** A list without repeats has as many elements as its set of elements. */
  lemma {:induction false} DistinctCardinality(s: seq<string>)
    requires Distinct(s)
    ensures |set x | x in s| == |s|
    decreases |s|
  {
    if s != [] {
      var init := s[..|s| - 1];
      DistinctCardinality(init);
      assert (set x | x in s) == (set x | x in init) + {s[|s| - 1]};
      assert s[|s| - 1] !in init;
    }
  }

  /** The registry's entries in dict order: what `list(self.agents.values())` yields. */
  function ValuesOf(order: seq<string>, agents: map<string, Entry>): (r: seq<Entry>)
    requires forall id :: id in order ==> id in agents
    ensures |r| == |order|
    ensures forall i :: 0 <= i < |order| ==> r[i] == agents[order[i]]
    decreases |order|
  {
    if order == [] then [] else ValuesOf(order[..|order| - 1], agents) + [agents[order[|order| - 1]]]
  }

  /** When `order` lists the keys of `agents` once each, the values hold one entry per key. */
  lemma ValuesOfComplete(order: seq<string>, agents: map<string, Entry>)
    requires Distinct(order)
    requires forall id :: id in agents <==> id in order
    ensures |ValuesOf(order, agents)| == |agents|
    ensures forall id :: id in agents ==> agents[id] in ValuesOf(order, agents)
  {
    DistinctCardinality(order);
    assert (set x | x in order) == agents.Keys;
    var r := ValuesOf(order, agents);
    forall id | id in agents
      ensures agents[id] in r
    {
      var k :| 0 <= k < |order| && order[k] == id;
      assert r[k] == agents[id];
    }
  }

  /** The two dictionaries have the same keys, the order lists every key once, and each
      entry's `endpoint` agrees with `agent_endpoints`. */
  ghost predicate Consistent(agents: map<string, Entry>, endpoints: map<string, string>, order: seq<string>) {
    && agents.Keys == endpoints.Keys
    && Distinct(order)
    && (forall id :: id in agents <==> id in order)
    && (forall id :: id in agents ==> "endpoint" in agents[id] && agents[id]["endpoint"] == JStr(endpoints[id]))
  }

  /** Registering keeps the registry consistent. */
  lemma InsertConsistent(agents: map<string, Entry>, endpoints: map<string, string>, order: seq<string>,
                         id: string, e: Entry, endpoint: string)
    requires Consistent(agents, endpoints, order)
    requires "endpoint" in e && e["endpoint"] == JStr(endpoint)
    ensures Consistent(agents[id := e], endpoints[id := endpoint], if id in agents then order else order + [id])
  {
    if id !in agents {
      DistinctSnoc(order, id);
    }
  }

  /** Unregistering keeps the registry consistent. */
  lemma RemoveConsistent(agents: map<string, Entry>, endpoints: map<string, string>, order: seq<string>, id: string)
    requires Consistent(agents, endpoints, order)
    ensures Consistent(agents - {id}, endpoints - {id}, Without(order, id))
  {
  }

  class Registry {
    var agents: map<string, Entry>
    var agentEndpoints: map<string, string>
    /** Insertion order of the keys of `agents` (Python dicts iterate in this order). */
    var order: seq<string>

    ghost predicate Valid()
      reads this
    {
      Consistent(agents, agentEndpoints, order)
    }

    constructor ()
      ensures Valid() && agents == map[] && agentEndpoints == map[] && order == []
    {
      agents, agentEndpoints, order := map[], map[], [];
    }

    /** `register_agent(agent_card, endpoint)`: stores or wholly replaces the entry of
        `agent_card["agent_id"]`; a card with no `agent_id` raises KeyError and changes nothing.
        A replaced id keeps its place in the order; a new id goes last. */
    method RegisterAgent(card: map<string, Json>, endpoint: string, registeredAt: string) returns (r: Outcome<()>)
      requires Valid()
      requires "agent_id" in card ==> card["agent_id"].JStr?
      modifies this
      ensures Valid()
      ensures "agent_id" !in card ==> r == Raise(KeyError(JStr("agent_id"))) && unchanged(this)
      ensures "agent_id" in card ==>
        var id := card["agent_id"].s;
        && r == Return(())
        && agents == old(agents)[id := MakeEntry(card, endpoint, registeredAt)]
        && agentEndpoints == old(agentEndpoints)[id := endpoint]
        && order == (if id in old(agents) then old(order) else old(order) + [id])
    {
      if "agent_id" !in card {
        return Raise(KeyError(JStr("agent_id")));
      }
      var id := card["agent_id"].s;
      InsertConsistent(agents, agentEndpoints, order, id, MakeEntry(card, endpoint, registeredAt), endpoint);
      if id !in agents {
        order := order + [id];
      }
      agents := agents[id := MakeEntry(card, endpoint, registeredAt)];
      agentEndpoints := agentEndpoints[id := endpoint];
      r := Return(());
    }

    /** `unregister_agent(agent_id)`: removes the id from both dictionaries, or does nothing
        when it is not registered. */
    method UnregisterAgent(id: string)
      requires Valid()
      modifies this
      ensures Valid()
      ensures id !in old(agents) ==> unchanged(this)
      ensures id in old(agents) ==>
        && agents == old(agents) - {id}
        && agentEndpoints == old(agentEndpoints) - {id}
        && order == Without(old(order), id)
    {
      if id in agents {
        RemoveConsistent(agents, agentEndpoints, order, id);
        agents := agents - {id};
        agentEndpoints := agentEndpoints - {id};
        order := Without(order, id);
      }
    }

    /** `get_agent(agent_id)`: the entry, or None. */
    method GetAgent(id: string) returns (r: Option<Entry>)
      ensures id in agents <==> r.Some?
      ensures r.Some? ==> r.value == agents[id]
    {
      r := if id in agents then Some(agents[id]) else None;
    }

    /** `list_agents()`: one entry per registered id, in dict order; its length is the
        `registered_agents` count of the health route. */
    method ListAgents() returns (r: seq<Entry>)
      requires Valid()
      ensures r == ValuesOf(order, agents)
      ensures |r| == |agents|
      ensures forall id :: id in agents ==> agents[id] in r
    {
      r := [];
      var i := 0;
      while i < |order|
        invariant 0 <= i <= |order|
        invariant r == ValuesOf(order[..i], agents)
      {
        assert order[..i + 1][..i] == order[..i];
        r := r + [agents[order[i]]];
        i := i + 1;
      }
      assert order[..|order|] == order;
      ValuesOfComplete(order, agents);
    }

    /** The loop shared by `find_agents_by_capability` and `find_agents_by_tool`. */
    method FindBy(field: string, tag: string) returns (r: Outcome<seq<Entry>>)
      requires Valid()
      ensures r == Matching(ValuesOf(order, agents), field, tag)
    {
      var values := ValuesOf(order, agents);
      var matching := [];
      var i := 0;
      while i < |values|
        invariant 0 <= i <= |values|
        invariant Matching(values[..i], field, tag) == Return(matching)
      {
        MatchingExtend(values, i, field, tag, matching);
        var agent := values[i];
        var hit := TagTest(agent, field, tag);
        if hit.Raise? {
          MatchingPrefixRaises(values, i + 1, field, tag);
          return Raise(hit.error);
        }
        if hit.value {
          matching := matching + [agent];
        }
        i := i + 1;
      }
      assert values[..i] == values;
      r := Return(matching);
    }

    /** `find_agents_by_capability(capability)`. */
    method FindAgentsByCapability(capability: string) returns (r: Outcome<seq<Entry>>)
      requires Valid()
      ensures r == Matching(ValuesOf(order, agents), "capabilities", capability)
    {
      r := FindBy("capabilities", capability);
    }

    /** `find_agents_by_tool(tool)`. */
    method FindAgentsByTool(tool: string) returns (r: Outcome<seq<Entry>>)
      requires Valid()
      ensures r == Matching(ValuesOf(order, agents), "tools", tool)
    {
      r := FindBy("tools", tool);
    }
  }

  /** Registering an agent with capability "x" makes a query for "x" return it alone;
      unregistering it makes the same query return nothing. */
  method DiscoverThenUnregister(id: string, endpoint: string, t: string)
    returns (before: Outcome<seq<Entry>>, after: Outcome<seq<Entry>>)
    ensures before == Return([MakeEntry(map["agent_id" := JStr(id), "capabilities" := JArr([JStr("x")])], endpoint, t)])
    ensures after == Return([])
  {
    var registry := new Registry();
    var card := map["agent_id" := JStr(id), "capabilities" := JArr([JStr("x")])];
    var _ := registry.RegisterAgent(card, endpoint, t);
    assert registry.order == [id];
    assert ValuesOf(registry.order, registry.agents) == [MakeEntry(card, endpoint, t)];
    before := registry.FindAgentsByCapability("x");
    registry.UnregisterAgent(id);
    after := registry.FindAgentsByCapability("x");
  }
}
