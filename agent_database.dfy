/** The in-memory agent database and its two queries: a case-insensitive
    find-first by name and a case-insensitive substring search over an agent's
    name, description, capabilities and strengths. The agents are the records
    the database was loaded with; loading them is not part of this model. */
module Agents {
  import opened Wrappers
  import opened Text

  /** One agent record. A list field the record does not carry reads as the
      empty list, as `agent.get(field, [])` does. */
  datatype Agent = Agent(
    name: string,
    description: string,
    capabilities: seq<string>,
    strengths: seq<string>,
    languages: seq<string>,
    frameworks: seq<string>)

  /** `agent['name'].lower() == name.lower()`: the names have the same length
      and agree character by character once capitals are made small */
  function NameMatches(agent: Agent, name: string): (r: bool)
    ensures r <==> |agent.name| == |name| && forall i :: 0 <= i < |name| ==> LowerChar(agent.name[i]) == LowerChar(name[i])
  {
    Lower(agent.name) == Lower(name)
  }

  /** `any(query in item.lower() for item in items)` */
  function AnyContains(items: seq<string>, query: string): (r: bool)
    ensures r <==> exists i :: 0 <= i < |items| && Contains(Lower(items[i]), query)
  {
    if items == [] then false
    else Contains(Lower(items[0]), query) || AnyContains(items[1..], query)
  }

  /** The fields the search looks in: name, description, then every capability
      and every strength */
  function SearchedFields(agent: Agent): seq<string> {
    [agent.name, agent.description] + agent.capabilities + agent.strengths
  }

  /** The search condition for an already lower-cased query */
  predicate MatchesQuery(agent: Agent, query: string) {
    || Contains(Lower(agent.name), query)
    || Contains(Lower(agent.description), query)
    || AnyContains(agent.capabilities, query)
    || AnyContains(agent.strengths, query)
  }

  /** An agent matches exactly when the query occurs in one of its searched
      fields, lower-cased */
  lemma MatchesQueryIff(agent: Agent, query: string)
    ensures MatchesQuery(agent, query) <==>
      exists i :: 0 <= i < |SearchedFields(agent)| && Contains(Lower(SearchedFields(agent)[i]), query)
  {
    var fields := SearchedFields(agent);
    var caps, strs := agent.capabilities, agent.strengths;
    if AnyContains(caps, query) {
      var i :| 0 <= i < |caps| && Contains(Lower(caps[i]), query);
      assert fields[2 + i] == caps[i];
    }
    if AnyContains(strs, query) {
      var i :| 0 <= i < |strs| && Contains(Lower(strs[i]), query);
      assert fields[2 + |caps| + i] == strs[i];
    }
    assert fields[0] == agent.name && fields[1] == agent.description;
    forall i | 2 <= i < |fields| && Contains(Lower(fields[i]), query)
      ensures AnyContains(caps, query) || AnyContains(strs, query)
    {
      if i < 2 + |caps| {
        assert fields[i] == caps[i - 2];
      } else {
        assert fields[i] == strs[i - 2 - |caps|];
      }
    }
  }

  /** The agents of `agents` that match `query`, in their original order */
  function MatchingAgents(agents: seq<Agent>, query: string): (r: seq<Agent>)
    ensures |r| <= |agents|
  {
    if agents == [] then []
    else
      var last := agents[|agents| - 1];
      MatchingAgents(agents[..|agents| - 1], query) + (if MatchesQuery(last, query) then [last] else [])
  }

  /** Exactly the matching agents are kept: everything in the result is a
      matching agent of the list, and every matching agent is in the result */
  lemma {:induction false} MatchingAgentsExact(agents: seq<Agent>, query: string)
    ensures forall a :: a in MatchingAgents(agents, query) ==> a in agents && MatchesQuery(a, query)
    ensures forall i :: 0 <= i < |agents| && MatchesQuery(agents[i], query) ==> agents[i] in MatchingAgents(agents, query)
  {
    if agents != [] {
      var n := |agents| - 1;
      var init := agents[..n];
      MatchingAgentsExact(init, query);
      var hit := MatchesQuery(agents[n], query);
      assert MatchingAgents(agents, query) == MatchingAgents(init, query) + (if hit then [agents[n]] else []);
      forall i | 0 <= i < n && MatchesQuery(agents[i], query)
        ensures agents[i] in MatchingAgents(agents, query)
      {
        assert agents[i] == init[i];
      }
    }
  }

  /** Positions of the matching agents: strictly increasing, and exactly the
      positions whose agent matches */
  function MatchingPositions(agents: seq<Agent>, query: string): (p: seq<nat>)
    ensures forall k :: 0 <= k < |p| ==> p[k] < |agents|
    ensures forall k, l :: 0 <= k < l < |p| ==> p[k] < p[l]
    ensures forall i :: 0 <= i < |agents| ==> (i in p <==> MatchesQuery(agents[i], query))
  {
    if agents == [] then []
    else
      MatchingPositions(agents[..|agents| - 1], query)
        + (if MatchesQuery(agents[|agents| - 1], query) then [|agents| - 1] else [])
  }

  /** The search result is exactly the subsequence of the matching agents: its
      k-th agent is the agent at the k-th matching position */
  lemma {:induction false} MatchingIsSubsequence(agents: seq<Agent>, query: string)
    ensures |MatchingPositions(agents, query)| == |MatchingAgents(agents, query)|
    ensures forall k :: 0 <= k < |MatchingPositions(agents, query)| ==>
      MatchingAgents(agents, query)[k] == agents[MatchingPositions(agents, query)[k]]
  {
    if agents != [] {
      var n := |agents| - 1;
      var init := agents[..n];
      MatchingIsSubsequence(init, query);
      var p, r := MatchingPositions(agents, query), MatchingAgents(agents, query);
      var p0, r0 := MatchingPositions(init, query), MatchingAgents(init, query);
      var hit := MatchesQuery(agents[n], query);
      assert p == p0 + (if hit then [n] else []);
      assert r == r0 + (if hit then [agents[n]] else []);
      forall k | 0 <= k < |p|
        ensures r[k] == agents[p[k]]
      {
        if k < |p0| {
          assert r[k] == r0[k] == init[p0[k]];
        }
      }
    }
  }

  /** Every string contains the empty string, so the empty query keeps every agent */
  lemma {:induction false} EmptyQueryMatchesAll(agents: seq<Agent>)
    ensures MatchingAgents(agents, "") == agents
  {
    forall i | 0 <= i < |agents|
      ensures MatchesQuery(agents[i], "")
    {
      MatchesEmpty(agents[i]);
    }
    AllMatchKeepsAll(agents, "");
  }

  /** A query every agent matches keeps the whole list, in order */
  lemma {:induction false} AllMatchKeepsAll(agents: seq<Agent>, query: string)
    requires forall i :: 0 <= i < |agents| ==> MatchesQuery(agents[i], query)
    ensures MatchingAgents(agents, query) == agents
  {
    if agents != [] {
      var n := |agents| - 1;
      var init := agents[..n];
      forall i | 0 <= i < |init|
        ensures MatchesQuery(init[i], query)
      {
        assert init[i] == agents[i];
      }
      AllMatchKeepsAll(init, query);
      assert MatchesQuery(agents[n], query);
      assert MatchingAgents(agents, query) == MatchingAgents(init, query) + [agents[n]];
      assert init + [agents[n]] == agents;
    }
  }

  lemma MatchesEmpty(agent: Agent)
    ensures MatchesQuery(agent, "")
  {
    EmptyIsContained(Lower(agent.name));
  }

  class AgentDatabase {
    /** The records loaded when the database was built; never changed afterwards */
    const agents: seq<Agent>

    constructor(loaded: seq<Agent>)
      ensures agents == loaded
    {
      agents := loaded;
    }

    /** The stored list itself */
    method GetAllAgents() returns (r: seq<Agent>)
      ensures r == agents
    {
      r := agents;
    }

    /** The first agent whose name equals `name` ignoring case, or `None` */
    method GetAgentByName(name: string) returns (r: Option<Agent>)
      ensures r.None? <==> forall i :: 0 <= i < |agents| ==> !NameMatches(agents[i], name)
      ensures r.Some? ==>
        exists i :: 0 <= i < |agents| && agents[i] == r.value && NameMatches(agents[i], name)
                    && forall j :: 0 <= j < i ==> !NameMatches(agents[j], name)
    {
      for i := 0 to |agents|
        invariant forall j :: 0 <= j < i ==> !NameMatches(agents[j], name)
      {
        if Lower(agents[i].name) == Lower(name) {
          return Some(agents[i]);
        }
      }
      return None;
    }

    /** Every agent matching the lower-cased query, in database order */
    method SearchAgents(query: string) returns (results: seq<Agent>)
      ensures results == MatchingAgents(agents, Lower(query))
    {
      var q := Lower(query);
      results := [];
      for i := 0 to |agents|
        invariant results == MatchingAgents(agents[..i], q)
      {
        var agent := agents[i];
        assert agents[..i + 1][..i] == agents[..i];
        if || Contains(Lower(agent.name), q)
           || Contains(Lower(agent.description), q)
           || AnyContains(agent.capabilities, q)
           || AnyContains(agent.strengths, q)
        {
          results := results + [agent];
        }
      }
      assert agents[..|agents|] == agents;
    }
  }
}
