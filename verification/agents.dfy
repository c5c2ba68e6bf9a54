/** Agents: how they are found, made and resolved for a task (agent.go, and resolveAgentForTask in
    internal/server/event_dispatcher.go). */
module Agents {
  import opened WorkModel

  /** The agents and the identifiers taken by other entities: all that finding an agent depends on. */
  datatype Directory = Directory(agents: map<Id, Agent>, taken: set<Id>)

  function DirectoryOf(s: WorkStore): Directory
    reads s
  {
    Directory(s.agents, s.tasks.Keys + s.todos.Keys + s.runs.Keys + s.others.Keys)
  }

  /** An agent is found by its entity id or, for an id that names no entity, by its slug. */
  predicate Names(dir: Directory, key: Id, agent: Id) {
    && agent in dir.agents
    && (agent == key || (key != UNSET && key !in dir.agents && key !in dir.taken && dir.agents[agent].slug == key))
  }

  ghost predicate AgentExists(dir: Directory, key: Id) {
    exists a :: Names(dir, key, a)
  }

  method GetAgent(s: WorkStore, key: Id) returns (agent: Option<Id>)
    ensures agent.Some? <==> AgentExists(DirectoryOf(s), key)
    ensures agent.Some? ==> Names(DirectoryOf(s), key, agent.value)
    ensures agent.Some? <==> || key in s.agents
                             || (&& key != UNSET && key !in s.tasks && key !in s.todos && key !in s.runs
                                 && key !in s.others
                                 && exists a :: a in s.agents && s.agents[a].slug == key)
    ensures agent.Some? && key in s.agents ==> agent.value == key
    ensures agent.Some? && key !in s.agents ==> agent.value in s.agents && s.agents[agent.value].slug == key
  {
    if key in s.agents {
      assert Names(DirectoryOf(s), key, key);
      return Some(key);
    }
    if key == UNSET || key in s.tasks || key in s.todos || key in s.runs || key in s.others {
      return None;
    }
    agent := FindSlug(s, key);
    if agent.Some? {
      assert Names(DirectoryOf(s), key, agent.value);
    }
  }

  /* ---- Making an agent ---- */

  ghost predicate SlugsUnique(agents: map<Id, Agent>) {
    forall a, b :: a in agents && b in agents && agents[a].slug == agents[b].slug ==> a == b
  }

  /** The agent with this slug, `made` if there was none, now has this role, whatever role it had. */
  ghost predicate Upserted(
      before: map<Id, Agent>, agent: Agent, made: Id, id: Id, after: map<Id, Agent>)
  {
    && after == before[id := agent]
    && if exists a :: a in before && before[a].slug == agent.slug then id in before && before[id].slug == agent.slug
       else id == made
  }

  /** The slug stays a key: the agents that were there stay, no two share a slug, and this one leads to one agent. */
  lemma UpsertKeepsSlugs(before: map<Id, Agent>, agent: Agent, made: Id, id: Id, after: map<Id, Agent>)
    requires SlugsUnique(before) && made !in before && Upserted(before, agent, made, id, after)
    ensures SlugsUnique(after) && before.Keys <= after.Keys
    ensures forall a :: a in after && after[a].slug == agent.slug <==> a == id
  {
  }

  method UpsertAgent(s: WorkStore, agent: Agent, made: Id) returns (r: Result<Id>)
    requires s.HasIds() && made != UNSET
    modifies s`agents
    ensures s.HasIds()
    ensures agent.slug == "" ==> r == Err(ErrInvalidTask) && s.agents == old(s.agents)
    ensures agent.slug != "" ==> r.Ok? && Upserted(old(s.agents), agent, made, r.value, s.agents)
    ensures r.Ok? ==>
              && r.value in s.agents && s.agents[r.value] == agent
              && (forall a :: a != r.value ==> (a in s.agents <==> a in old(s.agents)))
              && (forall a :: a in old(s.agents) && a != r.value ==> s.agents[a] == old(s.agents)[a])
              && ((exists a :: a in old(s.agents) && old(s.agents)[a].slug == agent.slug) ==>
                    r.value in old(s.agents) && old(s.agents)[r.value].slug == agent.slug)
  {
    if agent.slug == "" {
      return Err(ErrInvalidTask);
    }
    var found := FindSlug(s, agent.slug);
    var id := if found.Some? then found.value else made;
    s.agents := s.agents[id := agent];
    r := Ok(id);
  }

  method FindSlug(s: WorkStore, slug: string) returns (found: Option<Id>)
    ensures found.None? <==> forall a :: a in s.agents ==> s.agents[a].slug != slug
    ensures found.Some? ==> found.value in s.agents && s.agents[found.value].slug == slug
  {
    var rest := s.agents.Keys;
    while rest != {}
      invariant rest <= s.agents.Keys
      invariant forall a :: a in s.agents.Keys - rest ==> s.agents[a].slug != slug
      decreases rest
    {
      var a :| a in rest;
      rest := rest - {a};
      if s.agents[a].slug == slug {
        return Some(a);
      }
    }
    found := None;
  }

  /* ---- The agent of a task ---- */

  /** The agent for the todos of task `t`: an assignee that can be found, or else the one that the event names by its
      slug, which is made if need be and loses its role if it had one; "" if the event names none.  If a task had
      several assignees, it would depend on which edge is found first. */
  ghost predicate Resolved(
      before: map<Id, Agent>, dir: Directory, edges: set<Edge>, t: Id, slug: string, made: Id, agent: Id,
      after: map<Id, Agent>)
  {
    var assignees := Targets(edges, AssignedTo, t);
    || (agent in assignees && AgentExists(dir, agent) && after == before)
    || (&& (assignees == {} || exists a :: a in assignees && !AgentExists(dir, a))
        && if slug == "" then agent == UNSET && after == before
           else Upserted(before, Agent(slug, ""), made, agent, after))
  }

  /** Whose the todos of a task are: its assignee's, which stays as it is; without an assignee the agent's that the
      event names, if it names one. */
  lemma ResolvedTells(
      before: map<Id, Agent>, dir: Directory, edges: set<Edge>, t: Id, slug: string, made: Id, agent: Id,
      after: map<Id, Agent>)
    requires Resolved(before, dir, edges, t, slug, made, agent, after) && dir.agents == before
    ensures forall a :: a in before && Edge(AssignedTo, t, a) in edges ==>
              (agent == a && after == before) || exists b :: Edge(AssignedTo, t, b) in edges && b != a
    ensures (forall a :: Edge(AssignedTo, t, a) !in edges) && slug == "" ==> agent == UNSET && after == before
    ensures (forall a :: Edge(AssignedTo, t, a) !in edges) && slug != "" ==> agent in after && after[agent].slug == slug
  {
    assert forall a :: a in Targets(edges, AssignedTo, t) <==> Edge(AssignedTo, t, a) in edges;
    forall a | a in before ensures AgentExists(dir, a) { assert Names(dir, a, a); }
  }

  method ResolveAgent(s: WorkStore, t: Id, slug: string, made: Id) returns (agent: Id)
    requires s.HasIds() && made != UNSET
    modifies s`agents
    ensures s.HasIds()
    ensures Resolved(old(s.agents), old(DirectoryOf(s)), s.edges, t, slug, made, agent, s.agents)
  {
    var assignees := Targets(s.edges, AssignedTo, t);
    if assignees != {} {
      var assignee :| assignee in assignees;
      var found := GetAgent(s, assignee);
      if found.Some? {
        return assignee;
      }
    }
    if slug == "" {
      return UNSET;
    }
    var upserted := UpsertAgent(s, Agent(slug, ""), made);
    agent := upserted.value;
  }
}
