/** The delegation tree of agents: who created whom. */
module Delegation {
  type AgentId = nat

  datatype Forest = Forest(parent: map<AgentId, AgentId>, depth: map<AgentId, nat>) {
    function DepthOf(a: AgentId): nat { if a in depth then depth[a] else 0 }

    /** No agent is its own superior: depth grows along every edge. */
    ghost predicate Valid() { forall a :: a in parent ==> DepthOf(parent[a]) < DepthOf(a) }

    /** The superiors of `a`, nearest first. */
    ghost function Chain(a: AgentId): seq<AgentId>
      requires Valid()
      decreases DepthOf(a)
    {
      if a in parent then [parent[a]] + Chain(parent[a]) else []
    }

    ghost predicate Above(a: AgentId, b: AgentId)
      requires Valid()
    { a in Chain(b) }

    lemma {:induction false} AboveIsHigher(a: AgentId, b: AgentId)
      requires Valid() && Above(a, b)
      ensures DepthOf(a) < DepthOf(b)
      decreases DepthOf(b)
    {
      if a != parent[b] { AboveIsHigher(a, parent[b]); }
    }

    lemma {:induction false} AboveTransitive(a: AgentId, b: AgentId, c: AgentId)
      requires Valid() && Above(a, b) && Above(b, c)
      ensures Above(a, c)
      decreases DepthOf(c)
    {
      if b != parent[c] { AboveTransitive(a, b, parent[c]); }
    }
  }
}
