/** The connectivity graph the simulator is given: only its node list and its
    neighbour lookup are used, so it is a value with those two parts. */
module Topology {
  import opened Common

  /** `nodes` is the order in which `G.nodes()` lists the nodes; `adj[v]` is
      the list `G.neighbors(v)` returns. */
  datatype Graph = Graph(nodes: seq<AgentId>, adj: map<AgentId, seq<AgentId>>)

  /** What every graph object guarantees: each node listed once, and the
      neighbour lookup defined exactly on the nodes. */
  predicate WellFormed(g: Graph)
  {
    NoDuplicates(g.nodes) && g.adj.Keys == Elems(g.nodes)
  }
}
