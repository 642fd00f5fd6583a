/** The simulator's set-up (DPRSim.py): per-agent timing records from the
    timing arguments, and one agent per graph node. */
module Sim {
  import opened Common
  import opened Topology
  import opened Timing
  import opened Agents

  const DefaultOpLoopLen := 50
  const DefaultStartOffset := 0
  const DefaultMsgProcessTime := 1

  /** A timing argument: `None`, a single value for every agent, or a list
      with one value per agent. */
  datatype Param = Missing | Scalar(v: int) | PerAgent(vs: seq<int>)

  /** The exceptions building the timing records can raise, with the agent
      index at which the list comprehension raises it. */
  datatype SimError = IndexError(index: nat) | ZeroDivisionError(index: nat)

  /** The list a timing argument turns into: the default or the scalar
      repeated once per agent, or the supplied list itself. */
  function Broadcast(p: Param, default: int, numAgents: nat): (r: seq<int>)
    ensures p.Missing? ==> |r| == numAgents && forall i :: 0 <= i < |r| ==> r[i] == default
    ensures p.Scalar? ==> |r| == numAgents && forall i :: 0 <= i < |r| ==> r[i] == p.v
    ensures p.PerAgent? ==> r == p.vs
  {
    match p
    case Missing => seq(numAgents, _ => default)
    case Scalar(v) => seq(numAgents, _ => v)
    case PerAgent(vs) => vs
  }

  /** Agent `k`'s value of a timing argument; a supplied list must reach `k`. */
  function ValueAt(p: Param, default: int, k: nat): int
    requires p.PerAgent? ==> k < |p.vs|
  {
    match p
    case Missing => default
    case Scalar(v) => v
    case PerAgent(vs) => vs[k]
  }

  /** Entry `k` of the comprehension can be built: all three lists reach it
      and its loop length is non-zero. */
  predicate EntryOk(ol: seq<int>, so: seq<int>, mp: seq<int>, k: nat)
  {
    k < |ol| && k < |so| && k < |mp| && ol[k] != 0
  }

  /** `[DPRTimingData(ol[k], so[k], mp[k]) for k in range(n)]`, raising at
      the first entry that cannot be built (an index past a list first, a zero
      loop length second). */
  function BuildTimings(ol: seq<int>, so: seq<int>, mp: seq<int>, n: nat): (r: Result<seq<TimingData>, SimError>)
    ensures r.Success? <==> forall k :: 0 <= k < n ==> EntryOk(ol, so, mp, k)
    ensures r.Success? ==> |r.value| == n
    ensures r.Failure? ==>
              && r.error.index < n
              && (forall k :: 0 <= k < r.error.index ==> EntryOk(ol, so, mp, k))
              && (r.error.IndexError? <==> !(r.error.index < |ol| && r.error.index < |so| && r.error.index < |mp|))
              && !EntryOk(ol, so, mp, r.error.index)
  {
    if n == 0 then Success([])
    else
      match BuildTimings(ol, so, mp, n - 1)
      case Failure(e) => Failure(e)
      case Success(prefix) =>
        var i := n - 1;
        if !(i < |ol| && i < |so| && i < |mp|) then
          assert !EntryOk(ol, so, mp, i); Failure(IndexError(i))
        else if ol[i] == 0 then
          assert !EntryOk(ol, so, mp, i); Failure(ZeroDivisionError(i))
        else
          Success(prefix + [NewTimingData(ol[i], so[i], mp[i])])
  }

  /** Entry k of a successful comprehension is the timing record built from
      the k-th element of each list. */
  lemma {:induction false} BuildTimingsAt(ol: seq<int>, so: seq<int>, mp: seq<int>, n: nat, k: nat)
    requires BuildTimings(ol, so, mp, n).Success? && k < n
    ensures EntryOk(ol, so, mp, k)
    ensures BuildTimings(ol, so, mp, n).value[k] == NewTimingData(ol[k], so[k], mp[k])
  {
    var prefix := BuildTimings(ol, so, mp, n - 1);
    if k < n - 1 {
      BuildTimingsAt(ol, so, mp, n - 1, k);
    }
  }

  /** Broadcasting agrees with reading each agent's value on its own. */
  lemma BroadcastAt(p: Param, default: int, numAgents: nat, k: nat)
    requires k < |Broadcast(p, default, numAgents)|
    ensures Broadcast(p, default, numAgents)[k] == ValueAt(p, default, k)
  {
  }

  /** A supplied per-agent list ends at index `k`. */
  predicate EndsAt(p: Param, k: nat)
  {
    p.PerAgent? && |p.vs| == k
  }

  /** `set_timing_data`: default the missing arguments (50, 0, 1), broadcast
      the scalar ones, and build one timing record per agent. */
  function SetTimingData(numAgents: nat, opLoopLen: Param, startOffset: Param, msgProcessTime: Param)
    : (r: Result<seq<TimingData>, SimError>)
    ensures r.Success? <==>
              forall k :: 0 <= k < numAgents ==>
                EntryOk(Broadcast(opLoopLen, DefaultOpLoopLen, numAgents),
                        Broadcast(startOffset, DefaultStartOffset, numAgents),
                        Broadcast(msgProcessTime, DefaultMsgProcessTime, numAgents), k)
    ensures r.Success? ==>
              && |r.value| == numAgents
              && (opLoopLen.PerAgent? ==> numAgents <= |opLoopLen.vs|)
              && (startOffset.PerAgent? ==> numAgents <= |startOffset.vs|)
              && (msgProcessTime.PerAgent? ==> numAgents <= |msgProcessTime.vs|)
              && forall k :: 0 <= k < numAgents ==>
                   && ValueAt(opLoopLen, DefaultOpLoopLen, k) != 0
                   && r.value[k] == NewTimingData(ValueAt(opLoopLen, DefaultOpLoopLen, k),
                                                  ValueAt(startOffset, DefaultStartOffset, k),
                                                  ValueAt(msgProcessTime, DefaultMsgProcessTime, k))
    ensures r.Failure? && r.error.IndexError? ==>
              && r.error.index < numAgents
              && (EndsAt(opLoopLen, r.error.index) || EndsAt(startOffset, r.error.index)
                  || EndsAt(msgProcessTime, r.error.index))
    ensures r.Failure? && r.error.ZeroDivisionError? ==>
              && r.error.index < numAgents
              && (opLoopLen.PerAgent? ==> r.error.index < |opLoopLen.vs|)
              && ValueAt(opLoopLen, DefaultOpLoopLen, r.error.index) == 0
  {
    var ol := Broadcast(opLoopLen, DefaultOpLoopLen, numAgents);
    var so := Broadcast(startOffset, DefaultStartOffset, numAgents);
    var mp := Broadcast(msgProcessTime, DefaultMsgProcessTime, numAgents);
    var r := BuildTimings(ol, so, mp, numAgents);
    if r.Success? then
      TimingsOnSuccess(numAgents, opLoopLen, startOffset, msgProcessTime, ol, so, mp);
      r
    else if r.error.IndexError? then
      TimingsOnIndexError(numAgents, opLoopLen, startOffset, msgProcessTime, ol, so, mp);
      r
    else
      TimingsOnZeroDivision(numAgents, opLoopLen, startOffset, msgProcessTime, ol, so, mp);
      r
  }

  /** A successful comprehension over the broadcast lists: supplied lists
      reach every agent and record k is built from agent k's values. */
  lemma TimingsOnSuccess(numAgents: nat, opLoopLen: Param, startOffset: Param, msgProcessTime: Param,
                         ol: seq<int>, so: seq<int>, mp: seq<int>)
    requires ol == Broadcast(opLoopLen, DefaultOpLoopLen, numAgents)
    requires so == Broadcast(startOffset, DefaultStartOffset, numAgents)
    requires mp == Broadcast(msgProcessTime, DefaultMsgProcessTime, numAgents)
    requires BuildTimings(ol, so, mp, numAgents).Success?
    ensures var r := BuildTimings(ol, so, mp, numAgents);
              && |r.value| == numAgents
              && (opLoopLen.PerAgent? ==> numAgents <= |opLoopLen.vs|)
              && (startOffset.PerAgent? ==> numAgents <= |startOffset.vs|)
              && (msgProcessTime.PerAgent? ==> numAgents <= |msgProcessTime.vs|)
              && forall k :: 0 <= k < numAgents ==>
                   && ValueAt(opLoopLen, DefaultOpLoopLen, k) != 0
                   && r.value[k] == NewTimingData(ValueAt(opLoopLen, DefaultOpLoopLen, k),
                                                  ValueAt(startOffset, DefaultStartOffset, k),
                                                  ValueAt(msgProcessTime, DefaultMsgProcessTime, k))
  {
    TimingsLengths(numAgents, opLoopLen, startOffset, msgProcessTime, ol, so, mp);
    forall k | 0 <= k < numAgents
      ensures ValueAt(opLoopLen, DefaultOpLoopLen, k) != 0
      ensures BuildTimings(ol, so, mp, numAgents).value[k]
                == NewTimingData(ValueAt(opLoopLen, DefaultOpLoopLen, k),
                                 ValueAt(startOffset, DefaultStartOffset, k),
                                 ValueAt(msgProcessTime, DefaultMsgProcessTime, k))
    {
      TimingAt(numAgents, opLoopLen, startOffset, msgProcessTime, ol, so, mp, k);
    }
  }

  lemma TimingsLengths(numAgents: nat, opLoopLen: Param, startOffset: Param, msgProcessTime: Param,
                       ol: seq<int>, so: seq<int>, mp: seq<int>)
    requires ol == Broadcast(opLoopLen, DefaultOpLoopLen, numAgents)
    requires so == Broadcast(startOffset, DefaultStartOffset, numAgents)
    requires mp == Broadcast(msgProcessTime, DefaultMsgProcessTime, numAgents)
    requires BuildTimings(ol, so, mp, numAgents).Success?
    ensures |BuildTimings(ol, so, mp, numAgents).value| == numAgents
    ensures opLoopLen.PerAgent? ==> numAgents <= |opLoopLen.vs|
    ensures startOffset.PerAgent? ==> numAgents <= |startOffset.vs|
    ensures msgProcessTime.PerAgent? ==> numAgents <= |msgProcessTime.vs|
  {
    if numAgents > 0 {
      assert EntryOk(ol, so, mp, numAgents - 1);
    }
  }

  lemma TimingAt(numAgents: nat, opLoopLen: Param, startOffset: Param, msgProcessTime: Param,
                 ol: seq<int>, so: seq<int>, mp: seq<int>, k: nat)
    requires ol == Broadcast(opLoopLen, DefaultOpLoopLen, numAgents)
    requires so == Broadcast(startOffset, DefaultStartOffset, numAgents)
    requires mp == Broadcast(msgProcessTime, DefaultMsgProcessTime, numAgents)
    requires BuildTimings(ol, so, mp, numAgents).Success? && k < numAgents
    ensures opLoopLen.PerAgent? ==> k < |opLoopLen.vs|
    ensures startOffset.PerAgent? ==> k < |startOffset.vs|
    ensures msgProcessTime.PerAgent? ==> k < |msgProcessTime.vs|
    ensures ValueAt(opLoopLen, DefaultOpLoopLen, k) != 0
    ensures BuildTimings(ol, so, mp, numAgents).value[k]
              == NewTimingData(ValueAt(opLoopLen, DefaultOpLoopLen, k),
                               ValueAt(startOffset, DefaultStartOffset, k),
                               ValueAt(msgProcessTime, DefaultMsgProcessTime, k))
  {
    BuildTimingsAt(ol, so, mp, numAgents, k);
    BroadcastAt(opLoopLen, DefaultOpLoopLen, numAgents, k);
    BroadcastAt(startOffset, DefaultStartOffset, numAgents, k);
    BroadcastAt(msgProcessTime, DefaultMsgProcessTime, numAgents, k);
  }

  /** An index error of the comprehension sits at the end of a supplied list. */
  lemma TimingsOnIndexError(numAgents: nat, opLoopLen: Param, startOffset: Param, msgProcessTime: Param,
                            ol: seq<int>, so: seq<int>, mp: seq<int>)
    requires ol == Broadcast(opLoopLen, DefaultOpLoopLen, numAgents)
    requires so == Broadcast(startOffset, DefaultStartOffset, numAgents)
    requires mp == Broadcast(msgProcessTime, DefaultMsgProcessTime, numAgents)
    requires BuildTimings(ol, so, mp, numAgents).Failure?
    requires BuildTimings(ol, so, mp, numAgents).error.IndexError?
    ensures var k := BuildTimings(ol, so, mp, numAgents).error.index;
              && k < numAgents
              && (EndsAt(opLoopLen, k) || EndsAt(startOffset, k) || EndsAt(msgProcessTime, k))
  {
    var k := BuildTimings(ol, so, mp, numAgents).error.index;
    if k > 0 {
      assert EntryOk(ol, so, mp, k - 1);
    }
  }

  /** A division error of the comprehension is agent k's zero loop length. */
  lemma TimingsOnZeroDivision(numAgents: nat, opLoopLen: Param, startOffset: Param, msgProcessTime: Param,
                              ol: seq<int>, so: seq<int>, mp: seq<int>)
    requires ol == Broadcast(opLoopLen, DefaultOpLoopLen, numAgents)
    requires so == Broadcast(startOffset, DefaultStartOffset, numAgents)
    requires mp == Broadcast(msgProcessTime, DefaultMsgProcessTime, numAgents)
    requires BuildTimings(ol, so, mp, numAgents).Failure?
    requires BuildTimings(ol, so, mp, numAgents).error.ZeroDivisionError?
    ensures var k := BuildTimings(ol, so, mp, numAgents).error.index;
              && k < numAgents
              && (opLoopLen.PerAgent? ==> k < |opLoopLen.vs|)
              && ValueAt(opLoopLen, DefaultOpLoopLen, k) == 0
  {
    var k := BuildTimings(ol, so, mp, numAgents).error.index;
    BroadcastAt(opLoopLen, DefaultOpLoopLen, numAgents, k);
  }

  /** With every timing argument missing, each agent gets loop length 50,
      start offset 0 and message process time 1. */
  lemma DefaultTimings(numAgents: nat)
    ensures SetTimingData(numAgents, Missing, Missing, Missing).Success?
    ensures |SetTimingData(numAgents, Missing, Missing, Missing).value| == numAgents
    ensures forall k :: 0 <= k < numAgents ==>
              SetTimingData(numAgents, Missing, Missing, Missing).value[k] == NewTimingData(50, 0, 1)
  {
  }

  /** Scalar arguments with a non-zero loop length give every agent the same
      record; a zero loop length fails at the first agent. */
  lemma ScalarTimings(numAgents: nat, opLoopLen: int, startOffset: int, msgProcessTime: int)
    requires numAgents > 0
    ensures opLoopLen != 0 ==>
              && SetTimingData(numAgents, Scalar(opLoopLen), Scalar(startOffset), Scalar(msgProcessTime)).Success?
              && forall k :: 0 <= k < numAgents ==>
                   SetTimingData(numAgents, Scalar(opLoopLen), Scalar(startOffset), Scalar(msgProcessTime)).value[k]
                     == NewTimingData(opLoopLen, startOffset, msgProcessTime)
    ensures opLoopLen == 0 ==>
              SetTimingData(numAgents, Scalar(opLoopLen), Scalar(startOffset), Scalar(msgProcessTime))
                == Failure(ZeroDivisionError(0))
  {
    if opLoopLen == 0 {
      var r := SetTimingData(numAgents, Scalar(opLoopLen), Scalar(startOffset), Scalar(msgProcessTime));
      assert !EntryOk(Broadcast(Scalar(opLoopLen), DefaultOpLoopLen, numAgents),
                      Broadcast(Scalar(startOffset), DefaultStartOffset, numAgents),
                      Broadcast(Scalar(msgProcessTime), DefaultMsgProcessTime, numAgents), 0);
    }
  }

  /** `create_agent`: a new agent for node `newAgentId` with the given timing. */
  method CreateAgent(g: Graph, newAgentId: AgentId, newAgentTimingData: TimingData) returns (a: Agent)
    requires newAgentId in g.adj
    ensures fresh(a) && a.Valid() && a.Idle()
    ensures a.myId == newAgentId && a.neighborList == g.adj[newAgentId] && a.tdat == newAgentTimingData
  {
    a := new Agent(newAgentId, g, newAgentTimingData);
  }

  /** The agent dictionary: node `g.nodes[k]` maps to a new agent with that id,
      its neighbours and timing record `k`; no two nodes share an agent. */
  method CreateAgents(g: Graph, timings: seq<TimingData>) returns (agents: map<AgentId, Agent>)
    requires WellFormed(g) && |timings| == |g.nodes|
    ensures agents.Keys == Elems(g.nodes)
    ensures forall k :: 0 <= k < |g.nodes| ==>
              && fresh(agents[g.nodes[k]])
              && agents[g.nodes[k]].Valid() && agents[g.nodes[k]].Idle()
              && agents[g.nodes[k]].myId == g.nodes[k]
              && agents[g.nodes[k]].neighborList == g.adj[g.nodes[k]]
              && agents[g.nodes[k]].tdat == timings[k]
    ensures forall x, y :: x in agents && y in agents && x != y ==> agents[x] != agents[y]
  {
    agents := map[];
    for i := 0 to |g.nodes|
      invariant agents.Keys == Elems(g.nodes[..i])
      invariant forall k :: 0 <= k < i ==>
                  && fresh(agents[g.nodes[k]])
                  && agents[g.nodes[k]].Valid() && agents[g.nodes[k]].Idle()
                  && agents[g.nodes[k]].myId == g.nodes[k]
                  && agents[g.nodes[k]].neighborList == g.adj[g.nodes[k]]
                  && agents[g.nodes[k]].tdat == timings[k]
      invariant forall x, y :: x in agents && y in agents && x != y ==> agents[x] != agents[y]
    {
      var id := g.nodes[i];
      assert forall k :: 0 <= k < i ==> g.nodes[..i][k] != id;
      assert id !in agents;
      var a := CreateAgent(g, id, timings[i]);
      agents := agents[id := a];
      assert g.nodes[..i + 1] == g.nodes[..i] + [id];
    }
    assert g.nodes[..|g.nodes|] == g.nodes;
  }

  /** A configured simulator: the graph, its node count, the timing records
      and the agent dictionary. */
  class Simulator {
    const g: Graph
    const numAgents: nat
    const agentTimingData: seq<TimingData>
    const agents: map<AgentId, Agent>

    constructor (g: Graph, timings: seq<TimingData>)
      requires WellFormed(g) && |timings| == |g.nodes|
      ensures this.g == g && numAgents == |g.nodes| && agentTimingData == timings
      ensures agents.Keys == Elems(g.nodes)
      ensures forall k :: 0 <= k < |g.nodes| ==>
                && fresh(agents[g.nodes[k]])
                && agents[g.nodes[k]].Valid() && agents[g.nodes[k]].Idle()
                && agents[g.nodes[k]].myId == g.nodes[k]
                && agents[g.nodes[k]].neighborList == g.adj[g.nodes[k]]
                && agents[g.nodes[k]].tdat == timings[k]
      ensures forall x, y :: x in agents && y in agents && x != y ==> agents[x] != agents[y]
    {
      var created := CreateAgents(g, timings);
      this.g := g;
      numAgents := |g.nodes|;
      agentTimingData := timings;
      agents := created;
    }
  }

  /** `DPRSim(G, randomize_timings=False, op_loop_len, start_offset,
      msg_process_time)`: configure the timing records, or raise as
      `set_timing_data` does, then build the agents. */
  method NewSimulator(g: Graph, opLoopLen: Param, startOffset: Param, msgProcessTime: Param)
    returns (r: Result<Simulator, SimError>)
    requires WellFormed(g)
    ensures SetTimingData(|g.nodes|, opLoopLen, startOffset, msgProcessTime).Failure? ==>
              r == Failure(SetTimingData(|g.nodes|, opLoopLen, startOffset, msgProcessTime).error)
    ensures SetTimingData(|g.nodes|, opLoopLen, startOffset, msgProcessTime).Success? ==>
              && r.Success? && fresh(r.value)
              && r.value.g == g && r.value.numAgents == |g.nodes|
              && r.value.agentTimingData == SetTimingData(|g.nodes|, opLoopLen, startOffset, msgProcessTime).value
              && r.value.agents.Keys == Elems(g.nodes)
              && (forall k :: 0 <= k < |g.nodes| ==>
                    && fresh(r.value.agents[g.nodes[k]])
                    && r.value.agents[g.nodes[k]].Valid() && r.value.agents[g.nodes[k]].Idle()
                    && r.value.agents[g.nodes[k]].myId == g.nodes[k]
                    && r.value.agents[g.nodes[k]].neighborList == g.adj[g.nodes[k]]
                    && r.value.agents[g.nodes[k]].tdat
                         == SetTimingData(|g.nodes|, opLoopLen, startOffset, msgProcessTime).value[k])
              && (forall x, y :: x in r.value.agents && y in r.value.agents && x != y ==>
                    r.value.agents[x] != r.value.agents[y])
  {
    var timings := SetTimingData(|g.nodes|, opLoopLen, startOffset, msgProcessTime);
    if timings.Failure? {
      return Failure(timings.error);
    }
    var sim := new Simulator(g, timings.value);
    return Success(sim);
  }
}
