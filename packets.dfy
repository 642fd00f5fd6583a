/** A routed packet and its hop history (DPRPacket.py). */
module Packets {
  import opened Common

  /** `propChainIds` lists every agent that has held the packet, source first;
      `recvLocalTimestamps` has one entry per chain element (the source's is a
      sentinel 0) and `recvGlobalTimestamps` one per hop after the source. */
  datatype Packet = Packet(
    sentTimestamps: seq<int>,
    recvGlobalTimestamps: seq<int>,
    recvLocalTimestamps: seq<int>,
    propChainIds: seq<AgentId>,
    targetAgentId: AgentId)

  /** The arrival records line up with the propagation chain. */
  predicate HistoryAligned(p: Packet)
  {
    && |p.recvGlobalTimestamps| == |p.propChainIds| - 1
    && |p.recvLocalTimestamps| == |p.propChainIds|
  }

  /** A fresh packet originated by `source` and addressed to `target`. */
  function NewPacket(source: AgentId, target: AgentId): (p: Packet)
    ensures p.propChainIds == [source] && p.targetAgentId == target
    ensures p.recvLocalTimestamps == [0]
    ensures p.recvGlobalTimestamps == [] && p.sentTimestamps == []
    ensures HistoryAligned(p) && NoDuplicates(p.propChainIds)
  {
    Packet([], [], [0], [source], target)
  }
}
