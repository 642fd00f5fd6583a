/** One simulated node (DPRAgent.py): its clock, its input and output buffers
    and the per-pass delivery flags. */
module Agents {
  import opened Common
  import opened Topology
  import opened Packets
  import opened Timing
  import opened Routing
  import opened Clock

  class Agent {
    /** The agent's own copy of its timing record. */
    var tdat: TimingData
    var inBuf: seq<Packet>
    var outBuf: seq<Packet>
    /** `fwIdLists[k]` is where `outBuf[k]` is to be sent. */
    var fwIdLists: seq<set<AgentId>>
    const myId: AgentId
    const neighborList: seq<AgentId>
    /** A packet addressed to this agent was handled. */
    var pktRcvd: bool
    /** A packet addressed elsewhere had nowhere left to go here. */
    var pktTerm: bool

    /** Output packets and forwarding sets are index-aligned, and every
        forwarding set names only neighbours. */
    ghost predicate Valid()
      reads this
    {
      && |outBuf| == |fwIdLists|
      && forall k :: 0 <= k < |fwIdLists| ==> fwIdLists[k] <= Elems(neighborList)
    }

    /** Empty buffers and both flags down, as after construction. */
    ghost predicate Idle()
      reads this
    {
      inBuf == [] && outBuf == [] && fwIdLists == [] && !pktRcvd && !pktTerm
    }

    /** `DPRAgent(my_id, G, timing_dat)`; the neighbour lookup fails for an id
        that is not a node of the graph. */
    constructor (myId: AgentId, g: Graph, timingDat: TimingData)
      requires myId in g.adj
      ensures Valid() && Idle()
      ensures this.myId == myId && neighborList == g.adj[myId] && tdat == timingDat
    {
      tdat := timingDat;
      inBuf := [];
      outBuf := [];
      fwIdLists := [];
      this.myId := myId;
      neighborList := g.adj[myId];
      pktRcvd := false;
      pktTerm := false;
    }

    /** `process_pkt`, without its console report: raise the flag for a packet
        delivered here or for one that dead-ended here. */
    method ProcessPkt(meantForMe: bool)
      modifies this`pktRcvd, this`pktTerm
      ensures pktRcvd == (old(pktRcvd) || meantForMe)
      ensures pktTerm == (old(pktTerm) || !meantForMe)
    {
      if meantForMe {
        pktRcvd := true;
      } else {
        pktTerm := true;
      }
    }

    /** The body of the loop in `handle_pkts`: forward one packet, or raise
        the flag for its delivery or its dead end. */
    method HandlePkt(recvPkt: Packet)
      requires Valid()
      modifies this`outBuf, this`fwIdLists, this`pktRcvd, this`pktTerm
      ensures Valid()
      ensures var d := Decide(myId, neighborList, recvPkt);
                && outBuf == old(outBuf) + (if d.Forward? then [recvPkt] else [])
                && fwIdLists == old(fwIdLists) + (if d.Forward? then [d.fwIds] else [])
                && pktRcvd == (old(pktRcvd) || d.Delivered?)
                && pktTerm == (old(pktTerm) || d.DeadEnd?)
    {
      if ShouldForward(myId, recvPkt) {
        var fwIdList := ForwardSet(neighborList, recvPkt);
        if fwIdList != {} {
          outBuf := outBuf + [recvPkt];
          fwIdLists := fwIdLists + [fwIdList];
        } else {
          ProcessPkt(false);
        }
      } else {
        ProcessPkt(true);
      }
    }

    /** `handle_pkts`: one pass over the input buffer, forwarding, delivering
        or dead-ending each packet in order, then emptying the buffer. */
    method HandlePkts()
      requires Valid()
      modifies this`inBuf, this`outBuf, this`fwIdLists, this`pktRcvd, this`pktTerm
      ensures Valid()
      ensures inBuf == []
      ensures outBuf == old(outBuf) + ForwardedPkts(myId, neighborList, old(inBuf))
      ensures fwIdLists == old(fwIdLists) + ForwardedSets(myId, neighborList, old(inBuf))
      ensures pktRcvd == (old(pktRcvd) || AnyDelivered(myId, old(inBuf)))
      ensures pktTerm == (old(pktTerm) || AnyDeadEnd(myId, neighborList, old(inBuf)))
    {
      var pkts := inBuf;
      for i := 0 to |pkts|
        invariant Valid()
        invariant outBuf == old(outBuf) + ForwardedPkts(myId, neighborList, pkts[..i])
        invariant fwIdLists == old(fwIdLists) + ForwardedSets(myId, neighborList, pkts[..i])
        invariant pktRcvd == (old(pktRcvd) || AnyDelivered(myId, pkts[..i]))
        invariant pktTerm == (old(pktTerm) || AnyDeadEnd(myId, neighborList, pkts[..i]))
      {
        var recvPkt := pkts[i];
        assert pkts[..i + 1] == pkts[..i] + [recvPkt];
        assert pkts[..i + 1][..i] == pkts[..i];
        FlagsSnoc(myId, neighborList, pkts[..i], recvPkt);
        HandlePkt(recvPkt);
      }
      assert pkts[..|pkts|] == pkts;
      inBuf := [];
    }

    /** `create_and_send_pkt`: originate a packet to `targetAgentId` and queue
        it for every neighbour. */
    method CreateAndSendPkt(targetAgentId: AgentId)
      requires Valid()
      modifies this`outBuf, this`fwIdLists
      ensures Valid()
      ensures outBuf == old(outBuf) + [NewPacket(myId, targetAgentId)]
      ensures fwIdLists == old(fwIdLists) + [Elems(neighborList)]
    {
      var newPkt := NewPacket(myId, targetAgentId);
      outBuf := outBuf + [newPkt];
      fwIdLists := fwIdLists + [Elems(neighborList)];
    }

    /** `tick`: advance the clock, running a buffer pass when the operation
        loop has run out. The flags are lowered after that pass, so they are
        always down when a tick returns. */
    method Tick()
      requires Valid()
      modifies this
      ensures Valid()
      ensures tdat == AdvanceClock(old(tdat))
      ensures !pktRcvd && !pktTerm
      ensures Fires(old(tdat)) ==>
                && inBuf == []
                && outBuf == old(outBuf) + ForwardedPkts(myId, neighborList, old(inBuf))
                && fwIdLists == old(fwIdLists) + ForwardedSets(myId, neighborList, old(inBuf))
      ensures !Fires(old(tdat)) ==>
                inBuf == old(inBuf) && outBuf == old(outBuf) && fwIdLists == old(fwIdLists)
    {
      if tdat.currOpLoopTime >= tdat.opLoopLen {
        tdat := tdat.(currOpLoopTime := 0);
        tdat := tdat.(currOpCycle := tdat.currOpCycle + 1);
        HandlePkts();
      }
      pktRcvd := false;
      pktTerm := false;
      tdat := tdat.(currOpLoopTime := tdat.currOpLoopTime + 1);
    }
  }
}
