/** The forwarding decision an agent takes for one packet (`should_I_fw_pkt`,
    `get_fw_id_list` and the branches of `handle_pkts` in DPRAgent.py), and
    the packets and forwarding sets one buffer pass produces. */
module Routing {
  import opened Common
  import opened Packets

  /** `should_I_fw_pkt`: a packet travels on unless this agent is its target. */
  function ShouldForward(myId: AgentId, pkt: Packet): (r: bool)
    ensures r <==> pkt.targetAgentId != myId
  {
    pkt.targetAgentId != myId
  }

  /** `get_fw_id_list`: straight to the target when it is a neighbour,
      otherwise to every neighbour that has not yet held the packet. */
  function ForwardSet(neighbors: seq<AgentId>, pkt: Packet): (r: set<AgentId>)
    ensures pkt.targetAgentId in neighbors ==> r == {pkt.targetAgentId}
    ensures pkt.targetAgentId !in neighbors ==> r == Elems(neighbors) - Elems(pkt.propChainIds)
    ensures r <= Elems(neighbors)
    ensures pkt.targetAgentId !in neighbors ==> r !! Elems(pkt.propChainIds)
    ensures r == {} <==>
              pkt.targetAgentId !in neighbors && forall n :: n in neighbors ==> n in pkt.propChainIds
  {
    if pkt.targetAgentId in neighbors then {pkt.targetAgentId}
    else
      DifferenceEmpty(neighbors, pkt.propChainIds);
      Elems(neighbors) - Elems(pkt.propChainIds)
  }

  lemma DifferenceEmpty(a: seq<AgentId>, b: seq<AgentId>)
    ensures Elems(a) - Elems(b) == {} <==> forall n :: n in a ==> n in b
  {
    if exists n :: n in a && n !in b {
      var n :| n in a && n !in b;
      assert n in Elems(a) - Elems(b);
    }
  }

  /** A flooded packet's chain stays free of repeats: every agent it is sent
      to is new to the chain, unless the target itself was already in it. */
  lemma ForwardKeepsChainUnique(neighbors: seq<AgentId>, pkt: Packet, next: AgentId)
    requires NoDuplicates(pkt.propChainIds) && pkt.targetAgentId !in pkt.propChainIds
    requires next in ForwardSet(neighbors, pkt)
    ensures NoDuplicates(pkt.propChainIds + [next])
  {
    var c := pkt.propChainIds + [next];
    assert next !in pkt.propChainIds;
    forall i, j | 0 <= i < j < |c| ensures c[i] != c[j] {
      if j == |c| - 1 {
        assert c[i] == pkt.propChainIds[i];
      } else {
        assert c[i] == pkt.propChainIds[i] && c[j] == pkt.propChainIds[j];
      }
    }
  }

  /** What `handle_pkts` does with one packet. */
  datatype Decision = Delivered | DeadEnd | Forward(fwIds: set<AgentId>)

  function Decide(myId: AgentId, neighbors: seq<AgentId>, pkt: Packet): (d: Decision)
    ensures d.Delivered? <==> pkt.targetAgentId == myId
    ensures d.DeadEnd? <==>
              && pkt.targetAgentId != myId && pkt.targetAgentId !in neighbors
              && forall n :: n in neighbors ==> n in pkt.propChainIds
    ensures d.Forward? ==> d.fwIds != {} && d.fwIds <= Elems(neighbors)
    ensures d.Forward? && pkt.targetAgentId in neighbors ==> d.fwIds == {pkt.targetAgentId}
    ensures d.Forward? && pkt.targetAgentId !in neighbors ==>
              d.fwIds == Elems(neighbors) - Elems(pkt.propChainIds)
  {
    if !ShouldForward(myId, pkt) then Delivered
    else
      var fw := ForwardSet(neighbors, pkt);
      if fw != {} then Forward(fw) else DeadEnd
  }

  /** The packets a pass over `pkts` appends to `out_buf`, in order. */
  function ForwardedPkts(myId: AgentId, neighbors: seq<AgentId>, pkts: seq<Packet>): seq<Packet>
  {
    if pkts == [] then []
    else
      var last := pkts[|pkts| - 1];
      ForwardedPkts(myId, neighbors, pkts[..|pkts| - 1])
        + (if Decide(myId, neighbors, last).Forward? then [last] else [])
  }

  /** The forwarding sets the same pass appends to `fw_id_lists`. */
  function ForwardedSets(myId: AgentId, neighbors: seq<AgentId>, pkts: seq<Packet>): seq<set<AgentId>>
  {
    if pkts == [] then []
    else
      var d := Decide(myId, neighbors, pkts[|pkts| - 1]);
      ForwardedSets(myId, neighbors, pkts[..|pkts| - 1]) + (if d.Forward? then [d.fwIds] else [])
  }

  /** Some packet of the pass was addressed to this agent (sets `pkt_rcvd`). */
  predicate AnyDelivered(myId: AgentId, pkts: seq<Packet>)
  {
    exists i :: 0 <= i < |pkts| && pkts[i].targetAgentId == myId
  }

  /** Some packet of the pass had nowhere left to go (sets `pkt_term`). */
  predicate AnyDeadEnd(myId: AgentId, neighbors: seq<AgentId>, pkts: seq<Packet>)
  {
    exists i :: 0 <= i < |pkts| && Decide(myId, neighbors, pkts[i]).DeadEnd?
  }

  /** The two appended lists stay in lockstep: equally long, no longer than the
      input, and entry k of the sets is the forwarding set of packet k, which is
      a non-empty set of neighbours; no forwarded packet is addressed here. */
  lemma {:induction false} ForwardedLockstep(myId: AgentId, neighbors: seq<AgentId>, pkts: seq<Packet>)
    ensures |ForwardedPkts(myId, neighbors, pkts)| == |ForwardedSets(myId, neighbors, pkts)| <= |pkts|
    ensures forall k :: 0 <= k < |ForwardedPkts(myId, neighbors, pkts)| ==>
              && ForwardedPkts(myId, neighbors, pkts)[k] in pkts
              && ForwardedPkts(myId, neighbors, pkts)[k].targetAgentId != myId
              && ForwardedSets(myId, neighbors, pkts)[k] == ForwardSet(neighbors, ForwardedPkts(myId, neighbors, pkts)[k])
              && ForwardedSets(myId, neighbors, pkts)[k] != {}
              && ForwardedSets(myId, neighbors, pkts)[k] <= Elems(neighbors)
  {
    if pkts != [] {
      var init := pkts[..|pkts| - 1];
      ForwardedLockstep(myId, neighbors, init);
      var fp, fs := ForwardedPkts(myId, neighbors, init), ForwardedSets(myId, neighbors, init);
      forall k | 0 <= k < |fp| ensures fp[k] in pkts {
        assert fp[k] in init;
      }
    }
  }

  /** A pass over two batches forwards what each batch forwards, in order:
      the pass keeps input order and treats each packet on its own. */
  lemma {:induction false} ForwardedConcat(myId: AgentId, neighbors: seq<AgentId>, a: seq<Packet>, b: seq<Packet>)
    ensures ForwardedPkts(myId, neighbors, a + b)
              == ForwardedPkts(myId, neighbors, a) + ForwardedPkts(myId, neighbors, b)
    ensures ForwardedSets(myId, neighbors, a + b)
              == ForwardedSets(myId, neighbors, a) + ForwardedSets(myId, neighbors, b)
  {
    if b != [] {
      var b' := b[..|b| - 1];
      assert (a + b)[..|a + b| - 1] == a + b';
      assert (a + b)[|a + b| - 1] == b[|b| - 1];
      ForwardedConcat(myId, neighbors, a, b');
    } else {
      assert a + b == a;
    }
  }

  /** Every packet is forwarded exactly when it is neither delivered here nor
      dead-ended: nothing is forwarded from a batch that holds only such
      packets, and all of a batch of forwardable packets is. */
  lemma {:induction false} ForwardedAllOrNone(myId: AgentId, neighbors: seq<AgentId>, pkts: seq<Packet>)
    ensures (forall i :: 0 <= i < |pkts| ==> !Decide(myId, neighbors, pkts[i]).Forward?)
              ==> ForwardedPkts(myId, neighbors, pkts) == []
    ensures (forall i :: 0 <= i < |pkts| ==> Decide(myId, neighbors, pkts[i]).Forward?)
              ==> ForwardedPkts(myId, neighbors, pkts) == pkts
  {
    if pkts != [] {
      var init := pkts[..|pkts| - 1];
      assert pkts == init + [pkts[|pkts| - 1]];
      ForwardedAllOrNone(myId, neighbors, init);
    }
  }

  /** One more packet at the end of a pass adds to the flags what it alone says. */
  lemma FlagsSnoc(myId: AgentId, neighbors: seq<AgentId>, pkts: seq<Packet>, p: Packet)
    ensures AnyDelivered(myId, pkts + [p]) <==> AnyDelivered(myId, pkts) || p.targetAgentId == myId
    ensures AnyDeadEnd(myId, neighbors, pkts + [p]) <==>
              AnyDeadEnd(myId, neighbors, pkts) || Decide(myId, neighbors, p).DeadEnd?
  {
    var s := pkts + [p];
    assert s[|pkts|] == p;
    assert forall i :: 0 <= i < |pkts| ==> s[i] == pkts[i];
  }
}
