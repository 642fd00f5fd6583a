# DistributedPacketRouting: agents, routing and clocks in Dafny

A model of the per-agent core of a flood-routing simulator. Each agent
(a graph node) has its own operation-loop clock. When that clock runs out,
the agent makes one pass over its input buffer. A packet addressed to the
agent is delivered. A packet addressed elsewhere goes straight to its target
when the target is a neighbour. Otherwise it is flooded to every neighbour
that is not already in the packet's propagation chain. A packet with nowhere
left to go is dead-ended. The model also covers the set-up step: timing
arguments are defaulted or broadcast into one timing record per agent, and
one agent is built per graph node.

Modules, one per source file or concern:

- `Common`: agent ids (integers), `Result`, `Elems` (Python's `set(list)`), `NoDuplicates`.
- `Topology`: the graph, reduced to its node list and a neighbour map.
- `Packets` (DPRPacket.py): the packet record and its constructor.
- `Timing` (DPRTimingData.py): the clock record, built with Python 2's flooring `/` and `%`.
- `Routing` (DPRAgent.py, pure part): `should_I_fw_pkt`, `get_fw_id_list`, and
  what one buffer pass forwards, as functions. Lemmas cover lockstep, order and the flags.
- `Clock` (DPRAgent.py, `tick`): the clock's effect as a function, and lemmas
  about many ticks in a row (phase, firing period).
- `Agents` (DPRAgent.py, imperative part): class `Agent`. Its fields are the
  mutable state the source updates. The methods `ProcessPkt`, `HandlePkts`,
  `CreateAndSendPkt` and `Tick` are proved against the `Routing` and `Clock` functions.
- `Sim` (DPRSim.py): `set_timing_data` as a function returning the records or
  the exception raised. Also `create_agent`, the agent dictionary, and class `Simulator`.

Points where the model follows the code:

- `tick` lowers `pkt_rcvd` and `pkt_term` after the buffer pass it may have
  run. So both flags are always down when `tick` returns, and a delivery made
  during a tick cannot be seen once the tick is over (`Agent.Tick`).
- A firing tick resets the loop time to 0 and then adds 1, so it leaves loop
  time 1. Take a loop of 10 started at offset 23: the clock starts at loop
  time 3, cycle 2. The first 7 ticks take it to loop time 10 without firing.
  The 8th tick fires, and leaves loop time 1 in cycle 3 (`Clock.ClockExample`).
- The source is Python 2 (it uses `print` statements). So
  `int(start_offset / op_loop_len)` is floor division, and `%` takes the sign
  of the divisor. Both are modelled for any non-zero divisor, negative ones
  included.
- `set_timing_data` reads each entry `i` from all three lists, in index order.
  An index past a supplied list raises `IndexError`, at the first such index.
  A zero loop length raises `ZeroDivisionError` in `DPRTimingData`. If both
  happen at the same index, the `IndexError` comes first. `SetTimingData`
  returns that error instead of a list.
- The evident intent of `DPRSim` is modelled. Its Python-level defects are
  not: `set_timing_data` and `create_agent` are called without `self`, and the
  parameter is named `op_loop_length` while the body reads `op_loop_len`.

## Model

| member | source | states |
|---|---|---|
| Packets.NewPacket | DPRPacket.py:2-7 | the chain is exactly `[source]`, the target is kept, the local timestamps are the sentinel `[0]`, the global and sent timestamps are empty; the history is aligned (one fewer global timestamp than chain entries, as many local ones) and the chain has no duplicates |
| Timing.FloorDiv | DPRTimingData.py:9 | the quotient is the floor of a/b: `b*q <= a < b*q + b` for b > 0, and the mirrored bound for b < 0 |
| Timing.FloorMod | DPRTimingData.py:8 | `b*q + r == a`, with the remainder in `[0, b)` for b > 0 and in `(b, 0]` for b < 0 |
| Timing.FloorDivUnique | DPRTimingData.py:8-9 | any quotient and remainder with `b*q + r == a` and `0 <= r < b` are the floor quotient and remainder |
| Timing.NewTimingData | DPRTimingData.py:3-10 | loop length, start offset and process time are stored unchanged; processing time left is 0; the loop time is the floor remainder and the cycle the floor quotient of the offset by the loop length; construction needs a non-zero loop length |
| Timing.InitialClock | DPRTimingData.py:3-10 | the record built for a non-zero loop length starts at phase `cycle * loopLen + loopTime == startOffset`; its loop time lies in `[0, loopLen)` for a positive length and in `(loopLen, 0]` for a negative one; for a positive length the values are `%` and `/` whatever the offset's sign |
| Timing.InitialClockUnique | DPRTimingData.py:8-9 | the initial cycle and loop time are the only pair with loop time in `[0, loopLen)` that reconstructs the start offset |
| Timing.InitialClockExample | DPRTimingData.py:8-9 | loop length 10 and offset 23 give loop time 3 and cycle 2 |
| Routing.ShouldForward | DPRAgent.py:48-55 | false exactly when the packet's target is this agent's id |
| Routing.ForwardSet | DPRAgent.py:35-46 | a neighbour target gives exactly `{target}`; otherwise the result is the neighbours minus the chain, disjoint from the chain; always a subset of the neighbours; empty exactly when the target is not a neighbour and every neighbour is already in the chain |
| Routing.ForwardKeepsChainUnique | DPRAgent.py:43-46 | for a duplicate-free chain that does not hold the target, appending any forwarding target keeps the chain duplicate-free |
| Routing.Decide | DPRAgent.py:81-89 | delivered exactly when the target is this agent; dead-ended exactly when the target is neither this agent nor a neighbour and every neighbour is in the chain; otherwise forwarded to a non-empty subset of the neighbours, which is `{target}` for a neighbour target and the unvisited neighbours otherwise |
| Routing.ForwardedLockstep | DPRAgent.py:79-85 | a pass appends equally many packets and forwarding sets, at most as many as it read; entry k of the sets is the forwarding set of forwarded packet k, and is non-empty and within the neighbours; every forwarded packet came from the input and is not addressed to this agent |
| Routing.ForwardedConcat | DPRAgent.py:79-85 | a pass over `a + b` forwards what `a` forwards followed by what `b` forwards: input order is kept and packets are independent (no duplicate suppression) |
| Routing.ForwardedAllOrNone | DPRAgent.py:81-89 | a batch with no forwardable packet forwards nothing; a batch of forwardable packets is forwarded whole, in order |
| Routing.FlagsSnoc | DPRAgent.py:57-72 | one more packet raises the delivered flag exactly when it is addressed here, and the dead-end flag exactly when it dead-ends |
| Clock.AdvanceClock | DPRAgent.py:103-110 | for any clock: a firing tick (loop time at least the loop length) leaves loop time 1 and adds one cycle; any other tick adds 1 to the loop time and keeps the cycle; nothing else in the timing record changes |
| Clock.AdvanceStep | DPRAgent.py:103-110 | within range, a tick fires exactly when loop time equals loop length, the clock stays in range, and its phase (`cycle * loopLen + loopTime`) goes up by exactly 1 |
| Clock.PhaseAfterTicks | DPRAgent.py:98-110 | after n ticks an in-range clock is still in range with the same loop length, and its phase has grown by n |
| Clock.PhaseFromStart | DPRAgent.py:98-110 | a clock built with a positive loop length starts in range, and after n ticks its phase is the start offset plus n |
| Clock.TicksUntilFire | DPRAgent.py:103-110 | from loop time l, the next `loopLen - l` ticks do not fire, keep the cycle and count the loop time up by one each; after them the clock fires exactly at `j == loopLen - l` |
| Clock.FiringPeriod | DPRAgent.py:103-110 | a firing clock fires once in its next `loopLen` ticks and fires again on the tick after those |
| Clock.ClockExample | DPRAgent.py:98-110 | from loop length 10 and offset 23: no firing in 7 ticks and loop time 10; one firing in 8 ticks, leaving loop time 1 and cycle 3 |
| Clock.AdvanceAfter | DPRAgent.py:98-110 | n + 1 ticks are one tick after n ticks, and the firing count grows by that tick's firing |
| Clock.AlwaysFires | DPRAgent.py:103-110 | with a loop length of at most 1 a firing clock fires on every one of the next n ticks |
| Clock.NegativeLengthFires | DPRAgent.py:103-110 | a clock built with a negative loop length, which `set_timing_data` lets through, fires on every tick |
| Agents.Agent.constructor | DPRAgent.py:6-33 | the agent keeps the id, the graph's neighbour list for it and its own copy of the timing record; buffers are empty and both flags down |
| Agents.Agent.ProcessPkt | DPRAgent.py:57-72 | a packet meant for this agent raises `pktRcvd`, any other raises `pktTerm`; the other flag is unchanged |
| Agents.Agent.HandlePkt | DPRAgent.py:81-89 | one packet: a forwarded packet is appended to the output buffer with its forwarding set; a delivery raises `pktRcvd`, a dead end raises `pktTerm`; nothing else changes and the lockstep is kept |
| Agents.Agent.HandlePkts | DPRAgent.py:74-91 | the input buffer is empty afterwards; the output buffer and the forwarding sets grow by exactly the forwarded packets and their sets, in input order, staying in lockstep; `pktRcvd` rises iff some packet was addressed here, `pktTerm` iff some packet dead-ended |
| Agents.Agent.CreateAndSendPkt | DPRAgent.py:93-96 | appends exactly one new packet from this agent to the target, and the set of all neighbours, keeping the lockstep |
| Agents.Agent.Tick | DPRAgent.py:98-110 | the timing record advances by one clock tick; if the loop had run out the buffer pass runs, otherwise the buffers are unchanged; both flags are down on return |
| Sim.Broadcast | DPRSim.py:59-77 | a missing argument becomes the default repeated once per agent, a scalar becomes that value repeated once per agent, a list is kept as given |
| Sim.BuildTimings | DPRSim.py:78 | succeeds exactly when every entry below n can be built, and then yields n records; otherwise it fails at the first entry that cannot be built, every earlier entry being buildable, with `IndexError` exactly when a list is too short there and `ZeroDivisionError` otherwise |
| Sim.BuildTimingsAt | DPRSim.py:78 | in a successful comprehension, entry k is buildable and is the record `DPRTimingData(ol[k], so[k], mp[k])` |
| Sim.SetTimingData | DPRSim.py:53-78 | success exactly when every agent's entry can be built; then there are `numAgents` records, supplied lists reach every agent, and record k is built from agent k's loop length, offset and process time (defaults 50, 0, 1; scalars broadcast); an `IndexError` at index k means k is the length of a supplied list shorter than `numAgents`; a `ZeroDivisionError` at k means agent k's loop length is 0 |
| Sim.DefaultTimings | DPRSim.py:10-12 | with all arguments missing every agent's record is built from 50, 0 and 1 |
| Sim.ScalarTimings | DPRSim.py:62-78 | scalar arguments with a non-zero loop length give every agent the same record; a zero scalar loop length fails at agent 0 with `ZeroDivisionError` |
| Sim.CreateAgent | DPRSim.py:36-41 | a fresh, empty agent with the given id, that node's neighbours and the given timing record |
| Sim.CreateAgents | DPRSim.py:34 | the dictionary has one key per graph node; node k's agent is fresh and empty and has that id, its neighbours and timing record k; no two nodes share an agent |
| Sim.Simulator.constructor | DPRSim.py:18-34 | the agent count is the number of graph nodes and the timing records are the ones given; the dictionary has one key per node, node k's agent is fresh, valid and empty, with id `g.nodes[k]`, neighbour list `g.adj[g.nodes[k]]` and timing record k; no two nodes share an agent |
| Sim.NewSimulator | DPRSim.py:18-41 | when `set_timing_data` fails, construction fails with its error; otherwise a new simulator holds the graph, its node count and exactly those timing records, and node k's agent is fresh, valid and empty, with id `g.nodes[k]`, neighbour list `g.adj[g.nodes[k]]` and timing record k of `set_timing_data`; no two nodes share an agent |

## Left out

- `randomize_timing_data` (DPRSim.py:43-51) and the `randomize_timings` flag: they use `random.random()` and float-to-int scaling, and the method reads an undefined name. The simulator is modelled on its `randomize_timings=False` path, and the `DEFAULT_max_*` constants are not carried over.
- The console report in `process_pkt` (DPRAgent.py:63-70): it is output only. The flag updates are kept.
- The networkx graph object: it is a value with a node list and a neighbour map. `G.neighbors` is a lookup in that map, and the agent keeps the returned list but not the graph.
- `copy.deepcopy` of the graph and the timing record: all records are values, so every agent owns its timing record.
- Node labels are integers. The source accepts any hashable label.
- `in_buf_size` and `out_buf_size` (DPRAgent.py:18-19): nothing reads them. `msg_process_time`, `processing_time_left` and `sent_timestamps` are kept as stored values; nothing reads them either.
- A timing argument is a missing value (`Param.Missing`), an integer (`Param.Scalar`) or a list (`Param.PerAgent`). Floats and non-list sequences such as tuples, which `type(x) is not list` would treat as scalars, are not modelled.
- No step exchanges messages between agents, runs a global clock or a run loop, or stamps hop history onto packets. No such step exists in DPRAgent.py, DPRSim.py, DPRTimingData.py or DPRPacket.py, so the model defines none: `in_buf` is filled by whoever assigns the field.
- Duplicate suppression in `handle_pkts` is marked TODO in the source (DPRAgent.py:80). The model does not suppress duplicates, and `Routing.ForwardedConcat` states that packets are handled independently.
- The class invariant `Agent.Valid()` says the buffers are in lockstep and the forwarding sets lie within the neighbours. The source states no such invariant. It is a precondition of `HandlePkts`, `CreateAndSendPkt` and `Tick`; the constructor establishes it and every method keeps it.
- Agents.Agent.constructor: requires the id to be a node of the graph. For any other id, `G.neighbors(my_id)` raises (DPRAgent.py:29); that error path is not modelled. The only caller, `create_agent` (DPRSim.py:34, 36-41), passes graph nodes.
