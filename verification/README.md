# csma_ca: slotted CSMA/CA sensor nodes and their sink, in Dafny

This project models the two components of a simulated wireless sensor
network running the slotted CSMA/CA medium access algorithm of section
7.5.1.4 of IEEE 802.15.4-2006:

- **the sensor node** (`SensorNodeCSMACA`), a state machine driven by five
  self-scheduled timers. These are the backoff expiry, the channel-busy mark
  at the next slot boundary, the send, the channel-free mark at the end of
  the transmission, and the decrement of the transmissions-in-progress
  counter. Each node keeps its backoff counters NB and BE, the number of
  packets still to send, and the creation time of the packet in hand;
- **the sink** (`SinkNodeCSMACA`). It classifies every arriving packet as
  received or collided by the number of transmissions in progress, and
  derives the delivery ratio and the average latency and energy at the end
  of the run;
- **the shared registers** the nodes and the sink read and write:
  `channel_free`, `concurrent_tx`, `dropped_pkts`, `tx_pkts`, `latency`
  and `energy`.

The code follows the implementation where it departs from the standard:
- the backoff draw is inclusive, 0 to 2^BE slots;
- BE is raised before the retry test;
- there is a single CCA.

Files and modules:

- `wrappers.dfy` (`Wrappers`): `Option`, for the statistics `SinkNodeCSMACA`
  leaves undefined.
- `csma.dfy` (`Csma`): the configuration and the value-level algorithm.
  - `IntUniform` is the random draw. It turns the uniform variate `u` in
    [0, 1), which the random generator supplies, into an integer of
    [0, n]; `IntUniformCovers` shows that every integer of that range is
    drawn by some variate.
  - `GenerateBackoffTime` is the backoff offset.
  - `RaiseExponent` and `AfterBusy` give the counters after a busy CCA.
  - `BusyRun` and `BusyRunClosedForm` give the counters after k busy CCAs
    in a row, and the CCA on which the packet is dropped.
- `channel.dfy` (`SharedChannel`): the shared registers as one `Channel`
  object. Every node and the sink hold a reference to it.
- `source.dfy` (`SensorNode`): the `Node` class.
  - Pending timers are a map from the timer's kind to its firing time. A
    kind therefore cannot be pending twice, and scheduling a kind replaces
    the previous timer of that kind.
  - Every handler requires the timer it serves to be pending at the
    current time, and consumes it.
  - `Valid()` holds in every state. It states:
    - the ranges of NB and BE;
    - that every packet was transmitted, dropped or is still to send;
    - that exactly one timer is pending while packets remain, and none
      after.
- `sink.dfy` (`SinkNode`): the `Sink` class and the arithmetic of
  `finish`.
- `network.dfy` (`Network`): any number of nodes and one sink on one
  channel, under a scheduler that fires the nodes' timers in any order.
  Its invariant states two things. `concurrent_tx` always equals the
  number of nodes whose transmission is in progress, so it is never
  negative and never exceeds the number of nodes. And every transmitted
  packet has been classified by the sink or is still on its way.
- `scenarios.dfy` (`Scenarios`): three complete runs built from the
  handlers' contracts: one node alone on the channel, two nodes whose
  transmissions overlap, and one node on a channel that stays busy, whose
  packet is dropped on busy CCA number macMaxCSMABackoffs + 1.

## Model

| member | source | states |
|---|---|---|
| Csma.Pow2 | src/source.cc:244 | 2^e as an integer, at least 1 |
| Csma.Pow2Monotone | src/source.cc:244 | a larger exponent never gives a smaller power of two |
| Csma.IntUniform | src/source.cc:244 | the draw `intuniform(0, n)` lies in [0, n], both ends included |
| Csma.IntUniformCovers | src/source.cc:244 | every integer of [0, n] is the draw of some variate in [0, 1), so the model does not narrow the draw |
| Csma.GenerateBackoffTime | src/source.cc:242-248 | the offset lies in [0, 2^BE * D_bp] |
| Csma.WholeSlots | src/source.cc:244-245 | every offset is r * D_bp for a whole number r of slots with 0 <= r <= 2^BE |
| Csma.EverySlotReachable | src/source.cc:244-245 | every r * D_bp with 0 <= r <= 2^BE, the top end 2^BE included, is the offset of some draw |
| Csma.BackoffTimeAtMostMax | src/source.cc:242-248 | since BE stays within [macMinBE, macMaxBE], no offset exceeds 2^macMaxBE * D_bp |
| Csma.RaiseExponent | src/source.cc:112-116 | BE after a busy CCA is BE + 1, saturated at macMaxBE; it stays at least macMinBE when it started in range |
| Csma.AfterBusy | src/source.cc:111-116 | a busy CCA adds exactly one to NB and moves BE to min(BE + 1, macMaxBE), keeping it in [macMinBE, macMaxBE] |
| Csma.BusyRunClosedForm | src/source.cc:106-140 | after k busy CCAs on a fresh packet, NB = k and BE = min(macMinBE + k, macMaxBE); the packet is retried exactly while k <= macMaxCSMABackoffs, so busy CCA number macMaxCSMABackoffs + 1 drops it |
| SensorNode.Node.constructor | src/source.cc:51-85 | initialize: NB = 0, BE = macMinBE, tot_pkt = pkt_to_send; with packets to send, the first packet is created now and its backoff is the only pending timer; without, nothing is scheduled and the creation time stays 0 |
| SensorNode.Node.PerformCca | src/source.cc:222-232 | adds p_rx * T_cca to the energy whatever the outcome, and returns channel_free without changing it |
| SensorNode.Node.SetChannelState | src/source.cc:235-239 | channel_free becomes the given state; nothing else changes |
| SensorNode.Node.DecreaseAndRepeat | src/source.cc:251-273 | NB and BE return to (0, macMinBE) and pkt_to_send drops by one; while it stays positive, the next packet is created at (tot_pkt - pkt_to_send) * T and its backoff is the only pending timer, at that time plus a fresh offset; at zero nothing is pending; the node's invariant is re-established |
| SensorNode.Node.OnBackoffExpired | src/source.cc:89-142 | the CCA costs p_rx * T_cca; on a free channel the only pending timer becomes the busy mark at now + D_bp - 0.000001 with the counters untouched; on a busy one the retry or drop of OnBusyChannel follows; the invariant is kept |
| SensorNode.Node.OnBusyChannel | src/source.cc:106-141 | NB + 1 and BE + 1 capped at macMaxBE; if NB <= macMaxCSMABackoffs the only pending timer is the retry at now + D_bp + offset with nothing dropped; otherwise dropped_pkts rises by exactly one and decrease_and_repeat's state follows |
| SensorNode.Node.Retry | src/source.cc:118-129 | with backoffs left, the only pending timer is the retry at now + D_bp + an offset drawn with the raised BE, nothing else changes, and the progress measure is that of the backoff stage with the new NB |
| SensorNode.Node.DropPacket | src/source.cc:130-140 | past macMaxCSMABackoffs, dropped_pkts rises by exactly one in both the node and the shared registers, decrease_and_repeat's state follows, and the progress measure is that of the next packet's first stage |
| SensorNode.Node.RankNext | src/source.cc:251-273 | moving on to the next packet lowers the progress measure below that of any stage of the current packet, and it stays non-negative |
| SensorNode.Node.OnSetChannelBusy | src/source.cc:143-158 | the channel is marked busy and the send is the only pending timer, one microsecond later |
| SensorNode.Node.OnSendMessage | src/source.cc:185-209 | concurrent_tx and tx_pkts each rise by exactly one, energy by p_tx * D_p, and the channel-free mark is the only pending timer, at now + D_p; the node's transmission is now counted |
| SensorNode.Node.OnSetChannelFree | src/source.cc:159-184 | the channel is marked free; now - pkt_creation_time is added to latency exactly when concurrent_tx <= 1, and latency is unchanged otherwise; the decrement is the only pending timer, one microsecond later |
| SensorNode.Node.OnDecreaseConcurrentTx | src/source.cc:210-217 | concurrent_tx drops by exactly one, the packet counts as transmitted, and decrease_and_repeat's state follows |
| SensorNode.Node.Handle | src/source.cc:87-219 | handleMessage: every handled event strictly lowers the node's progress measure, which never goes negative; a packet is emitted exactly when the send timer fires; concurrent_tx moves exactly by the change in whether this node's transmission is in progress, so every decrement follows the node's own increment; dropped_pkts moves by the node's drops; energy and latency never decrease; the invariant is kept |
| SensorNode.Node.ProgressBounds | src/source.cc:87-273 | a valid node with tot_pkt packets has at most tot_pkt * (macMaxCSMABackoffs + 5) events left, since each of Handle's steps lowers the measure, and none exactly when pkt_to_send = 0; so every packet completes or is dropped and pkt_to_send reaches 0 |
| SensorNode.Node.Dispose | src/source.cc:27-49 | the destructor leaves no timer pending |
| SinkNode.DeliveryRatio | src/sink.cc:50-53 | defined exactly when received + collided + dropped is non-zero, and then ratio * (received + collided + dropped) = received * 100 |
| SinkNode.DeliveryRatioBounds | src/sink.cc:50-53 | the ratio is a percentage in [0, 100], and is 100 exactly when nothing collided and nothing was dropped |
| SinkNode.DeliveryRatioExample | src/sink.cc:50-53 | 8 received, 1 collided and 1 dropped give 80 |
| SinkNode.PerPacketMilli | src/sink.cc:54-55 | the per-packet average is undefined exactly when received_pkts = 0, and otherwise average * received = total * 1000 |
| SinkNode.PerPacketMilliNonNegative | src/sink.cc:54-55 | a non-negative total over a positive count gives a non-negative average |
| SinkNode.Sink.constructor | src/sink.cc:17-21 | initialize: received_pkts and collided start at zero |
| SinkNode.Sink.OnPacket | src/sink.cc:23-44 | collided rises iff concurrent_tx > 1, received_pkts rises iff concurrent_tx <= 1, exactly one of them by exactly one; the shared registers are only read |
| SinkNode.Sink.Finish | src/sink.cc:46-56 | the delivery ratio over received + collided + dropped_pkts, and latency and energy per received packet in milli-units; both averages are undefined exactly when received_pkts = 0 |
| Network.Network.constructor | src/sink.cc:17-21 | a network starts with an idle channel, no nodes and a sink with no packets, and its invariant holds |
| Network.Network.AddNode | src/source.cc:51-85 | adding an initialised node keeps the network invariant |
| Network.Network.Fire | src/source.cc:87-219 | firing any pending timer of any node, in any order, keeps the network invariant: every other node is untouched, concurrent_tx still equals the number of nodes in transmission, and a sent packet joins those on their way to the sink |
| Network.Network.Deliver | src/sink.cc:23-44 | the sink's handling of a packet on its way keeps tx_pkts = received + collided + in transit |
| Network.Network.Finish | src/sink.cc:46-56 | at any point of a run the delivery ratio, when defined, lies in [0, 100], and the average latency and energy, when defined, are non-negative |
| Network.ConcurrentTxBounds | src/source.cc:195-213 | concurrent_tx is never negative and never exceeds the number of nodes |
| Network.QuiescentChannel | src/source.cc:195-213 | once every node has no packet left to send, concurrent_tx is 0 again: each node's increment has been matched by its decrement |
| Scenarios.Sense | src/source.cc:89-105 | a backoff expiring on a free channel leads to the channel-busy mark, with nothing dropped |
| Scenarios.Send | src/source.cc:143-209 | the busy mark followed by the send puts one more transmission in progress and one more packet on its way |
| Scenarios.Complete | src/source.cc:159-217 | the end of the last packet's transmission frees the channel, decrements concurrent_tx and leaves the node with nothing to send or pending |
| Scenarios.NoContention | src/source.cc:87-219 | one node with one packet on an idle channel: one transmission, received by the sink, concurrent_tx back to 0, nothing dropped, nothing left pending |
| Scenarios.BothOnAir | src/source.cc:89-209 | two nodes that both find the channel free both transmit: concurrent_tx = 2 |
| Scenarios.Contention | src/sink.cc:28-41 | two overlapping transmissions are both counted as collided, neither adds latency, and concurrent_tx returns to 0 |
| Scenarios.Exhaustion | src/source.cc:89-141 | on a channel that stays busy, a single packet is retried after each of the first macMaxCSMABackoffs busy CCAs with NB and BE raised as BusyRun gives, and dropped on busy CCA macMaxCSMABackoffs + 1: dropped_pkts is 1, nothing is transmitted, NB and BE are back to (0, macMinBE) and no timer is pending |

## Left out

- The simulation runtime is replaced:
  - message allocation and deletion, `scheduleAt` and `cancelAndDelete` become the per-node timer map;
  - `send` over a gate becomes the `Network` in-transit count and `Deliver`;
  - the lookup of the shared module by path becomes an explicit `Channel` reference;
  - `EV` logging and the printed format of the statistics are dropped.
- The event queue and its time ordering are external. `Network.Fire` fires any pending timer of any node, so every property proved there holds for every ordering, not only for the time-ordered one.
- Neither the 0.000001 compensations' slot alignment nor the physical correctness of collision detection across the network is proved. Both depend on the scheduler's timing, not on this code's logic.
- `intuniform` becomes a uniform variate `u` in [0, 1) passed to each operation that draws, and `pow(2, be)` becomes an integer power. Doubles become exact reals, so rounding is not modelled.
- Integer widths are not modelled: counters are unbounded integers, so an overflow of `int` after 2^31 packets is not captured.
- `decrease_and_repeat` schedules the next backoff at an absolute time that can lie before the current time when a packet took longer than T. The simulator rejects such a schedule; the model records the time and does not detect it.
- The configuration parameters are assumed valid (`Csma.Config.Valid`): 0 <= macMinBE <= macMaxBE, macMaxCSMABackoffs >= 0, D_bp at least the 0.000001 compensation, and non-negative durations and powers. A node is also assumed to start with pkt_to_send >= 0 and at a non-negative simulation time (`SensorNode.Node.constructor`); with a negative pkt_to_send, `SensorNodeCSMACA` schedules nothing, and the model does not cover that case. The initial register values come from the network description file, which is not part of this model; `Network` starts with a free channel and all counters at zero.
- The header files `source.h` and `sink.h` are not part of this model; field types follow their use.
- `SensorNode.Node.Dispose`: only clears the pending timers; releasing memory has no counterpart.
- Sink `finish`: when received_pkts is 0, or the whole denominator is 0, `SinkNodeCSMACA` divides by zero and prints infinity or NaN. The model returns `None` for these cases instead.
- `finish` of the sensor node is empty and has no counterpart.
