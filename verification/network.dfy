/** The whole simulated network: sensor nodes and one sink sharing the
    channel registers. Events are fired in any order the scheduler chooses
    (time ordering is the scheduler's business and is not modelled), and the
    network's invariant ties the shared counters to the nodes and the sink:
    concurrent_tx is exactly the number of nodes whose transmission is in
    progress, so it is never negative, and every transmitted packet is
    classified by the sink once or is still on its way there. */
module Network {
  import opened Wrappers
  import opened Csma
  import opened SharedChannel
  import opened SensorNode
  import opened SinkNode

  /** A set drawn from the elements of a sequence is no larger than the
      sequence. */
  lemma {:induction false} SubsetOfSeqCard<T>(s: set<T>, xs: seq<T>)
    requires forall x :: x in s ==> x in xs
    ensures |s| <= |xs|
  {
    if xs != [] {
      var last := xs[|xs| - 1];
      var rest := xs[..|xs| - 1];
      forall x | x in s - {last}
        ensures x in rest
      {
        assert x in xs;
        var k :| 0 <= k < |xs| && xs[k] == x;
        assert rest[k] == x;
      }
      SubsetOfSeqCard(s - {last}, rest);
    }
  }

  class Network {
    const ch: Channel
    const sink: Sink
    var nodes: seq<Node>
    /** Packets sent but not yet handled by the sink. */
    var inTransit: nat
    /** The nodes whose transmission is in progress. */
    ghost var transmitting: set<Node>

    /** One node is on channel c, keeps its own invariant, and is in t
        exactly while its transmission is in progress. */
    static ghost predicate Member(n: Node, c: Channel, t: set<Node>)
      reads n
    {
      n.ch == c && n.Valid() && (n in t <==> n.Holds())
    }

    ghost predicate Valid()
      reads this, ch, sink, nodes
    {
      sink.ch == ch &&
      (forall i :: 0 <= i < |nodes| ==> Member(nodes[i], ch, transmitting)) &&
      (forall i, j :: 0 <= i < j < |nodes| ==> nodes[i] != nodes[j]) &&
      (forall n :: n in transmitting ==> n in nodes) &&
      ch.concurrentTx == |transmitting| &&
      ch.txPkts == sink.received + sink.collided + inTransit &&
      ch.droppedPkts >= 0 && ch.energy >= 0.0 && ch.latency >= 0.0
    }

    /** A network with an idle channel, a fresh sink and no nodes yet. */
    constructor ()
      ensures Valid() && fresh(ch) && fresh(sink)
      ensures nodes == [] && inTransit == 0
      ensures ch.channelFree && ch.concurrentTx == 0
    {
      var c := new Channel();
      ch := c;
      sink := new Sink(c);
      nodes := [];
      inTransit := 0;
      transmitting := {};
    }

    /** Create and initialise one more sensor node on the shared channel. */
    method AddNode(cfg: Config, pkts: int, now: real, u: real) returns (n: Node)
      requires Valid()
      requires cfg.Valid() && 0 <= pkts && 0.0 <= now && 0.0 <= u < 1.0
      modifies this
      ensures Valid() && fresh(n)
      ensures nodes == old(nodes) + [n] && inTransit == old(inTransit)
      ensures n.cfg == cfg && n.pktToSend == pkts
    {
      n := new Node(cfg, pkts, ch, now, u);
      nodes := nodes + [n];
    }

    /** The scheduler fires the pending timer of the given kind of node i;
        a packet it sends is on its way to the sink. */
    method Fire(i: nat, kind: TimerKind, u: real)
      requires Valid() && i < |nodes| && kind in nodes[i].timers
      requires 0.0 <= u < 1.0
      modifies this, nodes[i], ch
      ensures Valid() && nodes == old(nodes)
      ensures inTransit == old(inTransit) + (if kind == SendMessage then 1 else 0)
      ensures ch.droppedPkts >= old(ch.droppedPkts)
      ensures ch.latency >= old(ch.latency) && ch.energy >= old(ch.energy)
    {
      var node := nodes[i];
      ghost var before := transmitting;
      var now := node.timers[kind];
      var sent := node.Handle(kind, now, u);
      if sent {
        inTransit := inTransit + 1;
      }
      transmitting := if node.Holds() then transmitting + {node} else transmitting - {node};
      forall j | 0 <= j < |nodes| && j != i
        ensures Member(nodes[j], ch, transmitting)
      {
        assert nodes[j] != node;
        assert old(Member(nodes[j], ch, before));
        assert nodes[j] in transmitting <==> nodes[j] in before;
      }
      assert Member(node, ch, transmitting);
    }

    /** The sink handles one packet that is on its way. */
    method Deliver()
      requires Valid() && inTransit > 0
      modifies this, sink
      ensures Valid() && nodes == old(nodes)
      ensures inTransit == old(inTransit) - 1
      ensures sink.received + sink.collided == old(sink.received + sink.collided) + 1
    {
      sink.OnPacket();
      inTransit := inTransit - 1;
    }

    /** finish, at any point of a run: the delivery ratio, when defined, is
        a percentage, and the averages, when defined, are non-negative. */
    method Finish() returns (rep: Report)
      requires Valid()
      ensures rep.deliveryRatio.Some? ==> 0.0 <= rep.deliveryRatio.value <= 100.0
      ensures rep.avgLatency.None? <==> sink.received == 0
      ensures rep.avgLatency.Some? ==> rep.avgLatency.value >= 0.0
      ensures rep.avgEnergy.Some? ==> rep.avgEnergy.value >= 0.0
    {
      rep := sink.Finish();
      if rep.deliveryRatio.Some? {
        DeliveryRatioBounds(sink.received, sink.collided, ch.droppedPkts);
      }
      if sink.received > 0 {
        PerPacketMilliNonNegative(ch.latency, sink.received);
        PerPacketMilliNonNegative(ch.energy, sink.received);
      }
    }
  }

  /** concurrent_tx never goes negative and never exceeds the number of
      nodes. */
  lemma ConcurrentTxBounds(net: Network)
    requires net.Valid()
    ensures 0 <= net.ch.concurrentTx <= |net.nodes|
  {
    SubsetOfSeqCard(net.transmitting, net.nodes);
  }

  /** Once every node has sent or dropped all its packets, no transmission
      is in progress: every increment of concurrent_tx has been matched by
      its decrement. */
  lemma QuiescentChannel(net: Network)
    requires net.Valid()
    requires forall i :: 0 <= i < |net.nodes| ==> net.nodes[i].pktToSend == 0
    ensures net.ch.concurrentTx == 0
  {
    forall i | 0 <= i < |net.nodes|
      ensures net.nodes[i] !in net.transmitting
    {
      assert Network.Member(net.nodes[i], net.ch, net.transmitting);
    }
    assert net.transmitting == {};
  }
}
