/** Two complete runs, composed from the handlers' contracts: one node alone
    on the channel, and two nodes whose transmissions overlap. Each run goes
    through three phases per node: sensing a free channel, sending, and
    completing the transmission. */
module Scenarios {
  import opened Csma
  import opened SharedChannel
  import opened SensorNode
  import opened SinkNode

  /** The backoff timer fires on a free channel: the node takes the channel
      at the next slot boundary and nothing is dropped. */
  method Sense(n: Node, u: real)
    requires n.Valid() && BackoffExpired in n.timers && n.ch.channelFree
    requires 0.0 <= u < 1.0
    modifies n, n.ch`energy, n.ch`droppedPkts
    ensures n.Valid() && SetChannelBusy in n.timers
    ensures n.pktToSend == old(n.pktToSend) && n.transmitted == old(n.transmitted)
    ensures n.ch.droppedPkts == old(n.ch.droppedPkts)
  {
    n.OnBackoffExpired(n.timers[BackoffExpired], u);
  }

  /** The slot boundary is reached and the packet goes on the air. */
  method Send(n: Node)
    requires n.Valid() && SetChannelBusy in n.timers
    modifies n`timers, n.ch`channelFree, n.ch`energy, n.ch`concurrentTx, n.ch`txPkts
    ensures n.Valid() && SetChannelFree in n.timers
    ensures !n.ch.channelFree
    ensures n.ch.concurrentTx == old(n.ch.concurrentTx) + 1
    ensures n.ch.txPkts == old(n.ch.txPkts) + 1
  {
    n.OnSetChannelBusy(n.timers[SetChannelBusy]);
    n.OnSendMessage(n.timers[SendMessage]);
  }

  /** The last packet's transmission ends: the channel is free again, the
      latency is accounted only when no other transmission overlapped, and
      the node has nothing left to do. */
  method Complete(n: Node, u: real)
    requires n.Valid() && SetChannelFree in n.timers && n.pktToSend == 1
    requires 0.0 <= u < 1.0
    modifies n, n.ch`channelFree, n.ch`latency, n.ch`concurrentTx
    ensures n.ch.channelFree
    ensures n.ch.concurrentTx == old(n.ch.concurrentTx) - 1
    ensures old(n.ch.concurrentTx) > 1 ==> n.ch.latency == old(n.ch.latency)
    ensures n.ch.latency >= old(n.ch.latency)
    ensures n.pktToSend == 0 && n.timers == map[]
    ensures n.transmitted == old(n.transmitted) + 1
  {
    n.OnSetChannelFree(n.timers[SetChannelFree]);
    n.OnDecreaseConcurrentTx(n.timers[DecreaseConcurrentTx], u);
  }

  /** One node with one packet on an idle channel: the packet is sent once
      and received, concurrent_tx returns to zero, nothing is dropped, and
      the node has nothing left to do. */
  method NoContention(cfg: Config, u: real) returns (ch: Channel, sink: Sink, n: Node)
    requires cfg.Valid() && 0.0 <= u < 1.0
    ensures sink.received == 1 && sink.collided == 0
    ensures ch.txPkts == 1 && ch.concurrentTx == 0 && ch.droppedPkts == 0
    ensures ch.channelFree && ch.latency >= 0.0
    ensures n.pktToSend == 0 && n.timers == map[] && n.transmitted == 1
  {
    ch := new Channel();
    sink := new Sink(ch);
    n := new Node(cfg, 1, ch, 0.0, u);
    Sense(n, u);
    Send(n);
    sink.OnPacket();
    Complete(n, u);
  }

  /** Two nodes with one packet each both find the idle channel free and
      both go on the air, so two transmissions are in progress. */
  method BothOnAir(cfg: Config, u: real) returns (ch: Channel, a: Node, b: Node)
    requires cfg.Valid() && 0.0 <= u < 1.0
    ensures fresh(ch) && fresh(a) && fresh(b) && a != b
    ensures a.ch == ch && b.ch == ch
    ensures a.Valid() && b.Valid() && a.pktToSend == 1 && b.pktToSend == 1
    ensures SetChannelFree in a.timers && SetChannelFree in b.timers
    ensures ch.txPkts == 2 && ch.concurrentTx == 2 && ch.latency == 0.0
  {
    ch := new Channel();
    a := new Node(cfg, 1, ch, 0.0, u);
    b := new Node(cfg, 1, ch, 0.0, u);
    Sense(a, u);
    Sense(b, u);
    Send(a);
    Send(b);
  }

  /** Two nodes whose transmissions overlap when their packets arrive and
      when each of them ends (both end before either decrement, which comes
      one compensation later): the sink counts two collisions, neither
      transmission adds latency, and concurrent_tx returns to zero. */
  method Contention(cfg: Config, u: real) returns (ch: Channel, sink: Sink, a: Node, b: Node)
    requires cfg.Valid() && 0.0 <= u < 1.0
    ensures sink.received == 0 && sink.collided == 2
    ensures ch.txPkts == 2 && ch.concurrentTx == 0
    ensures ch.latency == 0.0
    ensures a.pktToSend == 0 && b.pktToSend == 0
  {
    ch, a, b := BothOnAir(cfg, u);
    sink := new Sink(ch);
    sink.OnPacket();
    sink.OnPacket();
    a.OnSetChannelFree(a.timers[SetChannelFree]);
    b.OnSetChannelFree(b.timers[SetChannelFree]);
    a.OnDecreaseConcurrentTx(a.timers[DecreaseConcurrentTx], u);
    b.OnDecreaseConcurrentTx(b.timers[DecreaseConcurrentTx], u);
  }

  /** One node with one packet on a channel that stays busy: the first
      macMaxCSMABackoffs busy CCAs each raise NB and BE and retry, and busy
      CCA number macMaxCSMABackoffs + 1 drops the packet, which is counted
      once in dropped_pkts, and resets NB and BE; the node then has nothing
      left to do. */
  method Exhaustion(cfg: Config, u: real) returns (ch: Channel, n: Node)
    requires cfg.Valid() && 0.0 <= u < 1.0
    ensures ch.droppedPkts == 1 && n.dropped == 1 && n.transmitted == 0
    ensures n.pktToSend == 0 && n.timers == map[]
    ensures n.nb == 0 && n.be == cfg.minBE
  {
    ch := new Channel();
    ch.channelFree := false;
    n := new Node(cfg, 1, ch, 0.0, u);
    var k := 0;
    while k < cfg.maxBackoffs
      invariant 0 <= k <= cfg.maxBackoffs
      invariant n.Valid() && n.ch == ch && !ch.channelFree
      invariant n.pktToSend == 1 && BackoffExpired in n.timers
      invariant Backoff(n.nb, n.be) == BusyRun(cfg, k)
      invariant ch.droppedPkts == 0 && n.dropped == 0 && n.transmitted == 0
      decreases cfg.maxBackoffs - k
    {
      BusyRunClosedForm(cfg, k);
      n.OnBackoffExpired(n.timers[BackoffExpired], u);
      k := k + 1;
    }
    BusyRunClosedForm(cfg, k);
    n.OnBackoffExpired(n.timers[BackoffExpired], u);
  }
}
