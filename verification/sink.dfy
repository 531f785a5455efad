/** The sink: classifies every arriving packet as received or collided by
    the number of transmissions in progress, and derives the end-of-run
    statistics. */
module SinkNode {
  import opened Wrappers
  import opened SharedChannel

  /** received / (received + collided + dropped) * 100, or None when no
      packet at all was counted (SinkNodeCSMACA then divides 0 by 0). */
  function DeliveryRatio(received: int, collided: int, dropped: int): (r: Option<real>)
    ensures r.Some? <==> received + collided + dropped != 0
    ensures r.Some? ==>
      r.value * (received + collided + dropped) as real == received as real * 100.0
  {
    var total := received + collided + dropped;
    if total == 0 then None else Some(received as real / total as real * 100.0)
  }

  /** With non-negative counters the ratio is a percentage, and it is 100
      exactly when nothing collided and nothing was dropped. */
  lemma DeliveryRatioBounds(received: nat, collided: nat, dropped: nat)
    requires received + collided + dropped > 0
    ensures 0.0 <= DeliveryRatio(received, collided, dropped).value <= 100.0
    ensures DeliveryRatio(received, collided, dropped).value == 100.0 <==>
      collided == 0 && dropped == 0
  {
    var total := (received + collided + dropped) as real;
    var v := DeliveryRatio(received, collided, dropped).value;
    assert v * total == received as real * 100.0;
    assert (100.0 - v) * total == (total - received as real) * 100.0;
    assert v == 100.0 ==> received as real == total;
  }

  /** For instance, 8 received, 1 collided and 1 dropped give 80%. */
  lemma DeliveryRatioExample()
    ensures DeliveryRatio(8, 1, 1) == Some(80.0)
  {
  }

  /** total / received * 1000 (a per-packet average in milli-units), or
      None when nothing was received: SinkNodeCSMACA divides by received_pkts
      without a guard. */
  function PerPacketMilli(total: real, received: int): (r: Option<real>)
    ensures r.None? <==> received == 0
    ensures r.Some? ==> r.value * received as real == total * 1000.0
  {
    if received == 0 then None else Some(total / received as real * 1000.0)
  }

  /** A non-negative total over a positive count has a non-negative
      average. */
  lemma PerPacketMilliNonNegative(total: real, received: nat)
    requires 0.0 <= total && 0 < received
    ensures PerPacketMilli(total, received).value >= 0.0
  {
    var v := PerPacketMilli(total, received).value;
    assert v * received as real == total * 1000.0;
  }

  /** The end-of-run statistics: delivery ratio in percent, average latency
      in milliseconds, average energy in millijoules. */
  datatype Report = Report(
    deliveryRatio: Option<real>,
    avgLatency: Option<real>,
    avgEnergy: Option<real>)

  class Sink {
    /** The shared registers of the SourceSink module. */
    const ch: Channel
    /** received_pkts: packets that arrived while no other transmission was
        in progress. */
    var received: nat
    /** Packets that arrived during an overlapping transmission. */
    var collided: nat

    /** Creation and initialize(): both counters start at zero. */
    constructor (ch: Channel)
      ensures this.ch == ch
      ensures received == 0 && collided == 0
    {
      this.ch := ch;
      received := 0;
      collided := 0;
    }

    /** handleMessage: a packet arrives. It collided when more than one
        transmission is in progress, and was received otherwise; exactly one
        counter moves by one, and the shared registers are only read. */
    method OnPacket()
      modifies this`received, this`collided
      ensures ch.concurrentTx > 1 ==> collided == old(collided) + 1 && received == old(received)
      ensures ch.concurrentTx <= 1 ==> received == old(received) + 1 && collided == old(collided)
      ensures received + collided == old(received + collided) + 1
    {
      if ch.concurrentTx > 1 {
        collided := collided + 1;
      } else {
        received := received + 1;
      }
    }

    /** finish: the three statistics from the sink's counters and the shared
        dropped count and latency and energy sums. */
    method Finish() returns (rep: Report)
      ensures rep.deliveryRatio == DeliveryRatio(received, collided, ch.droppedPkts)
      ensures rep.avgLatency == PerPacketMilli(ch.latency, received)
      ensures rep.avgEnergy == PerPacketMilli(ch.energy, received)
      ensures rep.avgLatency.None? <==> received == 0
      ensures rep.avgEnergy.None? <==> received == 0
    {
      var ratio := DeliveryRatio(received, collided, ch.droppedPkts);
      var latency := PerPacketMilli(ch.latency, received);
      var energy := PerPacketMilli(ch.energy, received);
      rep := Report(ratio, latency, energy);
    }
  }
}
