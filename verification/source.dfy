/** The sensor node: the slotted CSMA/CA state machine of one transmitting
    device (SensorNodeCSMACA). Its timers are simulator self-messages; each
    pending timer is an entry of a map from the timer's kind to its firing
    time, so a kind can never be pending twice, and scheduling a kind
    replaces (cancels) the previous timer of that kind. */
module SensorNode {
  import opened Csma
  import opened SharedChannel

  /** The five self-messages a node schedules. */
  datatype TimerKind =
    | BackoffExpired
    | SetChannelBusy
    | SendMessage
    | SetChannelFree
    | DecreaseConcurrentTx

  class Node {
    const cfg: Config
    /** The shared registers of the SourceSink module. */
    const ch: Channel
    /** The number of packets the node was configured to send. */
    const totPkt: int

    /** NB: busy CCAs met by the packet in hand. */
    var nb: int
    /** BE: the backoff exponent of the packet in hand. */
    var be: int
    /** Packets still to send, the one in hand included. */
    var pktToSend: int
    /** When the packet in hand became ready to be sent. */
    var pktCreationTime: real
    /** The pending timers, by kind, with their firing times. */
    var timers: map<TimerKind, real>

    /** Packets whose transmission has completed, and packets dropped. */
    ghost var transmitted: nat
    ghost var dropped: nat

    /** The node waits on one timer at a time. */
    ghost predicate AtMostOnePending()
      reads this
    {
      forall k, k' :: k in timers && k' in timers ==> k == k'
    }

    /** The node's invariant: the backoff counters stay in their ranges,
        every packet is sent, dropped or still to send, one timer is pending
        exactly while packets remain, and no pending timer fires before the
        packet in hand was created. */
    ghost predicate Valid()
      reads this
    {
      cfg.Valid() &&
      cfg.minBE <= be <= cfg.maxBE &&
      0 <= nb <= cfg.maxBackoffs &&
      0 <= pktToSend <= totPkt &&
      transmitted + dropped + pktToSend == totPkt &&
      AtMostOnePending() &&
      (timers == map[] <==> pktToSend == 0) &&
      (forall k :: k in timers ==> pktCreationTime <= timers[k])
    }

    /** The node's transmission is counted in concurrent_tx: it has sent and
        has not yet decremented the counter. */
    ghost predicate Holds()
      reads this
    {
      SetChannelFree in timers || DecreaseConcurrentTx in timers
    }

    /** How far a pending timer is from the end of its packet: a backoff
        with nb busy CCAs behind it is at most macMaxCSMABackoffs + 5 steps
        away, then the busy mark, the send, the free mark and the decrement
        are 4, 3, 2 and 1 away. */
    static function Stage(cfg: Config, nb: int, timers: map<TimerKind, real>): int {
      if BackoffExpired in timers then cfg.maxBackoffs - nb + 5
      else if SetChannelBusy in timers then 4
      else if SendMessage in timers then 3
      else if SetChannelFree in timers then 2
      else 1
    }

    /** The bound with pkts packets still to send, the one in hand at the
        given stage: each packet after it takes at most
        macMaxCSMABackoffs + 5 events. */
    static function Rank(cfg: Config, pkts: int, stage: int): int {
      if pkts == 0 then 0 else (pkts - 1) * (cfg.maxBackoffs + 5) + stage
    }

    /** Handing the packet over to the next one at a fresh backoff lowers
        the bound. */
    static lemma RankNext(cfg: Config, pkts: int, stage: int)
      requires cfg.Valid() && 1 <= pkts && 1 <= stage
      ensures 0 <= Rank(cfg, pkts - 1, cfg.maxBackoffs + 5) < Rank(cfg, pkts, stage)
    {
      var w := cfg.maxBackoffs + 5;
      if pkts > 1 {
        assert (pkts - 2) * w + w == (pkts - 1) * w;
      }
    }

    /** A bound on the number of events the node still handles. */
    ghost function Progress(): int
      reads this
    {
      Rank(cfg, pktToSend, Stage(cfg, nb, timers))
    }

    /** A node configured with tot_pkt packets handles at most
        tot_pkt * (macMaxCSMABackoffs + 5) more events, and it has handled its
        last one exactly when no packet is left to send. */
    lemma ProgressBounds()
      requires Valid()
      ensures 0 <= Progress() <= totPkt * (cfg.maxBackoffs + 5)
      ensures Progress() == 0 <==> pktToSend == 0
    {
      var w := cfg.maxBackoffs + 5;
      if pktToSend > 0 {
        assert 1 <= Stage(cfg, nb, timers) <= w;
        assert (pktToSend - 1) * w + w == pktToSend * w;
        assert pktToSend * w <= totPkt * w by {
          assert totPkt * w - pktToSend * w == (totPkt - pktToSend) * w;
        }
      }
    }

    /** The absolute start of the generation period of the packet in hand. */
    function SlotStart(): real
      reads this
    {
      (totPkt - pktToSend) as real * cfg.T
    }

    /** The state decrease_and_repeat leaves: fresh backoff counters, one
        packet fewer, and, if packets remain, the next packet created at the
        start of its period with its first backoff scheduled from there. */
    ghost predicate Repeated(prevPkts: int, prevCreation: real, u: real)
      requires cfg.Valid() && 0.0 <= u < 1.0
      reads this
    {
      nb == 0 && be == cfg.minBE && pktToSend == prevPkts - 1 &&
      if pktToSend > 0 then
        pktCreationTime == SlotStart() &&
        timers == map[BackoffExpired := pktCreationTime + GenerateBackoffTime(cfg, cfg.minBE, u)]
      else
        pktCreationTime == prevCreation && timers == map[]
    }

    /** Creation and initialize(): reads the configuration, resets the
        counters and, when there is something to send, creates the first
        packet now and schedules its first backoff. */
    constructor (cfg: Config, pkts: int, ch: Channel, now: real, u: real)
      requires cfg.Valid() && 0 <= pkts
      requires 0.0 <= now && 0.0 <= u < 1.0
      ensures this.cfg == cfg && this.ch == ch && totPkt == pkts
      ensures Valid() && !Holds()
      ensures nb == 0 && be == cfg.minBE && pktToSend == pkts
      ensures transmitted == 0 && dropped == 0
      ensures pkts > 0 ==> (pktCreationTime == now &&
        timers == map[BackoffExpired := now + GenerateBackoffTime(cfg, cfg.minBE, u)])
      ensures pkts == 0 ==> pktCreationTime == 0.0 && timers == map[]
    {
      this.cfg := cfg;
      this.ch := ch;
      totPkt := pkts;
      pktToSend := pkts;
      pktCreationTime := 0.0;
      nb := 0;
      be := cfg.minBE;
      timers := map[];
      transmitted := 0;
      dropped := 0;
      new;
      if pktToSend > 0 {
        pktCreationTime := now;
        timers := timers[BackoffExpired := now + GenerateBackoffTime(cfg, be, u)];
        assert BackoffExpired in timers;
      }
    }

    /** perform_cca: sensing costs p_rx * T_cca whatever it finds; the
        channel state is returned, not changed. */
    method PerformCca() returns (free: bool)
      modifies ch`energy
      ensures free == ch.channelFree
      ensures ch.energy == old(ch.energy) + cfg.pRx * cfg.tCca
    {
      ch.energy := ch.energy + cfg.pRx * cfg.tCca;
      free := ch.channelFree;
    }

    /** set_channel_state: publishes the channel as free or busy. */
    method SetChannelState(state: bool)
      modifies ch`channelFree
      ensures ch.channelFree == state
    {
      ch.channelFree := state;
    }

    /** decrease_and_repeat: the packet in hand is done (sent or dropped);
        reset NB and BE, count it off, and start the next packet if any. */
    method DecreaseAndRepeat(u: real)
      requires cfg.Valid() && 0.0 <= u < 1.0
      requires 1 <= pktToSend <= totPkt
      requires transmitted + dropped + pktToSend == totPkt + 1
      requires timers == map[]
      modifies this`nb, this`be, this`pktToSend, this`pktCreationTime, this`timers
      ensures Valid() && !Holds()
      ensures Progress() == Rank(cfg, old(pktToSend) - 1, cfg.maxBackoffs + 5)
      ensures Repeated(old(pktToSend), old(pktCreationTime), u)
    {
      nb := 0;
      be := cfg.minBE;
      pktToSend := pktToSend - 1;
      if pktToSend > 0 {
        var start := SlotStart();
        timers := timers[BackoffExpired := start + GenerateBackoffTime(cfg, be, u)];
        pktCreationTime := start;
        assert BackoffExpired in timers;
      }
    }

    /** The backoff timer expired: perform a CCA. On a free channel, hold it
        from the next slot boundary; on a busy one, back off again or drop
        the packet. */
    method OnBackoffExpired(now: real, u: real)
      requires Valid() && BackoffExpired in timers && timers[BackoffExpired] == now
      requires 0.0 <= u < 1.0
      modifies this, ch`energy, ch`droppedPkts
      ensures Valid() && !Holds()
      ensures 0 <= Progress() < old(Progress())
      ensures ch.energy == old(ch.energy) + cfg.pRx * cfg.tCca
      ensures transmitted == old(transmitted)
      // channel free: the node will take the channel
      ensures old(ch.channelFree) ==>
        nb == old(nb) && be == old(be) &&
        pktToSend == old(pktToSend) && pktCreationTime == old(pktCreationTime) &&
        timers == map[SetChannelBusy := now + cfg.dBp - Compensation] &&
        ch.droppedPkts == old(ch.droppedPkts) && dropped == old(dropped)
      // channel busy, backoffs left: retry
      ensures !old(ch.channelFree) && old(nb) + 1 <= cfg.maxBackoffs ==>
        Backoff(nb, be) == AfterBusy(cfg, Backoff(old(nb), old(be))) &&
        pktToSend == old(pktToSend) && pktCreationTime == old(pktCreationTime) &&
        timers == map[BackoffExpired := now + cfg.dBp + GenerateBackoffTime(cfg, be, u)] &&
        ch.droppedPkts == old(ch.droppedPkts) && dropped == old(dropped)
      // channel busy, backoffs exhausted: drop
      ensures !old(ch.channelFree) && old(nb) + 1 > cfg.maxBackoffs ==>
        ch.droppedPkts == old(ch.droppedPkts) + 1 && dropped == old(dropped) + 1 &&
        Repeated(old(pktToSend), old(pktCreationTime), u)
    {
      var free := PerformCca();
      timers := timers - {BackoffExpired};
      assert timers == map[];
      if free {
        timers := timers[SetChannelBusy := now + cfg.dBp - Compensation];
        assert SetChannelBusy in timers;
      } else {
        OnBusyChannel(now, u);
      }
    }

    /** The node's invariant at the moment its only timer has fired and been
        consumed, at time now. */
    ghost predicate Consumed(now: real)
      reads this
    {
      cfg.Valid() &&
      cfg.minBE <= be <= cfg.maxBE &&
      0 <= nb <= cfg.maxBackoffs &&
      1 <= pktToSend <= totPkt &&
      transmitted + dropped + pktToSend == totPkt &&
      timers == map[] && pktCreationTime <= now
    }

    /** The CCA found the channel busy: count the backoff, raise BE up to
        macMaxBE, and either retry after one slot plus a new random backoff
        or, past macMaxCSMABackoffs, drop the packet. */
    method OnBusyChannel(now: real, u: real)
      requires Consumed(now) && 0.0 <= u < 1.0
      modifies this`nb, this`be, this`pktToSend, this`pktCreationTime, this`timers,
        this`dropped, ch`droppedPkts
      ensures Valid() && !Holds()
      ensures 0 <= Progress() < Rank(cfg, old(pktToSend), cfg.maxBackoffs - old(nb) + 5)
      ensures old(nb) + 1 <= cfg.maxBackoffs ==>
        Backoff(nb, be) == AfterBusy(cfg, Backoff(old(nb), old(be))) &&
        pktToSend == old(pktToSend) && pktCreationTime == old(pktCreationTime) &&
        timers == map[BackoffExpired := now + cfg.dBp + GenerateBackoffTime(cfg, be, u)] &&
        ch.droppedPkts == old(ch.droppedPkts) && dropped == old(dropped)
      ensures old(nb) + 1 > cfg.maxBackoffs ==>
        ch.droppedPkts == old(ch.droppedPkts) + 1 && dropped == old(dropped) + 1 &&
        Repeated(old(pktToSend), old(pktCreationTime), u)
    {
      var next := AfterBusy(cfg, Backoff(nb, be));
      nb, be := next.nb, next.be;
      if nb <= cfg.maxBackoffs {
        Retry(now, u);
      } else {
        RankNext(cfg, pktToSend, cfg.maxBackoffs - old(nb) + 5);
        DropPacket(u);
      }
    }

    /** Backoffs are left: wait one slot plus a new random backoff, drawn
        with the raised BE, and sense again. */
    method Retry(now: real, u: real)
      requires Consumed(now) && 0.0 <= u < 1.0
      modifies this`timers
      ensures Valid() && !Holds()
      ensures timers == map[BackoffExpired := now + cfg.dBp + GenerateBackoffTime(cfg, be, u)]
      ensures Progress() == Rank(cfg, pktToSend, cfg.maxBackoffs - nb + 5)
    {
      var at := now + cfg.dBp + GenerateBackoffTime(cfg, be, u);
      timers := map[BackoffExpired := at];
      assert BackoffExpired in timers;
    }

    /** macMaxCSMABackoffs is exceeded: count the packet as dropped in the
        shared registers and go on with the next packet. */
    method DropPacket(u: real)
      requires cfg.Valid() && 0.0 <= u < 1.0
      requires 1 <= pktToSend <= totPkt
      requires transmitted + dropped + pktToSend == totPkt
      requires timers == map[]
      modifies this`nb, this`be, this`pktToSend, this`pktCreationTime, this`timers,
        this`dropped, ch`droppedPkts
      ensures Valid() && !Holds()
      ensures ch.droppedPkts == old(ch.droppedPkts) + 1 && dropped == old(dropped) + 1
      ensures Repeated(old(pktToSend), old(pktCreationTime), u)
      ensures Progress() == Rank(cfg, old(pktToSend) - 1, cfg.maxBackoffs + 5)
    {
      ch.droppedPkts := ch.droppedPkts + 1;
      dropped := dropped + 1;
      DecreaseAndRepeat(u);
    }

    /** The slot boundary is reached: mark the channel busy and send one
        compensation later. */
    method OnSetChannelBusy(now: real)
      requires Valid() && SetChannelBusy in timers && timers[SetChannelBusy] == now
      modifies this`timers, ch`channelFree
      ensures Valid() && !Holds()
      ensures 0 <= Progress() < old(Progress())
      ensures !ch.channelFree
      ensures timers == map[SendMessage := now + Compensation]
    {
      SetChannelState(false);
      timers := (timers - {SetChannelBusy})[SendMessage := now + Compensation];
      assert SendMessage in timers;
    }

    /** Put the packet on the air: pay p_tx * D_p, count one more transmission
        in progress and one more transmitted packet, and release the channel
        after D_p. The packet itself leaves towards the sink. */
    method OnSendMessage(now: real)
      requires Valid() && SendMessage in timers && timers[SendMessage] == now
      modifies this`timers, ch`energy, ch`concurrentTx, ch`txPkts
      ensures Valid() && Holds()
      ensures 0 <= Progress() < old(Progress())
      ensures ch.energy == old(ch.energy) + cfg.pTx * cfg.dP
      ensures ch.concurrentTx == old(ch.concurrentTx) + 1
      ensures ch.txPkts == old(ch.txPkts) + 1
      ensures timers == map[SetChannelFree := now + cfg.dP]
    {
      ch.energy := ch.energy + cfg.pTx * cfg.dP;
      ch.concurrentTx := ch.concurrentTx + 1;
      ch.txPkts := ch.txPkts + 1;
      timers := (timers - {SendMessage})[SetChannelFree := now + cfg.dP];
      assert SetChannelFree in timers;
    }

    /** The transmission ends: mark the channel free; if no other
        transmission overlapped, add the packet's latency; decrement the
        counter one compensation later. */
    method OnSetChannelFree(now: real)
      requires Valid() && SetChannelFree in timers && timers[SetChannelFree] == now
      modifies this`timers, ch`channelFree, ch`latency
      ensures Valid() && Holds()
      ensures 0 <= Progress() < old(Progress())
      ensures ch.channelFree
      ensures ch.concurrentTx <= 1 ==> ch.latency == old(ch.latency) + (now - pktCreationTime)
      ensures ch.concurrentTx > 1 ==> ch.latency == old(ch.latency)
      ensures ch.latency >= old(ch.latency)
      ensures timers == map[DecreaseConcurrentTx := now + Compensation]
    {
      SetChannelState(true);
      if ch.concurrentTx <= 1 {
        var lat := now - pktCreationTime;
        ch.latency := ch.latency + lat;
      }
      timers := (timers - {SetChannelFree})[DecreaseConcurrentTx := now + Compensation];
      assert DecreaseConcurrentTx in timers;
    }

    /** The transmission is no longer in progress: decrement the counter and
        go on with the next packet. */
    method OnDecreaseConcurrentTx(now: real, u: real)
      requires Valid() && DecreaseConcurrentTx in timers && timers[DecreaseConcurrentTx] == now
      requires 0.0 <= u < 1.0
      modifies this, ch`concurrentTx
      ensures Valid() && !Holds()
      ensures 0 <= Progress() < old(Progress())
      ensures ch.concurrentTx == old(ch.concurrentTx) - 1
      ensures transmitted == old(transmitted) + 1 && dropped == old(dropped)
      ensures Repeated(old(pktToSend), old(pktCreationTime), u)
    {
      ch.concurrentTx := ch.concurrentTx - 1;
      transmitted := transmitted + 1;
      timers := timers - {DecreaseConcurrentTx};
      assert timers == map[];
      RankNext(cfg, pktToSend, 1);
      DecreaseAndRepeat(u);
    }

    /** handleMessage: dispatch a fired timer to its branch. A transmission
        is emitted exactly when the send timer fires; concurrent_tx moves by
        the change in the node's own contribution, so every decrement follows
        the node's own increment. Every event strictly lowers Progress(), so
        the node stops after finitely many events. */
    method Handle(kind: TimerKind, now: real, u: real) returns (sent: bool)
      requires Valid() && kind in timers && timers[kind] == now
      requires 0.0 <= u < 1.0
      modifies this, ch
      ensures Valid()
      ensures 0 <= Progress() < old(Progress())
      ensures sent <==> kind == SendMessage
      ensures ch.txPkts == old(ch.txPkts) + (if sent then 1 else 0)
      ensures ch.concurrentTx ==
        old(ch.concurrentTx) + (if Holds() then 1 else 0) - (if old(Holds()) then 1 else 0)
      ensures ch.droppedPkts == old(ch.droppedPkts) + (dropped - old(dropped))
      ensures dropped >= old(dropped)
      ensures ch.energy >= old(ch.energy)
      ensures ch.latency >= old(ch.latency)
    {
      sent := false;
      match kind {
        case BackoffExpired =>
          OnBackoffExpired(now, u);
        case SetChannelBusy =>
          OnSetChannelBusy(now);
        case SendMessage =>
          OnSendMessage(now);
          sent := true;
        case SetChannelFree =>
          OnSetChannelFree(now);
        case DecreaseConcurrentTx =>
          OnDecreaseConcurrentTx(now, u);
      }
    }

    /** The destructor: cancel every pending timer. */
    method Dispose()
      modifies this`timers
      ensures timers == map[]
    {
      timers := map[];
    }
  }
}
