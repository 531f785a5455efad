/** The registers that all sensor nodes and the sink share: parameters of
    the SourceSink compound module, which each node and the sink look up by
    path in the simulator. */
module SharedChannel {

  class Channel {
    /** Whether the last node to hold the channel has released it. */
    var channelFree: bool
    /** Number of transmissions currently in progress. */
    var concurrentTx: int
    /** Packets abandoned after too many busy CCAs. */
    var droppedPkts: int
    /** Packets put on the air. */
    var txPkts: int
    /** Sum of the latencies of packets that completed without overlap. */
    var latency: real
    /** Sum of the energy spent sensing and transmitting. */
    var energy: real

    /** An idle channel with every counter and accumulator at zero. */
    constructor ()
      ensures channelFree && concurrentTx == 0
      ensures droppedPkts == 0 && txPkts == 0
      ensures latency == 0.0 && energy == 0.0
    {
      channelFree := true;
      concurrentTx := 0;
      droppedPkts := 0;
      txPkts := 0;
      latency := 0.0;
      energy := 0.0;
    }
  }
}
