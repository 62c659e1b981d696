/**
  The robot connection the processor drives. Only its interface is modelled: a `connected`
  flag that the environment may change at any time, and a ghost log of the calls made on it.
 */
module Reachy {

  /** One call made on the robot connection. */
  datatype SinkCall = ConnectCalled | AudioFed(b64Audio: string) | ListeningPoseSet

  class ReachyService {
    var connected: bool
    ghost var calls: seq<SinkCall>

    constructor (connected: bool)
      ensures this.connected == connected && calls == []
    {
      this.connected := connected;
      calls := [];
    }

    /** A connection attempt; whether it succeeds is decided by the environment. */
    method Connect(succeeds: bool)
      modifies this
      ensures connected == succeeds
      ensures calls == old(calls) + [ConnectCalled]
    {
      connected := succeeds;
      calls := calls + [ConnectCalled];
    }

    /** Hands one base64-encoded chunk to the head-wobble synthesizer. */
    method FeedAudio(b64Audio: string)
      modifies this
      ensures connected == old(connected)
      ensures calls == old(calls) + [AudioFed(b64Audio)]
    {
      calls := calls + [AudioFed(b64Audio)];
    }

    /** Moves the head to the listening pose. */
    method SetListeningPose()
      modifies this
      ensures connected == old(connected)
      ensures calls == old(calls) + [ListeningPoseSet]
    {
      calls := calls + [ListeningPoseSet];
    }
  }
}
