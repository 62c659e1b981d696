/**
  `ReachyWobblerProcessor`: the pipeline tap between text-to-speech and the transport output that
  feeds the bot's outgoing speech audio to the robot's head-wobble synthesizer.
 */
module Processor {
  import opened Frames
  import opened Turns
  import opened Reachy

  /** No digest occurs twice in `xs`. */
  predicate Distinct(xs: seq<Digest>)
  {
    forall i, j :: 0 <= i < j < |xs| ==> xs[i] != xs[j]
  }

  /** A sequence without repeats has as many distinct elements as it has entries. */
  lemma {:induction false} DistinctElementCount(xs: seq<Digest>)
    requires Distinct(xs)
    ensures |set x | x in xs| == |xs|
  {
    if xs != [] {
      var rest := xs[1..];
      assert Distinct(rest) by {
        forall i, j | 0 <= i < j < |rest| ensures rest[i] != rest[j] {
          assert rest[i] == xs[i + 1] && rest[j] == xs[j + 1];
        }
      }
      DistinctElementCount(rest);
      assert (set x | x in xs) == (set x | x in rest) + {xs[0]};
      assert xs[0] !in (set x | x in rest) by {
        forall k | 0 <= k < |rest| ensures rest[k] != xs[0] {
          assert rest[k] == xs[k + 1];
        }
      }
    }
  }

  /** `list(hashes)`: the digests of the set, each once, in an order nothing may rely on. */
  method ListOf(hashes: set<Digest>) returns (xs: seq<Digest>)
    ensures Distinct(xs) && |xs| == |hashes|
    ensures forall x :: x in xs <==> x in hashes
  {
    xs := [];
    var rest := hashes;
    while rest != {}
      invariant rest <= hashes
      invariant Distinct(xs)
      invariant forall x :: x in xs <==> x in hashes && x !in rest
      invariant |xs| + |rest| == |hashes|
      decreases |rest|
    {
      var x :| x in rest;
      xs := xs + [x];
      rest := rest - {x};
    }
  }

  /** `set(list(hashes)[-100:])`: keeps the last 100 digests of the listing, or all of them when
      there are no more than 100. */
  method Prune(hashes: set<Digest>) returns (kept: set<Digest>)
    ensures IsPruneOf(hashes, kept)
  {
    var xs := ListOf(hashes);
    var tail := if |xs| > RetainCeiling then xs[|xs| - RetainCeiling..] else xs;
    assert Distinct(tail) by {
      forall i, j | 0 <= i < j < |tail| ensures tail[i] != tail[j] {
        assert tail[i] == xs[|xs| - |tail| + i] && tail[j] == xs[|xs| - |tail| + j];
      }
    }
    DistinctElementCount(tail);
    kept := set x | x in tail;
    assert |xs| <= RetainCeiling ==> kept == hashes;
  }

  /** The calls one effect makes on the robot connection; feeds travel base64-encoded. */
  function SinkCallsOf(e: Effect, b64encode: Bytes -> string): seq<SinkCall>
  {
    match e
    case Silent => []
    case Fed(chunk) => [AudioFed(b64encode(chunk))]
    case ListeningPose => [ListeningPoseSet]
  }

  class ReachyWobblerProcessor {
    /** The robot connection, shared with the rest of the application. */
    const service: ReachyService
    /** The digest of a chunk (md5 hex digest). */
    const md5: Bytes -> Digest
    /** The text form of a chunk handed to the robot (base64). */
    const b64encode: Bytes -> string

    var botIsSpeaking: bool
    var seenAudioHashes: set<Digest>
    var frameCount: nat
    var chunksFed: nat

    /** Every frame pushed on to the next pipeline stage, with its direction. */
    ghost var pushed: seq<(Frame, Direction)>

    function State(): ProcessorState
      reads this
    {
      ProcessorState(botIsSpeaking, seenAudioHashes, frameCount, chunksFed)
    }

    ghost predicate Valid()
      reads this
    {
      Bounded(State())
    }

    /** Connects the robot if it is not connected yet (once, whatever the outcome), and starts idle
        with no digests and zero counters. */
    constructor (service: ReachyService, md5: Bytes -> Digest, b64encode: Bytes -> string, connectSucceeds: bool)
      modifies service
      ensures this.service == service && this.md5 == md5 && this.b64encode == b64encode
      ensures old(service.connected) ==> service.connected && service.calls == old(service.calls)
      ensures !old(service.connected) ==>
        service.connected == connectSucceeds && service.calls == old(service.calls) + [ConnectCalled]
      ensures State() == Initial && pushed == []
      ensures Valid()
    {
      this.service := service;
      this.md5 := md5;
      this.b64encode := b64encode;
      new;
      if !service.connected {
        service.Connect(connectSucceeds);
      }
      botIsSpeaking := false;
      seenAudioHashes := {};
      frameCount := 0;
      chunksFed := 0;
      pushed := [];
    }

    /** `reset_state`: idle, no digests, checkpoint counter at zero; `chunks_fed` is kept. */
    method ResetState()
      modifies this
      ensures State() == old(State()).(speaking := false, seen := {}, frameCount := 0)
      ensures pushed == old(pushed)
      ensures Valid()
    {
      botIsSpeaking := false;
      seenAudioHashes := {};
      frameCount := 0;
    }

    /**
      `process_frame`: updates the speaking state, feeds new downstream speech audio to the robot,
      and pushes the frame on unchanged. The returned effect names the one call (if any) made on
      the robot connection.
     */
    method ProcessFrame(frame: Frame, direction: Direction) returns (ghost effect: Effect)
      requires Valid()
      modifies this, service
      ensures Valid()
      ensures Step(md5, old(State()), Input(frame, direction, old(service.connected)), State(), effect)
      ensures service.connected == old(service.connected)
      ensures service.calls == old(service.calls) + SinkCallsOf(effect, b64encode)
      ensures pushed == old(pushed) + [(frame, direction)]
    {
      effect := Silent;
      match frame {
      case BotStartedSpeaking =>
        botIsSpeaking := true;
        seenAudioHashes := {};
        chunksFed := 0;
      case BotStoppedSpeaking =>
        botIsSpeaking := false;
        if service.connected {
          service.SetListeningPose();
          effect := ListeningPose;
        }
        seenAudioHashes := {};
      case UserStartedSpeaking =>
        botIsSpeaking := false;
        if service.connected {
          service.SetListeningPose();
          effect := ListeningPose;
        }
        seenAudioHashes := {};
      case AudioRaw(audio) =>
        if direction == Downstream && botIsSpeaking && service.connected {
          var audioHash := md5(audio);
          if audioHash !in seenAudioHashes {
            seenAudioHashes := seenAudioHashes + {audioHash};
            service.FeedAudio(b64encode(audio));
            effect := Fed(audio);
            chunksFed := chunksFed + 1;
            frameCount := frameCount + 1;
            if frameCount >= HashClearInterval {
              if |seenAudioHashes| > RetainCeiling {
                seenAudioHashes := Prune(seenAudioHashes);
              }
              frameCount := 0;
            }
          }
        }
      case Other(_) =>
      }
      pushed := pushed + [(frame, direction)];
    }
  }

  /** The speaking turn `[BotStarted, A, A, B, BotStopped, A]` with the robot connected: A and B
      are fed once each, nothing after the stop, one listening pose, and every frame passes through. */
  method SpeakingTurnScenario(md5: Bytes -> Digest, b64encode: Bytes -> string, a: Bytes, b: Bytes)
    requires md5(a) != md5(b)
  {
    var robot := new ReachyService(true);
    var tap := new ReachyWobblerProcessor(robot, md5, b64encode, true);
    ghost var e;
    e := tap.ProcessFrame(BotStartedSpeaking, Downstream);
    e := tap.ProcessFrame(AudioRaw(a), Downstream);
    e := tap.ProcessFrame(AudioRaw(a), Downstream);
    e := tap.ProcessFrame(AudioRaw(b), Downstream);
    e := tap.ProcessFrame(BotStoppedSpeaking, Downstream);
    e := tap.ProcessFrame(AudioRaw(a), Downstream);
    assert robot.calls == [AudioFed(b64encode(a)), AudioFed(b64encode(b)), ListeningPoseSet];
    assert tap.pushed == [(BotStartedSpeaking, Downstream), (AudioRaw(a), Downstream), (AudioRaw(a), Downstream),
                          (AudioRaw(b), Downstream), (BotStoppedSpeaking, Downstream), (AudioRaw(a), Downstream)];
  }
}
