/**
  What one frame does to the wobbler processor's state and to the robot connection, stated as a
  relation between the state before and after, and the properties that follow for whole streams.
 */
module Turns {
  import opened Frames

  /** `hash_clear_interval`: newly fed chunks between two prune checkpoints. */
  const HashClearInterval: nat := 1000

  /** How many digests a prune keeps when the set has grown past it. */
  const RetainCeiling: nat := 100

  /**
    The processor's fields: `bot_is_speaking`, `seen_audio_hashes`, `frame_count`, `chunks_fed`.
   */
  datatype ProcessorState = ProcessorState(speaking: bool, seen: set<Digest>, frameCount: nat, chunksFed: nat)

  /** What one frame makes the processor do to the robot: nothing, one audio feed, or one pose command. */
  datatype Effect = Silent | Fed(chunk: Bytes) | ListeningPose

  /** One frame, its direction, and the robot connection's `connected` flag as the processor reads it. */
  datatype Input = Input(frame: Frame, direction: Direction, connected: bool)

  /** A freshly constructed processor. */
  const Initial: ProcessorState := ProcessorState(false, {}, 0, 0)

  /** The frames at which the digest set is emptied. */
  predicate ClearsSeen(f: Frame)
  {
    f.BotStartedSpeaking? || f.BotStoppedSpeaking? || f.UserStartedSpeaking?
  }

  /** The frames that end a speaking turn: the bot stops, or the user barges in. */
  predicate EndsTurn(f: Frame)
  {
    f.BotStoppedSpeaking? || f.UserStartedSpeaking?
  }

  /**
    `set(list(before)[-100:])`: a set iterates in an order the program cannot rely on, so all that
    is known of the result is that it keeps some 100 of the digests when there are more, and all
    of them otherwise.
   */
  predicate IsPruneOf(before: set<Digest>, after: set<Digest>)
  {
    if |before| > RetainCeiling then after <= before && |after| == RetainCeiling else after == before
  }

  /**
    One call of `process_frame`: from state `s`, input `i` may lead to state `s'` with effect `e`
    on the robot. The only freedom is which digests a prune keeps.
   */
  predicate Step(hash: Bytes -> Digest, s: ProcessorState, i: Input, s': ProcessorState, e: Effect)
  {
    match i.frame
    case BotStartedSpeaking =>
      s' == s.(speaking := true, seen := {}, chunksFed := 0) && e == Silent
    case BotStoppedSpeaking =>
      s' == s.(speaking := false, seen := {}) && e == (if i.connected then ListeningPose else Silent)
    case UserStartedSpeaking =>
      s' == s.(speaking := false, seen := {}) && e == (if i.connected then ListeningPose else Silent)
    case AudioRaw(audio) =>
      if i.direction == Downstream && s.speaking && i.connected && hash(audio) !in s.seen then
        var added := s.seen + {hash(audio)};
        && e == Fed(audio)
        && s'.speaking == s.speaking
        && s'.chunksFed == s.chunksFed + 1
        && if s.frameCount + 1 >= HashClearInterval
           then s'.frameCount == 0 && IsPruneOf(added, s'.seen)
           else s'.frameCount == s.frameCount + 1 && s'.seen == added
      else
        s' == s && e == Silent
    case Other(_) =>
      s' == s && e == Silent
  }

  /** `states[k]` is the state before `inputs[k]` and `effects[k]` what that input did. */
  predicate IsRun(hash: Bytes -> Digest, inputs: seq<Input>, states: seq<ProcessorState>, effects: seq<Effect>)
  {
    && |states| == |inputs| + 1
    && |effects| == |inputs|
    && forall k :: 0 <= k < |inputs| ==> Step(hash, states[k], inputs[k], states[k + 1], effects[k])
  }

  /** The memory bound on the digest set: the counter stays below the interval, and the set holds at
      most the retained digests plus one per chunk fed since the last checkpoint. */
  predicate Bounded(s: ProcessorState)
  {
    s.frameCount < HashClearInterval && |s.seen| <= RetainCeiling + s.frameCount
  }

  /** The step fed a chunk, reached the checkpoint and cut the digest set down. */
  predicate Cuts(hash: Bytes -> Digest, s: ProcessorState, e: Effect)
  {
    e.Fed? && s.frameCount + 1 >= HashClearInterval && |s.seen + {hash(e.chunk)}| > RetainCeiling
  }

  /** Whether the bot counts as speaking after `inputs`: decided by the latest speech frame. */
  function SpeakingAfter(speaking: bool, inputs: seq<Input>): bool
  {
    if inputs == [] then speaking
    else match inputs[|inputs| - 1].frame
      case BotStartedSpeaking => true
      case BotStoppedSpeaking => false
      case UserStartedSpeaking => false
      case _ => SpeakingAfter(speaking, inputs[..|inputs| - 1])
  }

  /** The number of feeds among `effects`. */
  function FedCount(effects: seq<Effect>): nat
  {
    if effects == [] then 0
    else FedCount(effects[..|effects| - 1]) + (if effects[|effects| - 1].Fed? then 1 else 0)
  }

  /** The digests of the chunks fed among `effects`. */
  function FedDigests(hash: Bytes -> Digest, effects: seq<Effect>): set<Digest>
  {
    if effects == [] then {}
    else
      var last := effects[|effects| - 1];
      FedDigests(hash, effects[..|effects| - 1]) + (if last.Fed? then {hash(last.chunk)} else {})
  }

  // ---------------------------------------------------------------------------------------------
  // One frame

  /** Every frame keeps the memory bound, and a checkpoint leaves at most the retained digests. */
  lemma StepKeepsBound(hash: Bytes -> Digest, s: ProcessorState, i: Input, s': ProcessorState, e: Effect)
    requires Bounded(s) && Step(hash, s, i, s', e)
    ensures Bounded(s')
    ensures |s'.seen| < RetainCeiling + HashClearInterval
    ensures e.Fed? && s.frameCount + 1 == HashClearInterval ==> s'.frameCount == 0 && |s'.seen| <= RetainCeiling
  {
  }

  /** A chunk is fed exactly when it is downstream audio, the bot is speaking, the robot is
      connected and its digest is new; the frame is then fed as it is and counted. Any other frame
      that is not a speech frame changes nothing. */
  lemma FeedOnlyForNewAudioWhileSpeaking(hash: Bytes -> Digest, s: ProcessorState, i: Input, s': ProcessorState, e: Effect)
    requires Step(hash, s, i, s', e)
    ensures e.Fed? <==>
      i.frame.AudioRaw? && i.direction == Downstream && s.speaking && i.connected && hash(i.frame.audio) !in s.seen
    ensures e.Fed? ==> e.chunk == i.frame.audio && s'.speaking && s'.chunksFed == s.chunksFed + 1
    ensures e.Fed? && s.frameCount + 1 < HashClearInterval ==>
      s'.frameCount == s.frameCount + 1 && s'.seen == s.seen + {hash(e.chunk)}
    ensures e.Fed? && s.frameCount + 1 >= HashClearInterval ==>
      s'.frameCount == 0 && IsPruneOf(s.seen + {hash(e.chunk)}, s'.seen)
    ensures !e.Fed? && !ClearsSeen(i.frame) ==> s' == s && e == Silent
  {
  }

  /** Speech frames move the speaking flag, empty the digest set and leave the checkpoint counter
      alone; the listening pose is commanded exactly at a turn end with the robot connected. */
  lemma SpeechFramesDelimitTurns(hash: Bytes -> Digest, s: ProcessorState, i: Input, s': ProcessorState, e: Effect)
    requires Step(hash, s, i, s', e)
    ensures ClearsSeen(i.frame) ==>
      s'.seen == {} && s'.speaking == i.frame.BotStartedSpeaking? && s'.frameCount == s.frameCount && !e.Fed?
    ensures i.frame.BotStartedSpeaking? ==> s'.chunksFed == 0
    ensures EndsTurn(i.frame) ==> s'.chunksFed == s.chunksFed
    ensures e == ListeningPose <==> EndsTurn(i.frame) && i.connected
  {
  }

  /** Within a turn and away from a cutting checkpoint, digests are only ever added. */
  lemma SeenOnlyGrowsWithinTurn(hash: Bytes -> Digest, s: ProcessorState, i: Input, s': ProcessorState, e: Effect)
    requires Step(hash, s, i, s', e)
    requires !ClearsSeen(i.frame) && !Cuts(hash, s, e)
    ensures s.seen <= s'.seen
    ensures e.Fed? ==> hash(e.chunk) in s'.seen
  {
  }

  // ---------------------------------------------------------------------------------------------
  // Streams of frames

  /** The memory bound holds after every frame of a stream that starts within it. */
  lemma {:induction false} RunKeepsBound(hash: Bytes -> Digest, inputs: seq<Input>, states: seq<ProcessorState>,
                                         effects: seq<Effect>, n: nat)
    requires IsRun(hash, inputs, states, effects) && Bounded(states[0]) && n < |states|
    ensures Bounded(states[n]) && |states[n].seen| < RetainCeiling + HashClearInterval
  {
    if n > 0 {
      RunKeepsBound(hash, inputs, states, effects, n - 1);
      StepKeepsBound(hash, states[n - 1], inputs[n - 1], states[n], effects[n - 1]);
    }
  }

  /** The speaking flag after a stream is the one its latest speech frame set. */
  lemma {:induction false} SpeakingFollowsLastSpeechFrame(hash: Bytes -> Digest, inputs: seq<Input>,
                                                          states: seq<ProcessorState>, effects: seq<Effect>, n: nat)
    requires IsRun(hash, inputs, states, effects) && n <= |inputs|
    ensures states[n].speaking == SpeakingAfter(states[0].speaking, inputs[..n])
  {
    if n > 0 {
      SpeakingFollowsLastSpeechFrame(hash, inputs, states, effects, n - 1);
      assert inputs[..n][..n - 1] == inputs[..n - 1];
    }
  }

  /** Idle suppression: once the bot is not speaking, nothing is fed until a bot-started frame. */
  lemma {:induction false} IdleUntilStarted(hash: Bytes -> Digest, inputs: seq<Input>, states: seq<ProcessorState>,
                                            effects: seq<Effect>, a: nat, b: nat)
    requires IsRun(hash, inputs, states, effects) && a <= b < |inputs|
    requires !states[a].speaking
    requires forall m :: a <= m <= b ==> !inputs[m].frame.BotStartedSpeaking?
    ensures !effects[b].Fed? && !states[b + 1].speaking
  {
    if a < b {
      IdleUntilStarted(hash, inputs, states, effects, a, b - 1);
    }
    assert Step(hash, states[b], inputs[b], states[b + 1], effects[b]);
  }

  /** After the bot stops or the user barges in, no chunk reaches the robot before the bot starts
      speaking again. */
  lemma NoFeedAfterTurnEnd(hash: Bytes -> Digest, inputs: seq<Input>, states: seq<ProcessorState>,
                           effects: seq<Effect>, k: nat, j: nat)
    requires IsRun(hash, inputs, states, effects) && k < j < |inputs|
    requires EndsTurn(inputs[k].frame)
    requires forall m :: k < m <= j ==> !inputs[m].frame.BotStartedSpeaking?
    ensures !effects[j].Fed?
  {
    IdleUntilStarted(hash, inputs, states, effects, k + 1, j);
  }

  /** Digests recorded in a stretch with no speech frame and no cutting checkpoint stay recorded. */
  lemma {:induction false} SeenKeptBetween(hash: Bytes -> Digest, inputs: seq<Input>, states: seq<ProcessorState>,
                                           effects: seq<Effect>, a: nat, b: nat)
    requires IsRun(hash, inputs, states, effects) && a <= b <= |inputs|
    requires forall k :: a <= k < b ==> !ClearsSeen(inputs[k].frame) && !Cuts(hash, states[k], effects[k])
    ensures states[a].seen <= states[b].seen
  {
    if a < b {
      SeenKeptBetween(hash, inputs, states, effects, a, b - 1);
      SeenOnlyGrowsWithinTurn(hash, states[b - 1], inputs[b - 1], states[b], effects[b - 1]);
    }
  }

  /** No digest is fed twice within a turn, unless a checkpoint cut the digest set in between
      (which may evict the earlier digest). */
  lemma NoRepeatFeedWithinTurn(hash: Bytes -> Digest, inputs: seq<Input>, states: seq<ProcessorState>,
                               effects: seq<Effect>, i: nat, j: nat)
    requires IsRun(hash, inputs, states, effects) && i < j < |inputs|
    requires effects[i].Fed? && effects[j].Fed?
    requires forall k :: i <= k < j ==> !ClearsSeen(inputs[k].frame) && !Cuts(hash, states[k], effects[k])
    ensures hash(effects[i].chunk) != hash(effects[j].chunk)
  {
    SeenOnlyGrowsWithinTurn(hash, states[i], inputs[i], states[i + 1], effects[i]);
    SeenKeptBetween(hash, inputs, states, effects, i + 1, j);
    FeedOnlyForNewAudioWhileSpeaking(hash, states[j], inputs[j], states[j + 1], effects[j]);
  }

  /** `chunks_fed` counts the chunks fed since the latest bot-started frame. */
  lemma {:induction false} ChunksFedCountsTurnFeeds(hash: Bytes -> Digest, inputs: seq<Input>,
                                                    states: seq<ProcessorState>, effects: seq<Effect>, k: nat, n: nat)
    requires IsRun(hash, inputs, states, effects) && k < n <= |inputs|
    requires inputs[k].frame.BotStartedSpeaking?
    requires forall m :: k < m < n ==> !inputs[m].frame.BotStartedSpeaking?
    ensures states[n].chunksFed == FedCount(effects[k + 1..n])
  {
    if n > k + 1 {
      ChunksFedCountsTurnFeeds(hash, inputs, states, effects, k, n - 1);
      assert effects[k + 1..n][..n - k - 2] == effects[k + 1..n - 1];
    }
  }

  /** The digest set after a speech frame holds only digests of chunks fed since that frame. */
  lemma {:induction false} SeenOnlyFedSinceClear(hash: Bytes -> Digest, inputs: seq<Input>,
                                                 states: seq<ProcessorState>, effects: seq<Effect>, k: nat, j: nat)
    requires IsRun(hash, inputs, states, effects) && k < j <= |inputs|
    requires ClearsSeen(inputs[k].frame)
    requires forall m :: k < m < j ==> !ClearsSeen(inputs[m].frame)
    ensures states[j].seen <= FedDigests(hash, effects[k + 1..j])
  {
    if j == k + 1 {
      assert Step(hash, states[k], inputs[k], states[k + 1], effects[k]);
    } else {
      SeenOnlyFedSinceClear(hash, inputs, states, effects, k, j - 1);
      assert Step(hash, states[j - 1], inputs[j - 1], states[j], effects[j - 1]);
      assert effects[k + 1..j][..j - k - 2] == effects[k + 1..j - 1];
    }
  }

  /** From a bot-started frame until the next speech frame, the bot counts as speaking. */
  lemma {:induction false} SpeakingThroughTurn(hash: Bytes -> Digest, inputs: seq<Input>,
                                               states: seq<ProcessorState>, effects: seq<Effect>, k: nat, j: nat)
    requires IsRun(hash, inputs, states, effects) && k < j <= |inputs|
    requires inputs[k].frame.BotStartedSpeaking?
    requires forall m :: k < m < j ==> !ClearsSeen(inputs[m].frame)
    ensures states[j].speaking
  {
    if j > k + 1 {
      SpeakingThroughTurn(hash, inputs, states, effects, k, j - 1);
    }
    assert Step(hash, states[j - 1], inputs[j - 1], states[j], effects[j - 1]);
  }

  /** Turn isolation and the other half of deduplication: within a turn, a downstream chunk whose
      digest has not been fed since the bot started speaking is fed while the robot is connected,
      even when the same digest was fed in an earlier turn. */
  lemma FirstOfDigestInTurnIsFed(hash: Bytes -> Digest, inputs: seq<Input>, states: seq<ProcessorState>,
                                 effects: seq<Effect>, k: nat, j: nat, chunk: Bytes)
    requires IsRun(hash, inputs, states, effects) && k < j < |inputs|
    requires inputs[k].frame.BotStartedSpeaking?
    requires forall m :: k < m < j ==> !ClearsSeen(inputs[m].frame)
    requires inputs[j] == Input(AudioRaw(chunk), Downstream, true)
    requires hash(chunk) !in FedDigests(hash, effects[k + 1..j])
    ensures effects[j] == Fed(chunk)
  {
    SeenOnlyFedSinceClear(hash, inputs, states, effects, k, j);
    SpeakingThroughTurn(hash, inputs, states, effects, k, j);
    assert Step(hash, states[j], inputs[j], states[j + 1], effects[j]);
  }
}
