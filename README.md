# Reachy wobbler processor — a Dafny model

This project models `ReachyWobblerProcessor`. In the Reachy Mini voice agent it is the pipeline
stage between text-to-speech and the transport output. It watches every frame that passes, and it
feeds the bot's outgoing speech audio to the robot's head-wobble synthesizer, so the head moves
while the robot speaks. It does four things:

- It keeps a speaking flag. Bot-started frames set it. Bot-stopped and user-started (barge-in)
  frames clear it.
- It forwards downstream audio chunks to the robot only while the bot speaks and the robot is
  connected.
- It drops chunks whose md5 digest it has already seen in the current turn.
- It bounds the digest set with a checkpoint counter.

Every frame is pushed on unchanged.

Files:

- `frames.dfy` (module `Frames`): frames, directions, bytes and digests.
- `reachy_service.dfy` (module `Reachy`): the robot connection, `ReachyService`, as an interface.
  It has a `connected` flag that the environment may change, `Connect`, `FeedAudio` and
  `SetListeningPose`. A ghost log records every call.
- `turns.dfy` (module `Turns`): the state of the processor as a value, and `Step`, the relation
  saying what one frame does to that state and to the robot. It also holds runs (streams of frames)
  and the lemmas about single frames and whole streams.
- `processor.dfy` (module `Processor`): the class `ReachyWobblerProcessor` with its fields, the
  constructor, `ResetState` and `ProcessFrame`. `ProcessFrame` is proved to follow `Step`. This
  module also holds the prune (`set(list(s)[-100:])`) and the example turn
  `[BotStarted, A, A, B, BotStopped, A]`, checked against the robot's call log.

The md5 digest and the base64 encoding are function-typed parameters of the constructor. Nothing
is assumed about them: deduplication is stated per digest.

Facts about the code that the model keeps:

- The comment at `bot/services/processor.py:90` says the prune keeps the most recent hashes.
  The prune at line 92 does not do that: it keeps the last 100 of `list(set)`, and a Python set
  has no insertion order. `IsPruneOf` therefore says only "some 100 of them".
- `reset_state` leaves `chunks_fed` alone.
- A bot-started frame does not reset `frame_count`.
- The calls on the robot connection are not wrapped in an error handler at the call site.

## Model

| member | source | states |
|---|---|---|
| `Processor.ReachyWobblerProcessor.constructor` | bot/services/processor.py:15-37 | If the robot is not yet connected, `connect` is called exactly once and the outcome is recorded. If it is already connected, nothing is called. The processor starts idle, with no digests and both counters at zero, inside the memory bound. |
| `Processor.ReachyWobblerProcessor.ResetState` | bot/services/processor.py:39-43 | The speaking flag is cleared, the digest set is emptied and the checkpoint counter is zeroed. `chunks_fed` and the pushed frames are kept. The memory bound holds afterwards. |
| `Processor.ReachyWobblerProcessor.ProcessFrame` | bot/services/processor.py:45-95 | The old and new state are related by `Step` for this frame, direction and connection flag. The robot receives exactly the calls of the returned effect: none, one base64 feed of the frame's audio, or one listening pose. The memory bound is preserved, and the frame is pushed on exactly once, unchanged and with its direction. |
| `Processor.ListOf` | bot/services/processor.py:92 | Lists every digest of the set exactly once, in an order nothing may rely on. |
| `Processor.Prune` | bot/services/processor.py:91-92 | Keeps the last 100 digests of that listing. With more than 100 digests, the result is a subset of exactly 100. Otherwise it is the whole set. |
| `Processor.DistinctElementCount` | bot/services/processor.py:92 | A listing without repeats has as many distinct digests as entries. So the kept tail of 100 entries is a set of 100 digests. |
| `Reachy.ReachyService.Connect` | bot/services/processor.py:21 | Records one connect call. The `connected` flag becomes the outcome the environment chose. |
| `Reachy.ReachyService.FeedAudio` | bot/services/processor.py:80 | Records one feed of the given base64 text. The connection flag is unchanged. |
| `Reachy.ReachyService.SetListeningPose` | bot/services/processor.py:59 | Records one listening-pose call. The connection flag is unchanged. |
| `Turns.StepKeepsBound` | bot/services/processor.py:87-93 | Every frame keeps `frame_count < 1000` and `\|seen\| <= 100 + frame_count`, so the set never reaches 1100 digests. A feed that reaches the checkpoint leaves the counter at 0 and at most 100 digests. |
| `Turns.RunKeepsBound` | bot/services/processor.py:87-93 | The memory bound holds after every frame of a stream that starts within it, whatever the frames and whatever digests the prunes keep. |
| `Turns.FeedOnlyForNewAudioWhileSpeaking` | bot/services/processor.py:69-81 | A chunk is fed if and only if the frame is downstream audio, the bot is speaking, the robot is connected and the chunk's digest is not in the set. A fed chunk is the frame's own audio, and `chunks_fed` grows by one. Below the checkpoint, `frame_count` grows by one and the digest joins the set. At the checkpoint (the 1000th feed), `frame_count` returns to 0 and the set, with the new digest, is pruned. Any other frame that is not a speech frame changes no state and makes no call. |
| `Turns.SpeechFramesDelimitTurns` | bot/services/processor.py:48-66 | A bot-started, bot-stopped or user-started frame empties the digest set, sets the speaking flag true only for bot-started, leaves `frame_count` alone and feeds nothing. Bot-started zeroes `chunks_fed`; the turn ends keep it. The listening pose is commanded if and only if the frame ends a turn and the robot is connected. |
| `Turns.SeenOnlyGrowsWithinTurn` | bot/services/processor.py:74-93 | A frame that is neither a speech frame nor a cutting checkpoint only adds digests, and a fed chunk's digest is then in the set. |
| `Turns.SeenKeptBetween` | bot/services/processor.py:74-93 | Over a stretch of a stream with no speech frame and no cutting checkpoint, no digest leaves the set. |
| `Turns.NoRepeatFeedWithinTurn` | bot/services/processor.py:72-93 | Two feeds in one turn with no cutting checkpoint between them carry different digests. |
| `Turns.IdleUntilStarted` | bot/services/processor.py:68-70 | Once the bot is not speaking, no chunk is fed and the flag stays clear until a bot-started frame. This covers a freshly constructed processor. |
| `Turns.NoFeedAfterTurnEnd` | bot/services/processor.py:55-70 | After a bot-stopped or user-started frame, no chunk reaches the robot before the next bot-started frame. |
| `Turns.SpeakingFollowsLastSpeechFrame` | bot/services/processor.py:48-66 | After any stream, the speaking flag is the one set by the latest speech frame, or the initial one if there was none. `SpeakingAfter` is the reference definition. |
| `Turns.SeenOnlyFedSinceClear` | bot/services/processor.py:49-93 | After a speech frame, and before the next one, the digest set holds only digests of chunks fed since that frame. |
| `Turns.SpeakingThroughTurn` | bot/services/processor.py:48-70 | From a bot-started frame until the next speech frame, the bot counts as speaking. |
| `Turns.FirstOfDigestInTurnIsFed` | bot/services/processor.py:49-81 | Turn isolation, and the other half of deduplication: after a bot-started frame, with no speech frame since, a downstream chunk arriving while the robot is connected is fed if its digest has not been fed since the bot started. This holds even if the same digest was fed in an earlier turn. |
| `Turns.ChunksFedCountsTurnFeeds` | bot/services/processor.py:49-81 | `chunks_fed` equals the number of chunks fed since the latest bot-started frame. |

## Left out

- `ReachyService` internals are not part of this model. Its source is not among the files, and
  the processor reaches it as a singleton (`ReachyService.get_instance()`). Here the constructor
  receives it as a reference, and its calls only append to a ghost log. What `connect`,
  `feed_audio` and `set_listening_pose` do on the robot, and whether they can raise, is outside
  the model.
- The model assumes that `FeedAudio` and `SetListeningPose` leave the `connected` flag unchanged.
  `ProcessFrame`'s promise that the flag is unchanged rests on this. The service's code is not
  part of this model, so this is an assumption about it, not something proved.
- md5 and base64 are parameters, not implementations. Digest collisions are not considered:
  deduplication is stated per digest.
- Logging, `async`/`await` and the `super().process_frame` call are left out. None of them changes
  the modelled state.
- The order in which a Python set iterates is not modelled. A prune may keep any 100 digests.
- `Turns.NoRepeatFeedWithinTurn` exempts stretches that contain a cutting checkpoint. The code
  can feed a digest a second time in one turn after a prune has evicted it, so "at most once per
  turn" holds only between cuts.
- `bot/main.py`, `bot/server.py`, `scripts/conversation-app-wrapper.py` and
  `config/jupyter_config.py` are not part of this model. They are pipeline assembly, transport
  configuration and application glue over external services. The `wobbler.reset()` calls in
  `bot/main.py` act on the robot service's own wobbler, not on this processor.
