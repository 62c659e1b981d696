/** The items that flow through the pipeline tap, and the abstract digest of an audio chunk. */
module Frames {

  type Byte = bv8

  /** Raw PCM audio as it sits in an audio frame. */
  type Bytes = seq<Byte>

  /** A content fingerprint of a chunk; the processor uses an md5 hex digest. */
  type Digest = string

  /** The two directions a pipeline frame can travel. */
  datatype Direction = Downstream | Upstream

  /** The frame kinds the processor distinguishes; every other kind is `Other`. */
  datatype Frame =
    | BotStartedSpeaking
    | BotStoppedSpeaking
    | UserStartedSpeaking
    | AudioRaw(audio: Bytes)
    | Other(kind: string)
}
