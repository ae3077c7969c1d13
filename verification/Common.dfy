/** Small datatypes shared by every module of the model. */
module Common {

  datatype Option<+T> = None | Some(value: T)

  datatype Result<+T, +E> = Ok(value: T) | Err(error: E)

  /** The earlier of two numbers. */
  function Min(a: int, b: int): int {
    if a < b then a else b
  }

  /** The later of two numbers. */
  function Max(a: int, b: int): int {
    if a < b then b else a
  }
}

/** The transcript as it is stored on a call row and sent in the webhook. */
module Transcripts {

  datatype SpeakerSegment = SpeakerSegment(speaker: string, start: real, end: real, text: string)

  type Transcript = seq<SpeakerSegment>
}
