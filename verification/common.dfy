/**
 Values shared by the transcription bridge: optional values, results of
 operations that can raise, the errors the bridge raises, and the audio chunk
 delivered by the local event transport.
 */
module Common {

  datatype Option<+T> = None | Some(value: T)

  /** The outcome of an operation that either returns a value or raises. */
  datatype Result<+T, +E> = Ok(value: T) | Err(error: E)

  /** One unit of audio as delivered by the event transport. `seconds` is the
      duration the transport derives from the payload length and format. */
  datatype Chunk = Chunk(rate: int, width: int, channels: int, audio: seq<bv8>, seconds: real)

  /** Every way one transcription, or the handler around it, can fail. */
  datatype Error =
    | MissingApiKey                          // no API key in the environment
    | EmptyUtterance                         // the transcriber was handed no chunk
    | LimitReached                           // negotiation answered without a url
    | MissingField(name: string)             // a reply lacked a field it indexed
    | NoTranscript(sessionId: string)        // nothing was recorded for the session
    | AudioStopWithoutAudio                  // end of utterance with an empty buffer
}
