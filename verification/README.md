# wyomingia, modelled in Dafny

wyomingia is a bridge between the Wyoming speech protocol and the Gladia
real-time transcription service. Each client connection gets an event handler.
The handler buffers the audio chunks of an utterance and remembers the language
to transcribe in. At the end of the audio it hands the utterance to a
transcriber and writes the transcript back. The transcriber does four things.
It reads its API key and custom vocabulary from the environment. It posts a
session configuration to the provisioning endpoint. It streams the audio over a
websocket, paced to real time. It reads the final transcript that the service
sends back into a result table shared by all transcribers, then pops it out.

The model has five modules:

- `Common`: options, results, the audio chunk and the errors the bridge raises.
- `Vocabulary`: the comma-separated custom vocabulary, split and filtered.
- `Negotiation`: the settings, the session configuration (a datatype, not
  JSON) and the classification of the provisioning reply.
- `Relay`: the paced sender (a loop that returns the frames it would send),
  the receiver (a loop that folds inbound messages into the result table),
  the pop of the session's entry, and one whole transcription.
- `Handler`: the per-connection state machine.
  - `Step` is a specification function that says what one event does.
  - `EventHandler` is a class whose `HandleEvent` method updates the buffer,
    the language and the log of written events in place. It is proved to
    agree with `Step`.
  - `Run` describes a connection that hands events to the handler until it
    asks to stop or raises. The lemmas about `Run` describe whole utterances.

Networking and time appear only as data:

- the provisioning reply is a `map<string, string>`;
- the time each websocket send took is a given `real` per chunk;
- inbound websocket messages are records whose fields may be absent;
- the shared result table is a map passed in and returned.

Exceptions are `Err` values.

Facts the proofs establish:

- A final transcript is popped exactly once. Nothing else in the table changes.
- One quirk of the receiver is made explicit (`Relay.FailedReadKeepsEntry`).
  Suppose an unreadable message arrives after a final transcript. The receiver
  then raises, the transcription fails, and the transcript stays in the
  shared table under its session id. Nothing removes it later.

## Model

| member | source | states |
|---|---|---|
| Vocabulary.Fields | wyomingia/transcriber.py:31 | splitting yields at least one field, and no field holds a comma |
| Vocabulary.JoinFields | wyomingia/transcriber.py:31 | splitting loses nothing: joining the fields with commas gives the input back |
| Vocabulary.NonEmpty | wyomingia/transcriber.py:30-32 | the filter keeps exactly the non-empty words: each kept word is non-empty and comes from the input, and no non-empty word is lost |
| Vocabulary.ParseVocabulary | wyomingia/transcriber.py:30-32 | no vocabulary word is empty or holds a comma; an absent or empty variable gives no words |
| Vocabulary.NonEmptyAppend | wyomingia/transcriber.py:30-32 | the filter distributes over concatenation, so it keeps the input's order and repeated words and drops only empty ones |
| Vocabulary.ParseJoin | wyomingia/transcriber.py:30-32 | comma-free words, empty ones included, written comma-separated are read back as those words without the empty ones, in order; every value is the join of its own fields, so this covers every input |
| Vocabulary.ParseJoinClean | wyomingia/transcriber.py:30-32 | non-empty, comma-free words written comma-separated are read back exactly, in order |
| Vocabulary.ParseEmpty | wyomingia/transcriber.py:30-33 | the vocabulary is empty exactly when the variable is absent or holds only commas |
| Negotiation.NewSettings | wyomingia/transcriber.py:23-32 | construction fails exactly when the API key is absent; otherwise it keeps the key and the vocabulary parsed from the variable |
| Negotiation.BuildConfig | wyomingia/transcriber.py:81-95 | the language list is exactly the one language; rate and channels are passed through; bit depth is 8 times the width; acknowledgments and partials are off; the vocabulary block is present iff the vocabulary is non-empty and then carries it |
| Negotiation.ClassifyResponse | wyomingia/transcriber.py:103-107 | a reply with `url` and `id` names the session; a reply without `url` is the limit-reached error; a `url` without `id` is the missing-key error |
| Negotiation.VocabularyBlockIffConfigured | wyomingia/transcriber.py:30-33 | the posted configuration lacks the vocabulary block exactly when the variable is absent or only commas |
| Negotiation.ConfiguredVocabularySent | wyomingia/transcriber.py:91-95 | a vocabulary written into the environment reaches the configuration word for word |
| Relay.PacingDelay | wyomingia/transcriber.py:58-64 | the sleep is never negative; send time plus sleep reaches the chunk's duration, exactly when the send was faster and with no sleep otherwise |
| Relay.PacingKeepsRealTime | wyomingia/transcriber.py:57-64 | with every sleep chosen by the pacing rule, the sender takes at least the utterance's duration |
| Relay.Produce | wyomingia/transcriber.py:51-66 | the frames are the chunk payloads in order, followed by exactly one stop-recording frame; each delay follows the pacing rule; the total time is at least the audio's duration |
| Relay.ReadablePrefix | wyomingia/transcriber.py:71-75 | the receiver reads every message before the first one with a missing key, and stops at that one |
| Relay.LastTranscript | wyomingia/transcriber.py:74-75 | there is a text iff some message is a final transcript, and it is the last such message's text |
| Relay.RecordLastWins | wyomingia/transcriber.py:71-76 | folding messages into the table files the last final transcript under the id and leaves every other entry alone; with none the table is unchanged |
| Relay.Consume | wyomingia/transcriber.py:68-76 | the table after reading is the fold of the readable prefix; a message with a missing key stops the receiver with that key's error; other keys are untouched |
| Relay.Pop | wyomingia/transcriber.py:48 | the pop succeeds iff the id has an entry, returns that text and removes only that entry; otherwise it raises and the table is unchanged |
| Relay.TranscriptDelivered | wyomingia/transcriber.py:48-76 | after a clean run with a final transcript, the pop gives the last transcript and leaves the table without the session's entry |
| Relay.NoFinalNoText | wyomingia/transcriber.py:48-76 | a run with no final transcript fails for a fresh session rather than returning text |
| Relay.FailedReadKeepsEntry | wyomingia/transcriber.py:48-76 | when the receiver raises after a final transcript, that transcript stays filed in the shared table |
| Relay.Transcribe | wyomingia/transcriber.py:36-49 | no chunk raises before any request; the configuration uses the first chunk's format; a refused negotiation raises before any frame; otherwise the frames and the table follow the sender, receiver and pop, and a clean run returns the last final transcript and leaves the table without the session |
| Handler.Step | wyomingia/handler.py:38-76 | a chunk is appended and the handler continues; an end of audio with an empty buffer raises; otherwise the transcriber's text is written as one transcript, the state is reset and the handler stops, and a transcriber failure is raised with the state unchanged; a transcribe request overrides the language only with a non-empty one; a describe writes the info; other events change nothing |
| Handler.EventHandler.constructor | wyomingia/handler.py:21-35 | a new handler has an empty buffer, the default language and has written nothing |
| Handler.EventHandler.HandleEvent | wyomingia/handler.py:38-76 | the fields after the call are the state `Step` gives, what it wrote is appended to the log and the result is the continue flag; on an exception nothing changes |
| Handler.RepliesAreInfo | wyomingia/handler.py:71-74 | before the end of audio the handler writes only info events |
| Handler.HandleBeforeStop | wyomingia/handler.py:38-76 | any event other than the end of audio keeps the connection listening, appends its chunk, follows its language request and answers its describe |
| Handler.FoldedStep | wyomingia/handler.py:38-76 | applying the first event and then folding the rest gives the same trace as folding all the events |
| Handler.Accumulate | wyomingia/handler.py:38-76 | events without an end of audio leave the connection listening, with every chunk appended in arrival order, the last language request in force and one info per describe |
| Handler.RunAppend | wyomingia/handler.py:38-76 | handing over two batches of events is the same as handing over their concatenation |
| Handler.Utterance | wyomingia/handler.py:38-69 | at the end of audio the transcriber gets exactly the chunks received, in order, with the last requested language or the default. On success exactly one transcript follows the info replies, the state is reset and the connection stops, whatever comes after. An empty buffer or a failing transcriber raises with buffer and language kept |
| Handler.ChunkEventsCarryAudio | wyomingia/handler.py:39-42 | chunk events contribute exactly their chunks, in order, and never change the language |
| Handler.LanguageOverride | wyomingia/handler.py:35-67 | a fresh connection given a language request, audio and the end of audio transcribes in the requested language, or in the default when the request carries none, and writes exactly one transcript |
| Handler.ChunkEventsNoReplies | wyomingia/handler.py:39-42 | chunk events draw no reply |

## Left out

- The asyncio lock around the transcriber call (wyomingia/handler.py:50) only serialises concurrent connections. The model has one connection at a time.
- The concurrent `gather` of sender and receiver (wyomingia/transcriber.py:46) is not modelled. The two run one after the other as independent computations. If the receiver raises, the sender's frames are still all reported.
- The HTTP POST (wyomingia/transcriber.py:96-101) and the websocket connect, send and receive are not modelled. Their replies are inputs and their outbound traffic is returned as data.
- The HTTP status of the POST is not modelled. A reply body that is not a JSON object is not modelled either.
- JSON is not modelled: the configuration is a datatype, and reply bodies are flat string maps.
- An inbound frame that is not valid JSON is not modelled. Neither is a websocket that closes with an error.
- Inbound messages: a message lacking `data` and one lacking `data.full_transcript` raise the same missing-key error, named `full_transcript`.
- `time.time` and `asyncio.sleep` are not modelled. Send times are given reals and sleeps are returned reals. Floating-point rounding is not modelled.
- The chunk duration is a field of the chunk. The wyoming library derives it, and that library is not part of this model.
- Inbound events are already decoded into kinds. Their decoding by the wyoming library is not modelled, nor is the transport loop that reads events from the socket. `Handler.Run` specifies that loop: it stops at the first `false` or exception.
- Logging is not modelled.
- wyomingia/__main__.py (argument parsing, the info snapshot, server start) is not modelled. The default language and the info text are parameters.
- Reading the environment is not modelled: the two environment variables are parameters.
- The handler's length check at the end of audio is a Python `assert`. It is modelled as always active, raising `AudioStopWithoutAudio`. Running Python with `-O` would remove it.
- Handler.EventHandler.HandleEvent: at the end of audio the handler gets the transcriber's result from a function it is given. The model does not show that this function is the `Relay.Transcribe` pipeline over the shared table.
- Handler.EventHandler.constructor: each new connection also constructs its own transcriber, which raises when the API key is absent (wyomingia/handler.py:36). The constructor here is given the transcriber function and never fails. That construction and its `MissingApiKey` failure are modelled separately, by `Negotiation.NewSettings`.
- The reply body of a refused negotiation is only logged. The `LimitReached` error carries no data, as the raised exception carries only its message.
