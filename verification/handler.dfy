/**
 The per-connection event handler. It buffers audio chunks, remembers the
 language to transcribe in, hands the utterance to the transcriber at the end
 of the audio and writes the transcript back to the client.

 The transcriber is a function the handler is given; the events it writes to
 the client are appended to a log. The lock that serialises transcriptions
 across connections is not modelled.
 */
module Handler {
  import opened Common

  /** An inbound event, by kind. */
  datatype Event =
    | AudioChunkEvent(chunk: Chunk)
    | AudioStopEvent
    | TranscribeEvent(language: Option<string>)
    | DescribeEvent
    | OtherEvent(eventType: string)

  /** An event written back to the client. */
  datatype OutEvent = Transcript(text: string) | Info(description: string)

  /** The connection's mutable state: the buffered utterance and the language. */
  datatype HandlerState = HandlerState(chunks: seq<Chunk>, language: Option<string>)

  /** What a handler is constructed with: the default language from the
      command line (possibly absent), the server's info snapshot, and the
      transcriber it calls. */
  datatype HandlerConfig = HandlerConfig(
    defaultLanguage: Option<string>,
    info: string,
    transcriber: (seq<Chunk>, Option<string>) -> Result<string, Error>)

  /** The effect of one handled event: the new state, what was written, and
      whether the transport should keep reading events. */
  datatype Transition = Transition(state: HandlerState, emitted: seq<OutEvent>, proceed: bool)

  /** The state of a fresh connection, and of one after an utterance. */
  function Initial(cfg: HandlerConfig): HandlerState
  {
    HandlerState([], cfg.defaultLanguage)
  }

  /** Whether a transcribe request carries a language: absent and empty do not. */
  predicate Overrides(language: Option<string>)
  {
    language.Some? && language.value != []
  }

  /** One event handled; an `Err` is the exception it raises, before any
      change to the state or any write. */
  function Step(cfg: HandlerConfig, s: HandlerState, e: Event): (r: Result<Transition, Error>)
    ensures r.Ok? ==> (r.value.proceed <==> !e.AudioStopEvent?)
    ensures e.AudioChunkEvent? ==>
      r.Ok? && r.value.state.chunks == s.chunks + [e.chunk] &&
      r.value.state.language == s.language && r.value.emitted == []
    ensures e.AudioStopEvent? && s.chunks == [] ==> r == Err(AudioStopWithoutAudio)
    ensures e.AudioStopEvent? && s.chunks != [] ==>
      match cfg.transcriber(s.chunks, s.language)
      case Ok(text) => r.Ok? && r.value.state == Initial(cfg) && r.value.emitted == [Transcript(text)]
      case Err(err) => r == Err(err)
    ensures e.TranscribeEvent? ==>
      r.Ok? && r.value.state.chunks == s.chunks && r.value.emitted == [] &&
      r.value.state.language == (if Overrides(e.language) then e.language else s.language)
    ensures e.DescribeEvent? ==> r.Ok? && r.value.state == s && r.value.emitted == [Info(cfg.info)]
    ensures e.OtherEvent? ==> r.Ok? && r.value.state == s && r.value.emitted == []
  {
    match e
    case AudioChunkEvent(c) =>
      Ok(Transition(s.(chunks := s.chunks + [c]), [], true))
    case AudioStopEvent =>
      if |s.chunks| == 0 then Err(AudioStopWithoutAudio)
      else (
        match cfg.transcriber(s.chunks, s.language)
        case Err(err) => Err(err)
        case Ok(text) => Ok(Transition(Initial(cfg), [Transcript(text)], false)))
    case TranscribeEvent(language) =>
      Ok(Transition(if Overrides(language) then s.(language := language) else s, [], true))
    case DescribeEvent =>
      Ok(Transition(s, [Info(cfg.info)], true))
    case OtherEvent(_) =>
      Ok(Transition(s, [], true))
  }

  /** The handler object of one client connection. */
  class EventHandler {
    const defaultLanguage: Option<string>
    const info: string
    const transcriber: (seq<Chunk>, Option<string>) -> Result<string, Error>
    var chunks: seq<Chunk>
    var language: Option<string>
    var written: seq<OutEvent>

    function Config(): HandlerConfig
    {
      HandlerConfig(defaultLanguage, info, transcriber)
    }

    function State(): HandlerState
      reads this
    {
      HandlerState(chunks, language)
    }

    constructor (defaultLanguage: Option<string>, info: string,
                 transcriber: (seq<Chunk>, Option<string>) -> Result<string, Error>)
      ensures this.defaultLanguage == defaultLanguage && this.info == info
      ensures this.transcriber == transcriber
      ensures chunks == [] && language == defaultLanguage && written == []
    {
      this.defaultLanguage := defaultLanguage;
      this.info := info;
      this.transcriber := transcriber;
      chunks := [];
      language := defaultLanguage;
      written := [];
    }

    /** Handles one event as `Step` says: on success the state is the new
        one, what it wrote is appended to the log and the result says whether
        to keep reading; on an exception nothing has changed. */
    method HandleEvent(e: Event) returns (r: Result<bool, Error>)
      modifies this
      ensures match Step(Config(), old(State()), e)
        case Ok(t) => State() == t.state && written == old(written) + t.emitted && r == Ok(t.proceed)
        case Err(err) => State() == old(State()) && written == old(written) && r == Err(err)
    {
      match e {
        case AudioChunkEvent(c) =>
          chunks := chunks + [c];
          return Ok(true);
        case AudioStopEvent =>
          if |chunks| == 0 {
            return Err(AudioStopWithoutAudio);
          }
          var outcome := transcriber(chunks, language);
          if outcome.Err? {
            return Err(outcome.error);
          }
          written := written + [Transcript(outcome.value)];
          chunks := [];
          language := defaultLanguage;
          return Ok(false);
        case TranscribeEvent(requested) =>
          if Overrides(requested) {
            language := requested;
          }
          return Ok(true);
        case DescribeEvent =>
          written := written + [Info(info)];
          return Ok(true);
        case OtherEvent(_) =>
          return Ok(true);
      }
    }
  }

  // ------------------------------------------------------ whole connections

  /** How a connection stands: still reading events, stopped because the
      handler asked to, or stopped because it raised. */
  datatype Status = Listening | Finished | Failed(error: Error)

  /** The state, everything written so far, and the status of a connection. */
  datatype Trace = Trace(state: HandlerState, emitted: seq<OutEvent>, status: Status)

  /** A connection that has read nothing yet, in state `s`. */
  function Start(s: HandlerState): Trace
  {
    Trace(s, [], Listening)
  }

  /** The trace after the transport hands the handler one more event. */
  function Handle(cfg: HandlerConfig, tr: Trace, e: Event): Trace
  {
    match Step(cfg, tr.state, e)
    case Err(err) => tr.(status := Failed(err))
    case Ok(t) => Trace(t.state, tr.emitted + t.emitted, if t.proceed then Listening else Finished)
  }

  /** Events handed over one after the other while the connection listens;
      once it has stopped or raised, later events are not read. */
  function Run(cfg: HandlerConfig, tr: Trace, events: seq<Event>): Trace
    decreases |events|
  {
    if events == [] || !tr.status.Listening? then tr
    else Run(cfg, Handle(cfg, tr, events[0]), events[1..])
  }

  predicate NoStop(events: seq<Event>)
  {
    forall i :: 0 <= i < |events| ==> !events[i].AudioStopEvent?
  }

  /** The chunk an event adds to the buffer, if any. */
  function ChunkOf(e: Event): seq<Chunk>
  {
    if e.AudioChunkEvent? then [e.chunk] else []
  }

  /** The language after an event that is not an end of audio. */
  function LanguageOf(language: Option<string>, e: Event): Option<string>
  {
    if e.TranscribeEvent? && Overrides(e.language) then e.language else language
  }

  /** What the handler writes for an event that is not an end of audio. */
  function ReplyOf(cfg: HandlerConfig, e: Event): seq<OutEvent>
  {
    if e.DescribeEvent? then [Info(cfg.info)] else []
  }

  /** The audio chunks among `events`, in arrival order. */
  function Audio(events: seq<Event>): seq<Chunk>
  {
    if events == [] then [] else ChunkOf(events[0]) + Audio(events[1..])
  }

  /** The language after `events`, starting from `language`: the last
      transcribe request that carries one wins. */
  function LanguageAfter(language: Option<string>, events: seq<Event>): Option<string>
    decreases |events|
  {
    if events == [] then language else LanguageAfter(LanguageOf(language, events[0]), events[1..])
  }

  /** What the handler writes for `events` that hold no end of audio: one
      info reply per describe request. */
  function Replies(cfg: HandlerConfig, events: seq<Event>): seq<OutEvent>
  {
    if events == [] then [] else ReplyOf(cfg, events[0]) + Replies(cfg, events[1..])
  }

  /** Before the end of audio only info snapshots are written, one per
      describe request: no transcript. */
  lemma {:induction false} RepliesAreInfo(cfg: HandlerConfig, events: seq<Event>)
    ensures forall i :: 0 <= i < |Replies(cfg, events)| ==> Replies(cfg, events)[i] == Info(cfg.info)
    decreases |events|
  {
    if events != [] {
      RepliesAreInfo(cfg, events[1..]);
      var head := ReplyOf(cfg, events[0]);
      var tail := Replies(cfg, events[1..]);
      forall i | 0 <= i < |head + tail| ensures (head + tail)[i] == Info(cfg.info) {
        if i >= |head| { assert (head + tail)[i] == tail[i - |head|]; }
      }
    }
  }

  /** The trace after an event that is not an end of audio: its chunk
      appended, its language request followed, its describe answered. */
  function Advance(cfg: HandlerConfig, tr: Trace, e: Event): Trace
  {
    Trace(HandlerState(tr.state.chunks + ChunkOf(e), LanguageOf(tr.state.language, e)),
          tr.emitted + ReplyOf(cfg, e), tr.status)
  }

  /** Any event other than the end of audio keeps the connection listening:
      it may add a chunk, change the language or answer a describe. */
  lemma HandleBeforeStop(cfg: HandlerConfig, tr: Trace, e: Event)
    requires tr.status == Listening && !e.AudioStopEvent?
    ensures Handle(cfg, tr, e) == Advance(cfg, tr, e)
  {
    if !e.AudioChunkEvent? {
      assert tr.state.chunks + ChunkOf(e) == tr.state.chunks;
    }
    if !e.DescribeEvent? {
      assert tr.emitted + ReplyOf(cfg, e) == tr.emitted;
    }
  }

  /** Dropping the first event keeps a run free of ends of audio. */
  lemma NoStopTail(events: seq<Event>)
    requires events != [] && NoStop(events)
    ensures NoStop(events[1..])
  {
    forall i | 0 <= i < |events[1..]| ensures !events[1..][i].AudioStopEvent? {
      assert events[1..][i] == events[i + 1];
    }
  }

  /** The trace that events without an end of audio lead to from `tr`:
      their chunks appended, their language requests followed and their
      describe requests answered. */
  function Folded(cfg: HandlerConfig, tr: Trace, events: seq<Event>): Trace
  {
    Trace(HandlerState(tr.state.chunks + Audio(events), LanguageAfter(tr.state.language, events)),
          tr.emitted + Replies(cfg, events), tr.status)
  }

  /** Folding the first event in, then the rest, is folding them all. */
  lemma FoldedStep(cfg: HandlerConfig, tr: Trace, events: seq<Event>)
    requires events != []
    ensures Folded(cfg, tr, events) == Folded(cfg, Advance(cfg, tr, events[0]), events[1..])
  {
    var e := events[0];
    assert Audio(events) == ChunkOf(e) + Audio(events[1..]);
    assert Replies(cfg, events) == ReplyOf(cfg, e) + Replies(cfg, events[1..]);
    AppendAssoc(tr.state.chunks, ChunkOf(e), Audio(events[1..]));
    AppendAssoc(tr.emitted, ReplyOf(cfg, e), Replies(cfg, events[1..]));
  }

  /** Helper: concatenation is associative. */
  lemma AppendAssoc<T>(a: seq<T>, b: seq<T>, c: seq<T>)
    ensures a + (b + c) == a + b + c
  {
  }

  /** Helper, one unfolding of `Run`: a listening connection hands the first
      event over, then the rest. */
  lemma RunStep(cfg: HandlerConfig, tr: Trace, events: seq<Event>)
    requires tr.status == Listening && events != []
    ensures Run(cfg, tr, events) == Run(cfg, Handle(cfg, tr, events[0]), events[1..])
  {
  }

  /** Before the end of the audio a connection never stops: it appends every
      chunk in order, follows the language requests and answers describes. */
  lemma {:induction false} Accumulate(cfg: HandlerConfig, tr: Trace, events: seq<Event>)
    requires tr.status == Listening && NoStop(events)
    ensures Run(cfg, tr, events) == Folded(cfg, tr, events)
    decreases |events|
  {
    if events == [] {
      assert Folded(cfg, tr, events) == tr;
    } else {
      HandleBeforeStop(cfg, tr, events[0]);
      NoStopTail(events);
      Accumulate(cfg, Handle(cfg, tr, events[0]), events[1..]);
      FoldedStep(cfg, tr, events);
      RunStep(cfg, tr, events);
    }
  }

  /** A stopped connection reads nothing more. */
  lemma {:induction false} RunStopped(cfg: HandlerConfig, tr: Trace, events: seq<Event>)
    requires !tr.status.Listening?
    ensures Run(cfg, tr, events) == tr
  {
  }

  /** Handing over two batches of events is handing over their concatenation. */
  lemma {:induction false} RunAppend(cfg: HandlerConfig, tr: Trace, events: seq<Event>, rest: seq<Event>)
    ensures Run(cfg, tr, events + rest) == Run(cfg, Run(cfg, tr, events), rest)
    decreases |events|
  {
    if events == [] {
      assert events + rest == rest;
    } else if !tr.status.Listening? {
      RunStopped(cfg, tr, events + rest);
      RunStopped(cfg, tr, rest);
    } else {
      assert (events + rest)[0] == events[0] && (events + rest)[1..] == events[1..] + rest;
      RunAppend(cfg, Handle(cfg, tr, events[0]), events[1..], rest);
    }
  }

  /** One utterance end to end: after any events without an end of audio,
      the end of audio hands the transcriber exactly the chunks received, in
      order, with the last requested language (else the default); on success
      exactly one transcript follows the describe replies, the state is reset
      and the connection stops, whatever events come after. An empty utterance
      or a failing transcriber raises and leaves the buffer and language as
      they were. */
  lemma Utterance(cfg: HandlerConfig, s: HandlerState, events: seq<Event>, later: seq<Event>)
    requires NoStop(events)
    ensures var audio := s.chunks + Audio(events);
      var language := LanguageAfter(s.language, events);
      var stopped := Run(cfg, Start(s), events + [AudioStopEvent] + later);
      if audio == [] then
        stopped == Trace(HandlerState(audio, language), Replies(cfg, events), Failed(AudioStopWithoutAudio))
      else
        match cfg.transcriber(audio, language)
        case Ok(text) =>
          stopped == Trace(Initial(cfg), Replies(cfg, events) + [Transcript(text)], Finished)
        case Err(err) =>
          stopped == Trace(HandlerState(audio, language), Replies(cfg, events), Failed(err))
  {
    var tail := [AudioStopEvent] + later;
    assert events + [AudioStopEvent] + later == events + tail;
    RunAppend(cfg, Start(s), events, tail);
    Accumulate(cfg, Start(s), events);
    assert [] + Replies(cfg, events) == Replies(cfg, events);
    assert s.chunks + Audio(events) == Folded(cfg, Start(s), events).state.chunks;
    var mid := Run(cfg, Start(s), events);
    assert tail[0] == AudioStopEvent && tail[1..] == later;
    RunStopped(cfg, Handle(cfg, mid, AudioStopEvent), later);
  }

  /** One chunk event per chunk, in order. */
  function ChunkEvents(audio: seq<Chunk>): (events: seq<Event>)
    ensures NoStop(events)
  {
    if audio == [] then [] else [AudioChunkEvent(audio[0])] + ChunkEvents(audio[1..])
  }

  /** Chunk events carry exactly their chunks and leave the language alone. */
  lemma {:induction false} ChunkEventsCarryAudio(audio: seq<Chunk>, language: Option<string>)
    ensures Audio(ChunkEvents(audio)) == audio
    ensures LanguageAfter(language, ChunkEvents(audio)) == language
    decreases |audio|
  {
    if audio != [] {
      var events := ChunkEvents(audio);
      assert events[0] == AudioChunkEvent(audio[0]) && events[1..] == ChunkEvents(audio[1..]);
      ChunkEventsCarryAudio(audio[1..], language);
      assert audio == [audio[0]] + audio[1..];
    }
  }

  /** Language override end to end: a fresh connection that receives a
      transcribe request, then audio, then the end of audio hands the audio to
      the transcriber in the requested language when one is given, in the
      default language otherwise, and answers with its one transcript. */
  lemma LanguageOverride(cfg: HandlerConfig, requested: Option<string>, audio: seq<Chunk>)
    requires audio != []
    ensures var events := [TranscribeEvent(requested)] + ChunkEvents(audio) + [AudioStopEvent];
      var language := if Overrides(requested) then requested else cfg.defaultLanguage;
      Run(cfg, Start(Initial(cfg)), events) ==
        match cfg.transcriber(audio, language)
        case Ok(text) => Trace(Initial(cfg), [Transcript(text)], Finished)
        case Err(err) => Trace(HandlerState(audio, language), [], Failed(err))
  {
    var before := [TranscribeEvent(requested)] + ChunkEvents(audio);
    var language := if Overrides(requested) then requested else cfg.defaultLanguage;
    ChunkEventsCarryAudio(audio, language);
    assert before[1..] == ChunkEvents(audio);
    assert Audio(before) == audio;
    assert LanguageAfter(cfg.defaultLanguage, before) == language;
    assert NoStop(before) by {
      forall i | 0 <= i < |before| ensures !before[i].AudioStopEvent? {
        if i > 0 { assert before[i] == ChunkEvents(audio)[i - 1]; }
      }
    }
    Utterance(cfg, Initial(cfg), before, []);
    assert before + [AudioStopEvent] + [] == before + [AudioStopEvent];
    assert Replies(cfg, before) == [] by {
      assert Replies(cfg, before) == Replies(cfg, ChunkEvents(audio));
      ChunkEventsNoReplies(cfg, audio);
    }
    assert [] + audio == audio;
  }

  /** Chunk events draw no reply. */
  lemma {:induction false} ChunkEventsNoReplies(cfg: HandlerConfig, audio: seq<Chunk>)
    ensures Replies(cfg, ChunkEvents(audio)) == []
    decreases |audio|
  {
    if audio != [] {
      var events := ChunkEvents(audio);
      assert events[1..] == ChunkEvents(audio[1..]);
      ChunkEventsNoReplies(cfg, audio[1..]);
    }
  }
}
