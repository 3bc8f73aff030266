/**
 One transcription run against the remote service: the paced sender that
 streams the utterance, the receiver that files the final transcript under the
 session id, and the pop of that entry that yields the text.

 The websocket is not modelled. What the sender writes is a sequence of
 frames it returns; what the receiver reads is a sequence of messages it is
 given; the time each send took is a given per chunk; the result table shared
 by all transcribers is a map passed in and returned. Sender and receiver run
 one after the other here, as independent computations.
 */
module Relay {
  import opened Common
  import opened Negotiation

  /** An outbound websocket frame: raw audio, or the end-of-recording control message. */
  datatype Frame = AudioFrame(payload: seq<bv8>) | StopRecording

  /** An inbound message, decoded: its `type` and its `data.full_transcript`,
      each absent when the message lacks it. */
  datatype Message = Message(msgType: Option<string>, fullTranscript: Option<string>)

  // ---------------------------------------------------------------- sender

  /** The sleep after sending a chunk of `seconds` whose send took `elapsed`:
      the rest of the chunk's duration, or nothing when the send already took
      that long. */
  function PacingDelay(seconds: real, elapsed: real): (d: real)
    ensures d >= 0.0
    ensures elapsed + d >= seconds
    ensures elapsed < seconds ==> elapsed + d == seconds
    ensures elapsed >= seconds ==> d == 0.0
  {
    if elapsed < seconds then seconds - elapsed else 0.0
  }

  /** The audio duration of an utterance. */
  function Duration(chunks: seq<Chunk>): real
  {
    if chunks == [] then 0.0 else chunks[0].seconds + Duration(chunks[1..])
  }

  /** The time the sender spends: each send plus the sleep after it. */
  function SendTime(elapsed: seq<real>, delays: seq<real>): real
    requires |elapsed| == |delays|
  {
    if elapsed == [] then 0.0 else elapsed[0] + delays[0] + SendTime(elapsed[1..], delays[1..])
  }

  /** Pacing never streams faster than real time: the sender takes at least
      the audio's duration. */
  lemma {:induction false} PacingKeepsRealTime(chunks: seq<Chunk>, elapsed: seq<real>, delays: seq<real>)
    requires |elapsed| == |chunks| == |delays|
    requires forall i :: 0 <= i < |chunks| ==> delays[i] == PacingDelay(chunks[i].seconds, elapsed[i])
    ensures SendTime(elapsed, delays) >= Duration(chunks)
    decreases |chunks|
  {
    if chunks != [] {
      assert delays[0] == PacingDelay(chunks[0].seconds, elapsed[0]);
      forall i | 0 <= i < |chunks[1..]|
        ensures delays[1..][i] == PacingDelay(chunks[1..][i].seconds, elapsed[1..][i])
      {
        assert delays[1..][i] == delays[i + 1];
      }
      PacingKeepsRealTime(chunks[1..], elapsed[1..], delays[1..]);
    }
  }

  /** The sender: every chunk's payload as one frame, in order, each followed
      by its pacing sleep, then a single end-of-recording frame.
      `elapsed[i]` is the time the send of chunk i took. */
  method Produce(chunks: seq<Chunk>, elapsed: seq<real>) returns (frames: seq<Frame>, delays: seq<real>)
    requires |elapsed| == |chunks|
    ensures |frames| == |chunks| + 1 && |delays| == |chunks|
    ensures forall i :: 0 <= i < |chunks| ==> frames[i] == AudioFrame(chunks[i].audio)
    ensures frames[|chunks|] == StopRecording
    ensures forall i :: 0 <= i < |chunks| ==> delays[i] == PacingDelay(chunks[i].seconds, elapsed[i])
    ensures SendTime(elapsed, delays) >= Duration(chunks)
  {
    frames, delays := [], [];
    var i := 0;
    while i < |chunks|
      invariant 0 <= i <= |chunks|
      invariant |frames| == i && |delays| == i
      invariant forall j :: 0 <= j < i ==> frames[j] == AudioFrame(chunks[j].audio)
      invariant forall j :: 0 <= j < i ==> delays[j] == PacingDelay(chunks[j].seconds, elapsed[j])
    {
      frames := frames + [AudioFrame(chunks[i].audio)];
      delays := delays + [PacingDelay(chunks[i].seconds, elapsed[i])];
      i := i + 1;
    }
    frames := frames + [StopRecording];
    PacingKeepsRealTime(chunks, elapsed, delays);
  }

  // -------------------------------------------------------------- receiver

  /** A message the receiver can read without a missing key. */
  predicate Readable(m: Message)
  {
    m.msgType.Some? && (m.msgType.value == "post_transcript" ==> m.fullTranscript.Some?)
  }

  /** A final-transcript message. */
  predicate IsFinal(m: Message)
  {
    m.msgType == Some("post_transcript") && m.fullTranscript.Some?
  }

  /** The key whose absence makes a message unreadable. */
  function MissingKey(m: Message): string
  {
    if m.msgType.None? then "type" else "full_transcript"
  }

  /** How many messages are read before the first unreadable one. */
  function ReadablePrefix(msgs: seq<Message>): (n: nat)
    ensures n <= |msgs|
    ensures forall i :: 0 <= i < n ==> Readable(msgs[i])
    ensures n < |msgs| ==> !Readable(msgs[n])
  {
    if msgs == [] || !Readable(msgs[0]) then 0 else 1 + ReadablePrefix(msgs[1..])
  }

  /** The result table after reading `msgs`: each final transcript is filed
      under `id`, every other message leaves the table as it was. */
  function Record(data: map<string, string>, id: string, msgs: seq<Message>): map<string, string>
  {
    if msgs == [] then data
    else
      var before := Record(data, id, msgs[..|msgs| - 1]);
      var m := msgs[|msgs| - 1];
      if IsFinal(m) then before[id := m.fullTranscript.value] else before
  }

  /** The text of the last final transcript among `msgs`, if there is one. */
  function LastTranscript(msgs: seq<Message>): (r: Option<string>)
    ensures r.Some? <==> exists i :: 0 <= i < |msgs| && IsFinal(msgs[i])
    ensures r.Some? ==>
      exists i :: 0 <= i < |msgs| && IsFinal(msgs[i]) && msgs[i].fullTranscript.value == r.value &&
        (forall j :: i < j < |msgs| ==> !IsFinal(msgs[j]))
  {
    if msgs == [] then None
    else
      var last := msgs[|msgs| - 1];
      if IsFinal(last) then Some(last.fullTranscript.value)
      else
        var init := msgs[..|msgs| - 1];
        assert forall i :: 0 <= i < |init| ==> init[i] == msgs[i];
        LastTranscript(init)
  }

  /** Last one wins: reading the messages files the last final transcript
      under `id` and touches no other key; with no final transcript the table
      is unchanged. */
  lemma {:induction false} RecordLastWins(data: map<string, string>, id: string, msgs: seq<Message>)
    ensures Record(data, id, msgs) ==
      match LastTranscript(msgs)
      case Some(t) => data[id := t]
      case None => data
    decreases |msgs|
  {
    if msgs != [] {
      var init := msgs[..|msgs| - 1];
      RecordLastWins(data, id, init);
      var last := msgs[|msgs| - 1];
      if IsFinal(last) {
        match LastTranscript(init)
        case Some(t) =>
          assert data[id := t][id := last.fullTranscript.value] == data[id := last.fullTranscript.value];
        case None =>
      }
    }
  }

  /** The receiver: reads messages until the connection closes, filing each
      final transcript under `id`; a message lacking a key it indexes stops it
      with that error, the filings made so far staying in the table. */
  method Consume(data: map<string, string>, id: string, messages: seq<Message>)
    returns (updated: map<string, string>, failure: Option<Error>)
    ensures var n := ReadablePrefix(messages);
      updated == Record(data, id, messages[..n]) &&
      failure == if n == |messages| then None else Some(MissingField(MissingKey(messages[n])))
    ensures forall k :: k != id ==> (k in updated <==> k in data) && (k in data ==> updated[k] == data[k])
  {
    updated, failure := data, None;
    var i := 0;
    while i < |messages|
      invariant 0 <= i <= ReadablePrefix(messages)
      invariant updated == Record(data, id, messages[..i])
    {
      var m := messages[i];
      if m.msgType.None? {
        failure := Some(MissingField("type"));
        break;
      }
      if m.msgType.value == "post_transcript" {
        if m.fullTranscript.None? {
          failure := Some(MissingField("full_transcript"));
          break;
        }
        updated := updated[id := m.fullTranscript.value];
      }
      assert messages[..i + 1][..i] == messages[..i];
      i := i + 1;
    }
    RecordLastWins(data, id, messages[..ReadablePrefix(messages)]);
  }

  // ------------------------------------------------------------ the result

  /** The text taken out of the result table and the table left behind. */
  datatype Taken = Taken(text: string, remaining: map<string, string>)

  /** Pops the session's entry: its text, and the table without it; a session
      with no entry is an error and leaves the table as it was. */
  function Pop(data: map<string, string>, id: string): (r: Result<Taken, Error>)
    ensures r.Ok? <==> id in data
    ensures r.Err? ==> r.error == NoTranscript(id)
    ensures r.Ok? ==> r.value.text == data[id] && id !in r.value.remaining
    ensures r.Ok? ==> r.value.remaining[id := r.value.text] == data
  {
    if id in data then Ok(Taken(data[id], data - {id})) else Err(NoTranscript(id))
  }

  /** A run whose messages all read and include a final transcript yields the
      last one, and the table is left exactly as it was without the session:
      the entry is consumed once and does not outlive the run. */
  lemma TranscriptDelivered(data: map<string, string>, id: string, msgs: seq<Message>, text: string)
    requires LastTranscript(msgs) == Some(text)
    ensures Pop(Record(data, id, msgs), id) == Ok(Taken(text, data - {id}))
  {
    RecordLastWins(data, id, msgs);
    assert data[id := text] - {id} == data - {id};
  }

  /** A run with no final transcript fails for a fresh session id. */
  lemma NoFinalNoText(data: map<string, string>, id: string, msgs: seq<Message>)
    requires id !in data
    requires LastTranscript(msgs) == None
    ensures Pop(Record(data, id, msgs), id) == Err(NoTranscript(id))
  {
    RecordLastWins(data, id, msgs);
  }

  /** A receiver stopped by an unreadable message after a final transcript
      leaves that transcript in the table: the run fails and nothing pops it. */
  lemma FailedReadKeepsEntry(data: map<string, string>, id: string, msgs: seq<Message>, text: string)
    requires ReadablePrefix(msgs) < |msgs|
    requires LastTranscript(msgs[..ReadablePrefix(msgs)]) == Some(text)
    ensures id in Record(data, id, msgs[..ReadablePrefix(msgs)])
    ensures Record(data, id, msgs[..ReadablePrefix(msgs)])[id] == text
  {
    RecordLastWins(data, id, msgs[..ReadablePrefix(msgs)]);
  }

  // ----------------------------------------------------- one transcription

  /** What the remote side does during one run: the provisioning reply, the
      time each chunk's send takes, and the messages received before close. */
  datatype Remote = Remote(negotiation: map<string, string>, sendTimes: seq<real>, inbound: seq<Message>)

  /** Transcribes an utterance: negotiates a session for the first chunk's
      format, streams the chunks, reads the replies into the shared table and
      pops the session's entry. Returns the text or the error raised, the
      configuration posted (none when there is no chunk), the url connected to
      (none when negotiation failed), the frames sent and the table after. */
  method Transcribe(settings: Settings, chunks: seq<Chunk>, language: Option<string>,
                    remote: Remote, data: map<string, string>)
    returns (result: Result<string, Error>, config: Option<SessionConfig>,
             endpoint: Option<string>, frames: seq<Frame>, updated: map<string, string>)
    requires |remote.sendTimes| == |chunks|
    ensures chunks == [] ==>
      result == Err(EmptyUtterance) && config == None && endpoint == None && frames == [] && updated == data
    ensures chunks != [] ==>
      config == Some(BuildConfig(language, chunks[0].rate, chunks[0].width, chunks[0].channels,
                                 settings.customVocabulary))
    ensures chunks != [] && ClassifyResponse(remote.negotiation).Err? ==>
      result == Err(ClassifyResponse(remote.negotiation).error) && endpoint == None &&
      frames == [] && updated == data
    ensures endpoint.Some? <==> chunks != [] && ClassifyResponse(remote.negotiation).Ok?
    ensures endpoint.Some? ==>
      endpoint.value == remote.negotiation["url"] &&
      |frames| == |chunks| + 1 && frames[|chunks|] == StopRecording &&
      forall i :: 0 <= i < |chunks| ==> frames[i] == AudioFrame(chunks[i].audio)
    ensures endpoint.Some? ==>
      var id := remote.negotiation["id"];
      var n := ReadablePrefix(remote.inbound);
      var recorded := Record(data, id, remote.inbound[..n]);
      if n < |remote.inbound| then
        result == Err(MissingField(MissingKey(remote.inbound[n]))) && updated == recorded
      else
        match Pop(recorded, id)
        case Ok(t) => result == Ok(t.text) && updated == t.remaining
        case Err(e) => result == Err(e) && updated == recorded
    ensures endpoint.Some? && ReadablePrefix(remote.inbound) == |remote.inbound| &&
            LastTranscript(remote.inbound).Some? ==>
      result == Ok(LastTranscript(remote.inbound).value) &&
      updated == data - {remote.negotiation["id"]}
  {
    config, endpoint, frames, updated := None, None, [], data;
    if chunks == [] {
      return Err(EmptyUtterance), config, endpoint, frames, updated;
    }
    var first := chunks[0];
    var posted := BuildConfig(language, first.rate, first.width, first.channels, settings.customVocabulary);
    config := Some(posted);
    var session := ClassifyResponse(remote.negotiation);
    if session.Err? {
      return Err(session.error), config, endpoint, frames, updated;
    }
    var id := session.value.id;
    endpoint := Some(session.value.url);
    var delays;
    frames, delays := Produce(chunks, remote.sendTimes);
    var failure;
    updated, failure := Consume(data, id, remote.inbound);
    if failure.Some? {
      return Err(failure.value), config, endpoint, frames, updated;
    }
    assert remote.inbound[..|remote.inbound|] == remote.inbound;
    var popped := Pop(updated, id);
    match popped {
      case Ok(t) =>
        result, updated := Ok(t.text), t.remaining;
      case Err(e) =>
        result := Err(e);
    }
    if LastTranscript(remote.inbound).Some? {
      TranscriptDelivered(data, id, remote.inbound, LastTranscript(remote.inbound).value);
    }
  }
}
