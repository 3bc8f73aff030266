/**
 Session negotiation with the remote speech-to-text service: the settings the
 transcriber reads from its environment, the session configuration it posts,
 and how the provisioning reply is turned into a session or an error. The
 HTTP request itself is not modelled: its reply body is an input.
 */
module Negotiation {
  import opened Common
  import opened Vocabulary

  /** What the transcriber is constructed with: the API key sent as a header
      and the parsed custom vocabulary. */
  datatype Settings = Settings(apiKey: string, customVocabulary: seq<string>)

  datatype LanguageConfig = LanguageConfig(languages: seq<Option<string>>)
  datatype MessagesConfig = MessagesConfig(receiveAcknowledgments: bool, receivePartialTranscripts: bool)
  datatype VocabularyConfig = VocabularyConfig(vocabulary: seq<string>)
  datatype RealtimeProcessing = RealtimeProcessing(customVocabulary: bool, customVocabularyConfig: VocabularyConfig)

  /** The JSON body of the provisioning request; `realtimeProcessing` is the
      optional key that is only present with a custom vocabulary. */
  datatype SessionConfig = SessionConfig(
    languageConfig: LanguageConfig,
    sampleRate: int,
    bitDepth: int,
    channels: int,
    messagesConfig: MessagesConfig,
    realtimeProcessing: Option<RealtimeProcessing>)

  /** A provisioned session: the id results are filed under and the websocket url. */
  datatype Session = Session(id: string, url: string)

  /** Builds the settings from the two environment variables; construction
      fails when the API key is absent, whatever the vocabulary. */
  function NewSettings(apiKey: Option<string>, vocabularyEnv: Option<string>): (r: Result<Settings, Error>)
    ensures r.Err? <==> apiKey.None?
    ensures r.Err? ==> r.error == MissingApiKey
    ensures r.Ok? ==> r.value.apiKey == apiKey.value
    ensures r.Ok? ==> r.value.customVocabulary == ParseVocabulary(vocabularyEnv)
    ensures r.Ok? ==> forall i :: 0 <= i < |r.value.customVocabulary| ==>
      r.value.customVocabulary[i] != [] && ',' !in r.value.customVocabulary[i]
  {
    match apiKey
    case None => Err(MissingApiKey)
    case Some(key) => Ok(Settings(key, ParseVocabulary(vocabularyEnv)))
  }

  /** The configuration posted for an utterance in `language` whose audio has
      the given format (width in bytes), with the configured vocabulary. */
  function BuildConfig(language: Option<string>, rate: int, width: int, channels: int,
                       vocabulary: seq<string>): (c: SessionConfig)
    ensures c.languageConfig.languages == [language]
    ensures c.sampleRate == rate && c.channels == channels
    ensures c.bitDepth == 8 * width
    ensures !c.messagesConfig.receiveAcknowledgments && !c.messagesConfig.receivePartialTranscripts
    ensures c.realtimeProcessing.Some? <==> vocabulary != []
    ensures c.realtimeProcessing.Some? ==>
      c.realtimeProcessing.value.customVocabulary &&
      c.realtimeProcessing.value.customVocabularyConfig.vocabulary == vocabulary
  {
    var base := SessionConfig(
      LanguageConfig([language]),
      rate,
      8 * width,
      channels,
      MessagesConfig(false, false),
      None);
    if |vocabulary| > 0 then
      base.(realtimeProcessing := Some(RealtimeProcessing(true, VocabularyConfig(vocabulary))))
    else
      base
  }

  /** Reads the provisioning reply: a reply with a `url` names the session
      (its `id` is then indexed as well); any other reply is the service
      refusing, and no connection is made. */
  function ClassifyResponse(body: map<string, string>): (r: Result<Session, Error>)
    ensures r.Ok? <==> "url" in body && "id" in body
    ensures r.Ok? ==> r.value == Session(body["id"], body["url"])
    ensures "url" !in body ==> r == Err(LimitReached)
    ensures "url" in body && "id" !in body ==> r == Err(MissingField("id"))
  {
    if "url" in body then
      if "id" in body then Ok(Session(body["id"], body["url"]))
      else Err(MissingField("id"))
    else
      Err(LimitReached)
  }

  /** The configuration carries a vocabulary block exactly when the
      environment variable holds a non-empty field. */
  lemma VocabularyBlockIffConfigured(settings: Settings, key: string, env: Option<string>,
                                     language: Option<string>, rate: int, width: int, channels: int)
    requires NewSettings(Some(key), env) == Ok(settings)
    ensures BuildConfig(language, rate, width, channels, settings.customVocabulary).realtimeProcessing.None? <==>
      env.None? || forall i :: 0 <= i < |env.value| ==> env.value[i] == ','
  {
    ParseEmpty(env);
  }

  /** A vocabulary written comma-separated into the environment reaches the
      posted configuration word for word, in order. */
  lemma ConfiguredVocabularySent(words: seq<string>, key: string,
                                 language: Option<string>, rate: int, width: int, channels: int)
    requires words != []
    requires forall i :: 0 <= i < |words| ==> words[i] != [] && ',' !in words[i]
    ensures NewSettings(Some(key), Some(Join(words))).Ok?
    ensures BuildConfig(language, rate, width, channels,
                        NewSettings(Some(key), Some(Join(words))).value.customVocabulary).realtimeProcessing
            == Some(RealtimeProcessing(true, VocabularyConfig(words)))
  {
    ParseJoinClean(words);
  }
}
