/**
 * The four gateway operations of `LiteLLMService` and the model listing:
 * each resolves the configuration, applies the "not configured" guard
 * outside its `try`, builds its request, and turns what the transport
 * answers into a result or a wrapped error message.
 *
 * The HTTP client is not modelled: its answer to the request is a
 * parameter (`HttpOutcome` / `StreamOutcome`), and the request the
 * operation would send is returned next to the result. `json_decode` and
 * `json_encode` are parameters too.
 */
module Gateway {
  import opened Wrappers
  import opened PhpString
  import opened JsonValue
  import opened Configuration
  import opened Payload
  import opened StreamDecoder
  import opened ModelCatalog

  /**
   * The message of the "not configured" guard, which names the two settings
   * it needs. The subject is a constant of its own only so that
   * `GuardInitial` can read the message's first character off a short literal.
   */
  const NotConfiguredMessage := GuardSubject + " must be configured"
  const GuardSubject := "LiteLLM endpoint and secret key"
  const ServicePrefix := "Failed to communicate with AI service: "
  const SpeechPrefix := "Failed to communicate with speech-to-text service: "
  const InvalidCompletion := "Invalid response from LiteLLM API"
  const InvalidChatPrefix := "Invalid API response: "
  const InvalidTranscription := "Invalid response from speech-to-text service"
  const ModelsPath := "/models"

  /** `speechToText`'s default language and model. */
  const DefaultLanguage := "auto"
  const DefaultSpeechModel := "whisper-1"

  /** A defaulted parameter: the argument when one is passed, the default when it is omitted. */
  function ArgOr(arg: Option<string>, default: string): (v: string)
    ensures arg.Some? ==> v == arg.value
    ensures arg.None? ==> v == default
  {
    if arg.Some? then arg.value else default
  }

  /** `$responseData['choices'][0]['message']['content']`. */
  const CompletionPath := [Name("choices"), Index(0), Name("message"), Name("content")]
  /** `$responseData['choices'][0]['message']`. */
  const ChatMessagePath := [Name("choices"), Index(0), Name("message")]
  /** `$responseData['text']`. */
  const TextPath := [Name("text")]
  /** `$data['data']` of the model listing. */
  const ListingPath := [Name("data")]

  /** What the HTTP client does with a request: throws (with its message) or answers. */
  datatype HttpOutcome = Raised(message: string) | Response(status: int, body: string)

  /**
   * What a streamed request yields: the client throws before a body exists,
   * or the body delivers its reads in order, possibly ending in a read that
   * throws (with its message) instead of reaching the end.
   */
  datatype StreamOutcome =
    | StreamRaised(message: string)
    | StreamBody(chunks: seq<string>, readFailure: Option<string>)

  /** The request of `getCompletion` and `streamCompletion`; only `stream` differs. */
  function CompletionRequest(s: Settings, prompt: string, stream: bool): (req: Request)
    requires s.Settings?
    ensures req.url == s.endpoint + ChatPath && req.headers == JsonHeaders(s.secretKey)
    ensures req.body == JsonBody(ChatPayload(s.model, Conversation(s.prePrompt, prompt), stream))
  {
    Request("POST", s.endpoint + ChatPath, JsonHeaders(s.secretKey),
            JsonBody(ChatPayload(s.model, Conversation(s.prePrompt, prompt), stream)))
  }

  /**
   * The result of `getCompletion` for the transport's answer: the message
   * content exactly when it is set in the decoded body; any failure is the
   * AI-service prefix followed by the inner message.
   */
  function CompletionOutcome(answer: HttpOutcome, decode: string -> Option<Json>): (r: Result<Json, string>)
    ensures answer.Raised? ==> r == Failure(ServicePrefix + answer.message)
    ensures answer.Response? ==>
              (r.Success? <==> Isset(PhpDecode(decode, answer.body), CompletionPath).Some?)
    ensures r.Success? ==> answer.Response? && Isset(PhpDecode(decode, answer.body), CompletionPath) == Some(r.value)
    ensures answer.Response? && r.Failure? ==> r.error == ServicePrefix + InvalidCompletion
  {
    match answer
    case Raised(m) => Failure(ServicePrefix + m)
    case Response(_, body) =>
      match Isset(PhpDecode(decode, body), CompletionPath)
      case Some(content) => Success(content)
      case None => Failure(ServicePrefix + InvalidCompletion)
  }

  /** `getCompletion($prompt)`. */
  method GetCompletion(lookup: IntegrationLookup, prompt: string, answer: HttpOutcome,
                       decode: string -> Option<Json>)
    returns (request: Option<Request>, result: Result<Json, string>)
    ensures NotConfigured(Resolve(lookup)) ==> request.None? && result == Failure(NotConfiguredMessage)
    ensures !NotConfigured(Resolve(lookup)) ==>
              request == Some(CompletionRequest(Resolve(lookup), prompt, false)) &&
              result == CompletionOutcome(answer, decode)
  {
    var config := Resolve(lookup);
    if NotConfigured(config) {
      return None, Failure(NotConfiguredMessage);
    }
    var messages := BuildMessages(config.prePrompt, prompt);
    var payload := ChatPayload(config.model, messages, false);
    request := Some(Request("POST", config.endpoint + ChatPath, JsonHeaders(config.secretKey), JsonBody(payload)));
    match answer {
      case Raised(m) =>
        result := Failure(ServicePrefix + m);
      case Response(_, body) =>
        var data := PhpDecode(decode, body);
        var content := Isset(data, CompletionPath);
        if content.None? {
          result := Failure(ServicePrefix + InvalidCompletion);
        } else {
          result := Success(content.value);
        }
    }
  }

  /**
   * `streamCompletion($prompt, $onChunk)`: the values passed to the
   * callback, in order, and the error it ends with, if any. A read that
   * throws after the terminator is never made; one that throws before it
   * ends the stream with the wrapped message, after the callbacks so far.
   */
  method StreamCompletion(lookup: IntegrationLookup, prompt: string, answer: StreamOutcome,
                          decode: string -> Option<Json>)
    returns (request: Option<Request>, emitted: seq<Json>, error: Option<string>)
    ensures NotConfigured(Resolve(lookup)) ==>
              request.None? && emitted == [] && error == Some(NotConfiguredMessage)
    ensures !NotConfigured(Resolve(lookup)) ==> request == Some(CompletionRequest(Resolve(lookup), prompt, true))
    ensures !NotConfigured(Resolve(lookup)) && answer.StreamRaised? ==>
              emitted == [] && error == Some(ServicePrefix + answer.message)
    ensures !NotConfigured(Resolve(lookup)) && answer.StreamBody? ==>
              var d := DecodeChunks(answer.chunks, decode);
              emitted == d.emitted &&
              error == (if !d.done && answer.readFailure.Some? then Some(ServicePrefix + answer.readFailure.value) else None)
  {
    var config := Resolve(lookup);
    if NotConfigured(config) {
      return None, [], Some(NotConfiguredMessage);
    }
    var messages := BuildMessages(config.prePrompt, prompt);
    var payload := ChatPayload(config.model, messages, true);
    request := Some(Request("POST", config.endpoint + ChatPath, JsonHeaders(config.secretKey), JsonBody(payload)));
    match answer {
      case StreamRaised(m) =>
        emitted, error := [], Some(ServicePrefix + m);
      case StreamBody(chunks, readFailure) =>
        var done;
        emitted, done := DecodeStream(chunks, decode);
        error := None;
        if !done && readFailure.Some? {
          error := Some(ServicePrefix + readFailure.value);
        }
    }
  }

  /** The headers and payload `getChatCompletion` sends. */
  function ChatRequest(s: Settings, messages: Json, options: map<string, Json>): (req: Request)
    requires s.Settings?
    ensures req.url == s.endpoint + ChatPath && req.headers == ChatHeaders(s.secretKey, options)
    ensures req.body == JsonBody(AdvancedPayload(s.model, messages, options))
  {
    Request("POST", s.endpoint + ChatPath, ChatHeaders(s.secretKey, options),
            JsonBody(AdvancedPayload(s.model, messages, options)))
  }

  /**
   * The result of `getChatCompletion`: the whole decoded body exactly when
   * its first choice's message is set; otherwise the wrapped message that
   * carries the re-encoded body.
   */
  function ChatOutcome(answer: HttpOutcome, decode: string -> Option<Json>, encode: Json -> string): (r: Result<Json, string>)
    ensures answer.Raised? ==> r == Failure(ServicePrefix + answer.message)
    ensures answer.Response? ==>
              (r.Success? <==> Isset(PhpDecode(decode, answer.body), ChatMessagePath).Some?)
    ensures r.Success? ==> answer.Response? && r.value == PhpDecode(decode, answer.body) && IsArray(r.value)
    ensures answer.Response? && r.Failure? ==>
              r.error == ServicePrefix + InvalidChatPrefix + encode(PhpDecode(decode, answer.body))
  {
    match answer
    case Raised(m) => Failure(ServicePrefix + m)
    case Response(_, body) =>
      var data := PhpDecode(decode, body);
      if Isset(data, ChatMessagePath).Some? then Success(data)
      else Failure(ServicePrefix + InvalidChatPrefix + encode(data))
  }

  /** `getChatCompletion($messages, $options)`; `$messages` is declared `array`. */
  method GetChatCompletion(lookup: IntegrationLookup, messages: Json, options: map<string, Json>,
                           answer: HttpOutcome, decode: string -> Option<Json>, encode: Json -> string)
    returns (request: Option<Request>, result: Result<Json, string>)
    requires IsArray(messages)
    ensures NotConfigured(Resolve(lookup)) ==> request.None? && result == Failure(NotConfiguredMessage)
    ensures !NotConfigured(Resolve(lookup)) ==>
              request == Some(ChatRequest(Resolve(lookup), messages, options)) &&
              result == ChatOutcome(answer, decode, encode)
  {
    var config := Resolve(lookup);
    if NotConfigured(config) {
      return None, Failure(NotConfiguredMessage);
    }
    var payload := BuildAdvancedPayload(config.model, messages, options);
    var headers := BuildChatHeaders(config.secretKey, options);
    request := Some(Request("POST", config.endpoint + ChatPath, headers, JsonBody(payload)));
    match answer {
      case Raised(m) =>
        result := Failure(ServicePrefix + m);
      case Response(_, body) =>
        var data := PhpDecode(decode, body);
        if Isset(data, ChatMessagePath).None? {
          result := Failure(ServicePrefix + InvalidChatPrefix + encode(data));
        } else {
          result := Success(data);
        }
    }
  }

  /** The multipart request `speechToText` sends. */
  function SpeechRequest(s: Settings, audio: string, language: string, model: string,
                         fingerprint: Option<string>): (req: Request)
    requires s.Settings?
    ensures req.url == TranscriptionUrl(s.endpoint)
    ensures req.headers == TranscriptionHeaders(s.secretKey, fingerprint)
    ensures req.body == Multipart(TranscriptionParts(model, language, audio))
  {
    Request("POST", TranscriptionUrl(s.endpoint), TranscriptionHeaders(s.secretKey, fingerprint),
            Multipart(TranscriptionParts(model, language, audio)))
  }

  /**
   * The result of `speechToText`: the `text` member exactly when it is set;
   * any failure is the speech-to-text prefix followed by the inner message.
   */
  function SpeechOutcome(answer: HttpOutcome, decode: string -> Option<Json>): (r: Result<Json, string>)
    ensures answer.Raised? ==> r == Failure(SpeechPrefix + answer.message)
    ensures answer.Response? ==> (r.Success? <==> Isset(PhpDecode(decode, answer.body), TextPath).Some?)
    ensures r.Success? ==> answer.Response? && Isset(PhpDecode(decode, answer.body), TextPath) == Some(r.value)
    ensures answer.Response? && r.Failure? ==> r.error == SpeechPrefix + InvalidTranscription
  {
    match answer
    case Raised(m) => Failure(SpeechPrefix + m)
    case Response(_, body) =>
      match Isset(PhpDecode(decode, body), TextPath)
      case Some(text) => Success(text)
      case None => Failure(SpeechPrefix + InvalidTranscription)
  }

  /**
   * `speechToText($audio, $language, $model, $mauticFingerprint)`. An
   * omitted language or model (`None`) takes its default, `auto` and
   * `whisper-1`.
   */
  method SpeechToText(lookup: IntegrationLookup, audio: string, language: Option<string>, model: Option<string>,
                      fingerprint: Option<string>, answer: HttpOutcome, decode: string -> Option<Json>)
    returns (request: Option<Request>, result: Result<Json, string>)
    ensures NotConfigured(Resolve(lookup)) ==> request.None? && result == Failure(NotConfiguredMessage)
    ensures !NotConfigured(Resolve(lookup)) ==>
              request == Some(SpeechRequest(Resolve(lookup), audio, ArgOr(language, DefaultLanguage),
                                            ArgOr(model, DefaultSpeechModel), fingerprint)) &&
              result == SpeechOutcome(answer, decode)
  {
    var config := Resolve(lookup);
    if NotConfigured(config) {
      return None, Failure(NotConfiguredMessage);
    }
    var lang := if language.Some? then language.value else DefaultLanguage;
    var engine := if model.Some? then model.value else DefaultSpeechModel;
    var headers := BuildTranscriptionHeaders(config.secretKey, fingerprint);
    var parts := TranscriptionParts(engine, lang, audio);
    var url := TranscriptionUrl(config.endpoint);
    request := Some(Request("POST", url, headers, Multipart(parts)));
    match answer {
      case Raised(m) =>
        result := Failure(SpeechPrefix + m);
      case Response(_, body) =>
        var data := PhpDecode(decode, body);
        var text := Isset(data, TextPath);
        if text.None? {
          result := Failure(SpeechPrefix + InvalidTranscription);
        } else {
          result := Success(text.value);
        }
    }
  }

  /**
   * The guard's message is never wrapped: it starts with neither prefix, so
   * a caller can tell a missing configuration from a failed exchange.
   */
  lemma GuardNotWrapped()
    ensures !StartsWith(NotConfiguredMessage, ServicePrefix)
    ensures !StartsWith(NotConfiguredMessage, SpeechPrefix)
  {
    GuardInitial();
    DiffersAt(NotConfiguredMessage, ServicePrefix);
    assert |SpeechPrefix| > |NotConfiguredMessage|;
  }

  lemma GuardInitial()
    ensures NotConfiguredMessage[0] == 'L'
  {
    assert GuardSubject[0] == 'L';
  }

  lemma DiffersAt(s: string, p: string)
    requires s != [] && p != [] && s[0] != p[0]
    ensures !StartsWith(s, p)
  {
  }

  /** Every failure of a configured exchange carries its operation's prefix. */
  lemma FailuresWrapped(answer: HttpOutcome, decode: string -> Option<Json>, encode: Json -> string)
    ensures CompletionOutcome(answer, decode).Failure? ==> StartsWith(CompletionOutcome(answer, decode).error, ServicePrefix)
    ensures ChatOutcome(answer, decode, encode).Failure? ==> StartsWith(ChatOutcome(answer, decode, encode).error, ServicePrefix)
    ensures SpeechOutcome(answer, decode).Failure? ==> StartsWith(SpeechOutcome(answer, decode).error, SpeechPrefix)
  {
    PrefixOf(ServicePrefix, InvalidCompletion);
    PrefixOf(SpeechPrefix, InvalidTranscription);
    if answer.Raised? {
      PrefixOf(ServicePrefix, answer.message);
      PrefixOf(SpeechPrefix, answer.message);
    } else {
      var data := PhpDecode(decode, answer.body);
      PrefixOf(ServicePrefix, InvalidChatPrefix + encode(data));
      assert ServicePrefix + InvalidChatPrefix + encode(data) == ServicePrefix + (InvalidChatPrefix + encode(data));
    }
  }

  lemma PrefixOf(p: string, s: string)
    ensures StartsWith(p + s, p)
  {
    assert (p + s)[..|p|] == p;
  }

  /** `$override ?: $configured`: a null, "" or "0" override falls back to the configuration. */
  function Override(arg: Option<string>, configured: string): (v: string)
    ensures arg.Some? && !IsEmpty(arg.value) ==> v == arg.value
    ensures arg.None? || IsEmpty(arg.value) ==> v == configured
  {
    if arg.Some? && !IsEmpty(arg.value) then arg.value else configured
  }

  /** `$config['endpoint']`: undefined in the empty array, which reads as empty. */
  function EndpointOf(s: Settings): string {
    if s.Settings? then s.endpoint else ""
  }

  /** `$config['secret_key']`, likewise. */
  function SecretOf(s: Settings): string {
    if s.Settings? then s.secretKey else ""
  }

  /**
   * The catalog a decoded 200 listing gives: the models of its `data` list
   * when that is an array and yields at least one entry, the defaults
   * otherwise, or the type error an unusable id raises.
   */
  function ListingCatalog(data: Json, scalarText: Json -> string): (r: Result<seq<(string, Json)>, string>)
    ensures r.Success? ==> r.value != []
  {
    match Isset(data, ListingPath)
    case Some(list) =>
      if IsArray(list) then
        match Catalog(Values(list), scalarText)
        case Failure(e) => Failure(e)
        case Success(m) => if m != [] then Success(m) else Success(DefaultModels)
      else Success(DefaultModels)
    case None => Success(DefaultModels)
  }

  /** A listing without a usable `data` array, or whose models all lack an `id`, gives the defaults. */
  lemma ListingDefaults(data: Json, scalarText: Json -> string)
    requires Isset(data, ListingPath).None? || !IsArray(Isset(data, ListingPath).value) ||
             forall i :: 0 <= i < |Values(Isset(data, ListingPath).value)| ==>
               Isset(Values(Isset(data, ListingPath).value)[i], [Name("id")]).None?
    ensures ListingCatalog(data, scalarText) == Success(DefaultModels)
  {
    var list := Isset(data, ListingPath);
    if list.Some? && IsArray(list.value) {
      NoIdNoFault(Values(list.value), scalarText);
      CatalogEmpty(Values(list.value), scalarText);
    }
  }

  /** Models without an `id` never raise the type error. */
  lemma {:induction false} NoIdNoFault(models: seq<Json>, scalarText: Json -> string)
    requires forall i :: 0 <= i < |models| ==> Isset(models[i], [Name("id")]).None?
    ensures Catalog(models, scalarText).Success?
  {
    if models != [] {
      NoIdNoFault(models[..|models| - 1], scalarText);
      assert Isset(models[|models| - 1], [Name("id")]).None?;
    }
  }

  /**
   * A listing with at least one model whose `id` is set, and no type error,
   * gives the built catalog: names in order of first appearance, each
   * naming the id of the last model carrying it.
   */
  lemma ListingBuilt(data: Json, scalarText: Json -> string, name: string)
    requires Isset(data, ListingPath).Some? && IsArray(Isset(data, ListingPath).value)
    requires Catalog(Values(Isset(data, ListingPath).value), scalarText).Success?
    requires exists i :: 0 <= i < |Values(Isset(data, ListingPath).value)| &&
               Isset(Values(Isset(data, ListingPath).value)[i], [Name("id")]).Some?
    ensures var models := Values(Isset(data, ListingPath).value);
      && ListingCatalog(data, scalarText) == Catalog(models, scalarText)
      && Names(ListingCatalog(data, scalarText).value) == FirstAppearances(EntryNames(models, scalarText))
      && Get(ListingCatalog(data, scalarText).value, name) == LastIdNamed(models, name, scalarText)
  {
    var models := Values(Isset(data, ListingPath).value);
    CatalogEmpty(models, scalarText);
    CatalogNames(models, scalarText);
    CatalogGet(models, name, scalarText);
  }

  /** `getAvailableModels($endpoint, $secretKey)`. */
  method GetAvailableModels(lookup: IntegrationLookup, endpointArg: Option<string>, secretArg: Option<string>,
                            answer: HttpOutcome, decode: string -> Option<Json>, scalarText: Json -> string)
    returns (request: Option<Request>, result: Result<seq<(string, Json)>, string>)
    ensures var endpoint := Override(endpointArg, EndpointOf(Resolve(lookup)));
            var secret := Override(secretArg, SecretOf(Resolve(lookup)));
      && (IsEmpty(endpoint) || IsEmpty(secret) ==> request.None? && result == Success(DefaultModels))
      && (!IsEmpty(endpoint) && !IsEmpty(secret) ==>
            request == Some(Request("GET", endpoint + ModelsPath, JsonHeaders(secret), NoBody)))
      && (!IsEmpty(endpoint) && !IsEmpty(secret) && (answer.Raised? || answer.status != 200) ==>
            result == Success(DefaultModels))
      && (!IsEmpty(endpoint) && !IsEmpty(secret) && answer.Response? && answer.status == 200 ==>
            result == ListingCatalog(PhpDecode(decode, answer.body), scalarText))
    ensures result.Success? ==> result.value != []
  {
    var config := Resolve(lookup);
    var endpoint := Override(endpointArg, EndpointOf(config));
    var secret := Override(secretArg, SecretOf(config));
    if IsEmpty(endpoint) || IsEmpty(secret) {
      return None, Success(DefaultModels);
    }
    request := Some(Request("GET", endpoint + ModelsPath, JsonHeaders(secret), NoBody));
    result := Success(DefaultModels);
    if answer.Response? && answer.status == 200 {
      var data := PhpDecode(decode, answer.body);
      var list := Isset(data, ListingPath);
      if list.Some? && IsArray(list.value) {
        var built := CollectModels(Values(list.value), scalarText);
        if built.Failure? {
          return request, Failure(built.error);
        }
        if built.value != [] {
          result := built;
        }
      }
    }
  }
}
