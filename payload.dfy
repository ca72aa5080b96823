/**
 * Request construction: the message list, the JSON payloads, the headers
 * and the multipart body the gateway client sends.
 */
module Payload {
  import opened Wrappers
  import opened PhpString
  import opened JsonValue

  /** One chat message `{role, content}`. */
  datatype Message = Message(role: string, content: string)

  /** A multipart form part: name, contents, and for a file its file name and content type. */
  datatype Part = Part(name: string, contents: string, filename: Option<string>, contentType: Option<string>)

  /** The body of a request: none, a JSON document, or a multipart form. */
  datatype Body = NoBody | JsonBody(payload: Json) | Multipart(parts: seq<Part>)

  /** An HTTP request as handed to the HTTP client (timeouts are not modelled). */
  datatype Request = Request(verb: string, url: string, headers: seq<(string, Json)>, body: Body)

  const MaxTokens := JNum(4000, 0)
  /** The literal 0.7, carried as an exact decimal. */
  const Temperature := JNum(7, -1)
  const ChatPath := "/chat/completions"
  const TranscriptionPath := "/audio/transcriptions"

  /**
   * The conversation sent by `getCompletion` and `streamCompletion`: the
   * user's prompt last, preceded by a system message exactly when the
   * configured pre-prompt is not empty.
   */
  function Conversation(prePrompt: string, prompt: string): (ms: seq<Message>)
    ensures 1 <= |ms| <= 2
    ensures ms[|ms| - 1] == Message("user", prompt)
    ensures |ms| == 2 <==> !IsEmpty(prePrompt)
    ensures |ms| == 2 ==> ms[0] == Message("system", prePrompt)
  {
    (if IsEmpty(prePrompt) then [] else [Message("system", prePrompt)]) + [Message("user", prompt)]
  }

  /** Builds the conversation by appending to an initially empty list. */
  method BuildMessages(prePrompt: string, prompt: string) returns (ms: seq<Message>)
    ensures ms == Conversation(prePrompt, prompt)
  {
    ms := [];
    if !IsEmpty(prePrompt) {
      ms := ms + [Message("system", prePrompt)];
    }
    ms := ms + [Message("user", prompt)];
  }

  function MessageJson(m: Message): Json {
    JObj([("role", JStr(m.role)), ("content", JStr(m.content))])
  }

  function MessagesJson(ms: seq<Message>): (r: seq<Json>)
    ensures |r| == |ms| && forall i :: 0 <= i < |ms| ==> r[i] == MessageJson(ms[i])
  {
    if ms == [] then [] else [MessageJson(ms[0])] + MessagesJson(ms[1..])
  }

  /** The payload of `getCompletion` / `streamCompletion`, which differ only in `stream`. */
  function ChatPayload(model: string, ms: seq<Message>, stream: bool): Json {
    JObj([("model", JStr(model)),
          ("messages", JArr(MessagesJson(ms))),
          ("stream", JBool(stream)),
          ("max_tokens", MaxTokens),
          ("temperature", Temperature)])
  }

  /** `$options[$name] ?? $default`: a missing or null option takes the default. */
  function OptionOr(options: map<string, Json>, name: string, default: Json): (v: Json)
    ensures name in options && options[name] != JNull ==> v == options[name]
    ensures name !in options || options[name] == JNull ==> v == default
  {
    if name in options && options[name] != JNull then options[name] else default
  }

  /** `!empty($options['tools'])`. */
  predicate HasTools(options: map<string, Json>) {
    "tools" in options && !IsEmptyValue(options["tools"])
  }

  /** The five members every advanced payload starts with. */
  function FixedMembers(configModel: string, messages: Json, options: map<string, Json>): seq<(string, Json)> {
    [("model", OptionOr(options, "model", JStr(configModel))),
     ("messages", messages),
     ("stream", JBool(false)),
     ("max_tokens", OptionOr(options, "max_tokens", MaxTokens)),
     ("temperature", OptionOr(options, "temperature", Temperature))]
  }

  /** `tools` and `tool_choice`, sent only when the caller's tools are not empty. */
  function ToolMembers(options: map<string, Json>): seq<(string, Json)> {
    if HasTools(options)
    then [("tools", options["tools"]), ("tool_choice", OptionOr(options, "tool_choice", JStr("auto")))]
    else []
  }

  /** The payload of `getChatCompletion`; `AdvancedPayloadFields` states what it holds. */
  function AdvancedPayload(configModel: string, messages: Json, options: map<string, Json>): Json {
    JObj(FixedMembers(configModel, messages, options) + ToolMembers(options))
  }

  /**
   * The advanced payload carries the caller's messages unchanged and each
   * option or its default: the configured model, 4000 tokens, 0.7.
   */
  lemma AdvancedPayloadFields(configModel: string, messages: Json, options: map<string, Json>)
    ensures Lookup(AdvancedPayload(configModel, messages, options), Name("model")) ==
              Some(OptionOr(options, "model", JStr(configModel)))
    ensures Lookup(AdvancedPayload(configModel, messages, options), Name("messages")) == Some(messages)
    ensures Lookup(AdvancedPayload(configModel, messages, options), Name("stream")) == Some(JBool(false))
    ensures Lookup(AdvancedPayload(configModel, messages, options), Name("max_tokens")) ==
              Some(OptionOr(options, "max_tokens", MaxTokens))
    ensures Lookup(AdvancedPayload(configModel, messages, options), Name("temperature")) ==
              Some(OptionOr(options, "temperature", Temperature))
  {
    var fixed := FixedMembers(configModel, messages, options);
    var tools := ToolMembers(options);
    FixedFound(fixed);
    MemberSkipsTail(fixed, tools, "model");
    MemberSkipsTail(fixed, tools, "messages");
    MemberSkipsTail(fixed, tools, "stream");
    MemberSkipsTail(fixed, tools, "max_tokens");
    MemberSkipsTail(fixed, tools, "temperature");
  }

  /** Each of the five fixed members is found under its name. */
  /**
   * The completion payload carries the model, the conversation as
   * `{role, content}` objects, the stream flag, 4000 tokens and temperature 0.7.
   */
  lemma ChatPayloadFields(model: string, ms: seq<Message>, stream: bool)
    ensures ChatPayload(model, ms, stream).JObj?
    ensures var members := ChatPayload(model, ms, stream).members;
      && Names(members) == ["model", "messages", "stream", "max_tokens", "temperature"]
      && Member(members, "model") == Some(JStr(model))
      && Member(members, "messages") == Some(JArr(MessagesJson(ms)))
      && Member(members, "stream") == Some(JBool(stream))
      && Member(members, "max_tokens") == Some(MaxTokens)
      && Member(members, "temperature") == Some(Temperature)
  {
    var members := ChatPayload(model, ms, stream).members;
    FixedFound(members);
    assert Names(members) == ["model", "messages", "stream", "max_tokens", "temperature"];
  }

  lemma FixedFound(fixed: seq<(string, Json)>)
    requires |fixed| == 5
    requires fixed[0].0 == "model" && fixed[1].0 == "messages" && fixed[2].0 == "stream"
    requires fixed[3].0 == "max_tokens" && fixed[4].0 == "temperature"
    ensures Member(fixed, "model") == Some(fixed[0].1)
    ensures Member(fixed, "messages") == Some(fixed[1].1)
    ensures Member(fixed, "stream") == Some(fixed[2].1)
    ensures Member(fixed, "max_tokens") == Some(fixed[3].1)
    ensures Member(fixed, "temperature") == Some(fixed[4].1)
  {
    MemberAt(fixed, 0);
    MemberAt(fixed, 1);
    MemberAt(fixed, 2);
    MemberAt(fixed, 3);
  }

  /** The payload's members, in order: the five fixed ones, then the two tool members when tools are given. */
  lemma AdvancedPayloadNames(configModel: string, messages: Json, options: map<string, Json>)
    ensures Names(AdvancedPayload(configModel, messages, options).members) ==
              ["model", "messages", "stream", "max_tokens", "temperature"] +
              (if HasTools(options) then ["tools", "tool_choice"] else [])
  {
    var fixed := FixedMembers(configModel, messages, options);
    var tools := ToolMembers(options);
    NamesAppend(fixed, tools);
  }

  lemma {:induction false} NamesAppend(a: seq<(string, Json)>, b: seq<(string, Json)>)
    ensures Names(a + b) == Names(a) + Names(b)
  {
    if a != [] {
      assert (a + b)[1..] == a[1..] + b;
      NamesAppend(a[1..], b);
    } else {
      assert a + b == b;
    }
  }

  /**
   * `tools` and `tool_choice` (default "auto") are sent exactly when the
   * caller's tools are not empty; otherwise neither is.
   */
  lemma AdvancedPayloadTools(configModel: string, messages: Json, options: map<string, Json>)
    ensures var p := AdvancedPayload(configModel, messages, options);
      && (Lookup(p, Name("tools")).Some? <==> HasTools(options))
      && (Lookup(p, Name("tool_choice")).Some? <==> HasTools(options))
      && (HasTools(options) ==>
            Lookup(p, Name("tools")) == Some(options["tools"]) &&
            Lookup(p, Name("tool_choice")) == Some(OptionOr(options, "tool_choice", JStr("auto"))))
  {
    var fixed := FixedMembers(configModel, messages, options);
    var members := fixed + ToolMembers(options);
    if HasTools(options) {
      ToolsPresent(fixed, options["tools"], OptionOr(options, "tool_choice", JStr("auto")));
    } else {
      assert members == fixed;
      MemberAbsent(fixed, "tools");
      MemberAbsent(fixed, "tool_choice");
    }
  }

  lemma ToolsPresent(fixed: seq<(string, Json)>, tools: Json, choice: Json)
    ensures Member(fixed + [("tools", tools), ("tool_choice", choice)], "tools") == Some(tools)
    ensures Member(fixed + [("tools", tools), ("tool_choice", choice)], "tool_choice") == Some(choice)
  {
    var members := fixed + [("tools", tools), ("tool_choice", choice)];
    assert members[..|members| - 1] == fixed + [("tools", tools)];
  }

  /** Builds the advanced payload, adding the tool members in place when tools are given. */
  method BuildAdvancedPayload(configModel: string, messages: Json, options: map<string, Json>) returns (p: Json)
    ensures p == AdvancedPayload(configModel, messages, options)
  {
    var members := [("model", OptionOr(options, "model", JStr(configModel))),
                    ("messages", messages),
                    ("stream", JBool(false)),
                    ("max_tokens", OptionOr(options, "max_tokens", MaxTokens)),
                    ("temperature", OptionOr(options, "temperature", Temperature))];
    if HasTools(options) {
      members := members + [("tools", options["tools"])];
      members := members + [("tool_choice", OptionOr(options, "tool_choice", JStr("auto")))];
    }
    p := JObj(members);
  }

  /** The bearer-token and JSON content-type headers of the chat and model-list requests. */
  function JsonHeaders(secretKey: string): seq<(string, Json)> {
    [("Authorization", JStr("Bearer " + secretKey)), ("Content-Type", JStr("application/json"))]
  }

  /** `!empty($options['mautic_fingerprint'])`. */
  predicate HasFingerprintOption(options: map<string, Json>) {
    "mautic_fingerprint" in options && !IsEmptyValue(options["mautic_fingerprint"])
  }

  /**
   * The headers of `getChatCompletion`: the JSON headers, then a `Mautic`
   * header carrying the fingerprint exactly when that option is not empty.
   */
  function ChatHeaders(secretKey: string, options: map<string, Json>): (h: seq<(string, Json)>)
    ensures 2 <= |h| <= 3 && h[..2] == JsonHeaders(secretKey)
    ensures |h| == 3 <==> HasFingerprintOption(options)
    ensures |h| == 3 ==> h[2] == ("Mautic", options["mautic_fingerprint"])
  {
    JsonHeaders(secretKey) +
    (if HasFingerprintOption(options) then [("Mautic", options["mautic_fingerprint"])] else [])
  }

  /** Builds the chat headers, adding `Mautic` in place. */
  method BuildChatHeaders(secretKey: string, options: map<string, Json>) returns (h: seq<(string, Json)>)
    ensures h == ChatHeaders(secretKey, options)
  {
    h := JsonHeaders(secretKey);
    if HasFingerprintOption(options) {
      h := h + [("Mautic", options["mautic_fingerprint"])];
    }
  }

  /**
   * The headers of `speechToText`: only the bearer token (the multipart
   * boundary sets the content type), then `Mautic` exactly when a
   * fingerprint is given and is truthy.
   */
  function TranscriptionHeaders(secretKey: string, fingerprint: Option<string>): (h: seq<(string, Json)>)
    ensures 1 <= |h| <= 2 && h[0] == ("Authorization", JStr("Bearer " + secretKey))
    ensures |h| == 2 <==> fingerprint.Some? && !IsEmpty(fingerprint.value)
    ensures |h| == 2 ==> h[1] == ("Mautic", JStr(fingerprint.value))
  {
    [("Authorization", JStr("Bearer " + secretKey))] +
    (if fingerprint.Some? && !IsEmpty(fingerprint.value) then [("Mautic", JStr(fingerprint.value))] else [])
  }

  /** Builds the transcription headers, adding `Mautic` in place. */
  method BuildTranscriptionHeaders(secretKey: string, fingerprint: Option<string>) returns (h: seq<(string, Json)>)
    ensures h == TranscriptionHeaders(secretKey, fingerprint)
  {
    h := [("Authorization", JStr("Bearer " + secretKey))];
    if fingerprint.Some? && !IsEmpty(fingerprint.value) {
      h := h + [("Mautic", JStr(fingerprint.value))];
    }
  }

  /** The three multipart parts of a transcription request, in order: model, language, file. */
  function TranscriptionParts(model: string, language: string, audio: string): (ps: seq<Part>)
    ensures |ps| == 3
    ensures ps[0].name == "model" && ps[0].contents == model
    ensures ps[1].name == "language" && ps[1].contents == language
    ensures ps[2].name == "file" && ps[2].contents == audio
    ensures ps[2].filename == Some("audio.wav") && ps[2].contentType == Some("audio/wav")
    ensures forall i :: 0 <= i < 2 ==> ps[i].filename.None? && ps[i].contentType.None?
  {
    [Part("model", model, None, None),
     Part("language", language, None, None),
     Part("file", audio, Some("audio.wav"), Some("audio/wav"))]
  }

  /**
   * The transcription URL: the endpoint without its trailing slashes, then
   * `/audio/transcriptions`, so the two never meet in a double slash.
   */
  function TranscriptionUrl(endpoint: string): (u: string)
    ensures |u| >= |TranscriptionPath| && u[|u| - |TranscriptionPath|..] == TranscriptionPath
    ensures var base := u[..|u| - |TranscriptionPath|];
            StartsWith(endpoint, base) &&
            (forall i :: |base| <= i < |endpoint| ==> endpoint[i] == '/') &&
            (base != [] ==> base[|base| - 1] != '/')
  {
    var base := RTrimChar(endpoint, '/');
    assert (base + TranscriptionPath)[..|base|] == base;
    base + TranscriptionPath
  }
}
