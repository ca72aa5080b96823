# LiteLLM gateway client, modelled in Dafny

This project models the request/response core of `LiteLLMService`, the class a
Mautic plugin uses to talk to a LiteLLM (OpenAI-compatible) gateway. It covers:

- the streaming line decoder of `streamCompletion`: reads split on `"\n"`, lines
  trimmed, `data: ` payloads JSON-decoded, `choices[0].delta.content` passed to the
  callback, and `data: [DONE]` ending the whole stream;
- `getConfiguration`: the integration's stored keys, their defaults, and the empty
  result when the integration is missing, unconfigured or throws;
- the "not configured" guard that all four operations apply before their `try`;
- request construction:
  - the system and user message list;
  - the completion payloads and the advanced payload with its `??` defaults;
  - the optional `tools` / `tool_choice` members and `Mautic` header;
  - the transcription URL and its three-part multipart body;
- response validation (PHP `isset` on a fixed path) and the wrapping of every
  failure inside the `try` in a fixed prefix;
- the model catalog:
  - `formatModelName`;
  - the six default models;
  - the ordered display-name → id map, where a repeated name overwrites in place;
  - the fallbacks to the defaults.

Modules, one per file:

- `Wrappers`: `Option` and `Result`.
- `PhpString`: the PHP string built-ins the code relies on. These are `empty` on strings, `trim`, `explode`/`implode`, `rtrim` of one character, `ucfirst` and `str_starts_with`.
- `JsonValue`: decoded JSON as PHP sees it. It covers lookups by name and position, `isset`, `empty`, `is_array` and `foreach` values. `json_decode` is given as a partial function.
- `Configuration`: `getConfiguration` and the guard.
- `Payload`: messages, payloads, headers, the multipart parts and the transcription URL.
- `StreamDecoder`: the line decoder. `DecodeStream` is the nested loop and `DecodeChunks` is its specification.
- `ModelCatalog`: display names, the default catalog, and the ordered map built from a listing. `CollectModels` is the loop and `Catalog` is its specification.
- `Gateway`: the five public operations.
  - Each one returns the request it would send next to its result.
  - The HTTP client's answer is a parameter.

PHP semantics the model follows:

- `empty("0")` is true, and so is the `?:` / `if` truthiness of `"0"`.
- `isset` treats a present `null` as unset.
- `json_decode` lets a repeated member overwrite the earlier one. It answers `null` for text it rejects.
- An integer offset into a decoded object finds the member whose name is that integer's numeral.
- `trim` strips space, tab, LF, CR, NUL and vertical tab.
- `ucfirst` upper-cases ASCII letters only.

The code keeps no carry-over buffer between reads. Each read is split on its
own, so a `data:` line that arrives in two reads is decoded as two fragments
and passes nothing (`StreamDecoder.SplitLineLost`). The model therefore does
not claim that the result is independent of how the body is chunked.

## Model

| member | source | states |
|---|---|---|
| PhpString.Trim | Service/LiteLLMService.php:79 | the result neither starts nor ends with a trim character, is no longer than the input, and a string already free of them at both ends is unchanged |
| PhpString.TrimOnlyEnds | Service/LiteLLMService.php:79 | `trim` keeps a contiguous slice of its input and every character it drops, before or after that slice, is a trim character |
| PhpString.ImplodeExplode | Service/LiteLLMService.php:76 | splitting on the separator loses nothing: imploding the pieces gives the chunk back |
| PhpString.ExplodePiecesClean | Service/LiteLLMService.php:76 | no piece produced by the split contains the separator |
| PhpString.ExplodeFirstPiece | Service/LiteLLMService.php:76 | the text before the first separator is the first piece, and the rest splits on its own |
| PhpString.RTrimChar | Service/LiteLLMService.php:359 | `rtrim($s, '/')` keeps a prefix, removes only slashes, and leaves no trailing slash |
| PhpString.Ucfirst | Service/LiteLLMService.php:192 | length kept, first character upper-cased (ASCII), the rest unchanged |
| JsonValue.MemberAt | Service/LiteLLMService.php:91 | a decoded member not repeated later is the value found under its name (a later repeat wins) |
| JsonValue.MemberSkipsTail | Service/LiteLLMService.php:91 | members after the last one of a name do not change what that name finds |
| JsonValue.Isset | Service/LiteLLMService.php:92 | `isset` on a path holds exactly when every step is defined and the value reached is not null, and yields that value |
| JsonValue.PhpDecode | Service/LiteLLMService.php:91 | text the decoder rejects decodes to null; otherwise the decoder's value |
| JsonValue.Names | Service/LiteLLMService.php:154 | the keys of an ordered map are its entries' names, one per entry, in order |
| JsonValue.FirstAppearancesDistinct | Service/LiteLLMService.php:154 | the names of a list taken in order of first appearance contain no repeat |
| JsonValue.Values | Service/LiteLLMService.php:151 | `foreach` over a decoded list visits its items in order; over a decoded object it visits one value per distinct member name, in order of the name's first appearance, each being the value the name's last occurrence gives |
| Configuration.KeyOr | Service/LiteLLMService.php:113-116 | a stored key is used when present, the default otherwise |
| Configuration.Resolve | Service/LiteLLMService.php:106-124 | a record exactly when the integration exists and says it is configured; endpoint, secret key and pre-prompt are the stored ones or empty, the model the stored one or `gpt-3.5-turbo` |
| Configuration.NotConfigured | Service/LiteLLMService.php:33-35 | the guard lets through only a record whose endpoint and secret key are both neither empty nor `"0"`; a `"0"` credential counts as missing |
| Configuration.ConfiguredIff | Service/LiteLLMService.php:106-124 | the guard passes exactly when the integration is found, configured, and stores a non-empty endpoint and secret key |
| Payload.Conversation | Service/LiteLLMService.php:37-51 | one or two messages; the user's prompt last; a leading system message with the pre-prompt exactly when the pre-prompt is not empty |
| Payload.BuildMessages | Service/LiteLLMService.php:203-217 | the appends produce exactly the conversation |
| Payload.OptionOr | Service/LiteLLMService.php:268-272 | `??`: a present non-null option wins, a missing or null one takes the default |
| Payload.ChatPayloadFields | Service/LiteLLMService.php:53-59 | the completion payload's members, in order: the model, the conversation as `{role, content}` objects, the stream flag, 4000 max tokens and temperature 0.7 |
| Payload.AdvancedPayloadFields | Service/LiteLLMService.php:267-273 | model is the option or the configured model, messages pass unchanged, stream is false, max_tokens defaults to 4000, temperature to 0.7 |
| Payload.AdvancedPayloadNames | Service/LiteLLMService.php:267-279 | the payload's members in order: the five fixed ones, then `tools`, `tool_choice` exactly when tools are given |
| Payload.AdvancedPayloadTools | Service/LiteLLMService.php:275-279 | `tools` and `tool_choice` are present exactly when the tools option is not empty; `tool_choice` defaults to `auto` |
| Payload.BuildAdvancedPayload | Service/LiteLLMService.php:267-279 | the in-place additions produce exactly the advanced payload |
| Payload.ChatHeaders | Service/LiteLLMService.php:282-290 | bearer and JSON headers first; a `Mautic` header with the fingerprint exactly when that option is not empty |
| Payload.BuildChatHeaders | Service/LiteLLMService.php:282-290 | the in-place addition produces exactly those headers |
| Payload.TranscriptionHeaders | Service/LiteLLMService.php:331-337 | bearer header only, plus `Mautic` exactly when a truthy fingerprint is given |
| Payload.BuildTranscriptionHeaders | Service/LiteLLMService.php:331-337 | the in-place addition produces exactly those headers |
| Payload.TranscriptionParts | Service/LiteLLMService.php:340-357 | three parts in order: the model and the language as given, then the audio as file `audio.wav` of type `audio/wav`; only the file part has a file name and content type |
| Payload.TranscriptionUrl | Service/LiteLLMService.php:359 | the URL ends with `/audio/transcriptions` after the endpoint stripped of exactly its trailing slashes |
| StreamDecoder.ClassifySpec | Service/LiteLLMService.php:79-88 | a line is the terminator exactly when it trims to `data: [DONE]`, a data line exactly when it trims to something else starting with `data: `, and its payload is what follows the prefix |
| StreamDecoder.Emission | Service/LiteLLMService.php:90-94 | a payload passes at most one value, exactly when `choices[0].delta.content` is set, and a rejected payload passes nothing |
| StreamDecoder.DecodeStream | Service/LiteLLMService.php:73-99 | the nested read/line loop with its double break passes exactly the values, and reaches exactly the end, the specification gives |
| StreamDecoder.LinesCompose | Service/LiteLLMService.php:78-98 | decoding a line list is decoding its halves in turn, stopping after a terminator |
| StreamDecoder.ChunksCompose | Service/LiteLLMService.php:74-77 | reads are independent: a read sequence decodes as its two parts in turn, with only "done" passed between them |
| StreamDecoder.ChunksAsLines | Service/LiteLLMService.php:74-78 | the stream's result is that of all per-read line lists laid end to end, cut at the first terminator |
| StreamDecoder.DoneIsFinal | Service/LiteLLMService.php:86-88 | once the terminator is read, later reads change nothing |
| StreamDecoder.LinesStopAt | Service/LiteLLMService.php:86-88 | lines after the terminator within a read change nothing |
| StreamDecoder.TerminatorEndsStream | Service/LiteLLMService.php:86-88 | a line trimming to `data: [DONE]` ends the stream: the result is the earlier reads plus the lines up to it |
| StreamDecoder.MalformedLineSkipped | Service/LiteLLMService.php:90-97 | a data line the decoder rejects passes nothing and does not stop the lines after it |
| StreamDecoder.SingleLineChunk | Service/LiteLLMService.php:76 | a read without a line break is decoded as one line |
| StreamDecoder.FirstLine | Service/LiteLLMService.php:76-78 | a read is its first line followed by the rest of the read |
| StreamDecoder.SplitLineLost | Service/LiteLLMService.php:74-77 | a data line delivered in two reads passes nothing; the stream continues as if it had not been sent |
| StreamDecoder.WholeLineDelivered | Service/LiteLLMService.php:74-94 | the same line delivered in one read passes its content before the rest of the read |
| ModelCatalog.TableName | Service/LiteLLMService.php:183-192 | an id has no table name exactly when the table does not list it |
| ModelCatalog.TableNameAt | Service/LiteLLMService.php:183-192 | a listed id finds the name of its first row |
| ModelCatalog.Spaced | Service/LiteLLMService.php:192 | `-` and `_` become spaces, every other character and the length are kept |
| ModelCatalog.FormatModelName | Service/LiteLLMService.php:180-193 | each of the six known ids gets its table name; any other id keeps its length and has no `-` or `_` left |
| ModelCatalog.FormatUnknown | Service/LiteLLMService.php:192 | an unknown id has its first character upper-cased and every other character kept, except `-` and `_`, which become spaces |
| ModelCatalog.DefaultsFormatted | Service/LiteLLMService.php:168-177 | every default entry's display name is the one `formatModelName` gives its id |
| ModelCatalog.PutNames | Service/LiteLLMService.php:154 | assigning a new name appends it; assigning an existing one keeps the key order |
| ModelCatalog.PutGet | Service/LiteLLMService.php:154 | after an assignment the name reads the new id and every other name reads as before |
| ModelCatalog.Contribute | Service/LiteLLMService.php:152-155 | a listed model without a set `id` is skipped; a list or object `id` is a type error; any other set `id` gives an entry with that id, named by `formatModelName` of the string or of PHP's string form of the scalar |
| ModelCatalog.Catalog | Service/LiteLLMService.php:148-157 | the catalog fails exactly when some listed model has a list or object `id`, and then with the type error's message |
| ModelCatalog.CollectModels | Service/LiteLLMService.php:148-157 | the loop over the listing builds exactly the catalog the specification gives, or stops at the type error |
| ModelCatalog.CatalogNames | Service/LiteLLMService.php:148-157 | the catalog's names are the listing's display names in order of first appearance |
| ModelCatalog.CatalogDistinct | Service/LiteLLMService.php:154 | no display name appears twice |
| ModelCatalog.CatalogGet | Service/LiteLLMService.php:154 | a display name maps to the id of the last listed model carrying it |
| ModelCatalog.CatalogEmpty | Service/LiteLLMService.php:150-159 | the catalog is empty exactly when no listed model has an `id` set |
| Gateway.CompletionRequest | Service/LiteLLMService.php:219-235 | POST to the endpoint plus `/chat/completions` with the JSON headers and the payload over the conversation |
| Gateway.CompletionOutcome | Service/LiteLLMService.php:237-248 | success exactly when `choices[0].message.content` is set, with that value; failures carry the AI-service prefix and the inner message |
| Gateway.GetCompletion | Service/LiteLLMService.php:195-249 | unconfigured: the unwrapped guard message and no request; otherwise the completion request and outcome |
| Gateway.StreamCompletion | Service/LiteLLMService.php:29-104 | unconfigured: the guard message; otherwise the streaming request, the decoded callbacks, and a wrapped error only for a failure before the terminator |
| Gateway.ChatRequest | Service/LiteLLMService.php:267-296 | POST with the chat headers and the advanced payload |
| Gateway.ChatOutcome | Service/LiteLLMService.php:298-309 | the whole decoded body exactly when `choices[0].message` is set; otherwise the wrapped message carrying the re-encoded body |
| Gateway.GetChatCompletion | Service/LiteLLMService.php:259-310 | unconfigured: the guard message; otherwise the chat request and outcome |
| Gateway.SpeechRequest | Service/LiteLLMService.php:331-365 | POST to the transcription URL with the transcription headers and the model, language, file parts |
| Gateway.SpeechOutcome | Service/LiteLLMService.php:367-379 | success exactly when `text` is set, with that value; failures carry the speech-to-text prefix |
| Gateway.ArgOr | Service/LiteLLMService.php:322 | an omitted defaulted argument takes its default, a passed one is used as given |
| Gateway.SpeechToText | Service/LiteLLMService.php:322-380 | unconfigured: the guard message; otherwise the speech request, with the language defaulting to `auto` and the model to `whisper-1`, and the outcome |
| Gateway.GuardNotWrapped | Service/LiteLLMService.php:33-35 | the guard message starts with neither failure prefix |
| Gateway.FailuresWrapped | Service/LiteLLMService.php:245-248 | every failure of a configured exchange starts with its operation's prefix |
| Gateway.Override | Service/LiteLLMService.php:130-131 | `?:`: a null, empty or `"0"` argument falls back to the configured value |
| Gateway.ListingCatalog | Service/LiteLLMService.php:146-159 | a 200 listing never yields an empty catalog |
| Gateway.ListingDefaults | Service/LiteLLMService.php:150-159 | without a `data` array, or with no model whose `id` is set, the result is the six defaults |
| Gateway.ListingBuilt | Service/LiteLLMService.php:150-159 | with at least one usable id the result is the built catalog, with its key order and last-wins ids |
| Gateway.GetAvailableModels | Service/LiteLLMService.php:126-166 | empty credentials, a thrown request or a non-200 status give the defaults with the right request; a 200 gives the listing's catalog; a success is never empty |

## Left out

- The HTTP client, its timeouts (120, 60 and 10 seconds) and its body reads are not modelled. Its answer is a parameter: a thrown message, or a status and body. A streamed body is the list of its reads, possibly ending in a read that throws. The 1024-byte read size is not enforced.
- `json_decode` and `json_encode` are parameters: no JSON parser or printer is modelled.
- The `temperature` 0.7 is carried as the exact decimal 7·10⁻¹. Floating-point behaviour is not modelled.
- The logger's `warning` and `error` calls are not modelled. They only write to a log.
- An exception thrown by the `onChunk` callback is caught inside the loop and logged, and the loop goes on. The model does the same: a callback's outcome does not affect the decoding.
- Config/config.php and Integration/AiConnectionIntegration.php are not part of this model. They hold service wiring and constant getters. The integration lookup is the input `IntegrationLookup`.
- Stored integration keys are strings. A key stored as `null` is not modelled (it would take the `??` default).
- ModelCatalog.Contribute: a number or boolean `id` is converted to text by a given function `scalarText`. PHP's number-to-string conversion is not modelled. A list or object `id` raises the type error, which escapes `getAvailableModels` because it is not an `\Exception`.
- PHP's return-type coercion of a non-string `content` or `text` is not modelled. `getCompletion` and `speechToText` return the JSON value found.
- A `Lookup` of a member name in a decoded string or scalar yields nothing. PHP string offsets with numeric names are not modelled, because every path read here ends in a member name.
- The undefined-key warnings that `getAvailableModels` triggers on an empty configuration are not modelled. The missing value reads as empty.
- Buffering a partial line across reads is not modelled, because the code has none. See `StreamDecoder.SplitLineLost`.
