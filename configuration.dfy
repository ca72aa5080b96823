/**
 * `getConfiguration`: reading the AiConnection integration's stored keys,
 * and the "not configured" guard every gateway operation applies first.
 */
module Configuration {
  import opened PhpString

  /** The model used when nothing else names one. */
  const DefaultModel := "gpt-3.5-turbo"

  /**
   * What the integration lookup yields: no integration object, an
   * integration with its `isConfigured()` answer and its stored keys, or an
   * exception thrown by the lookup with its message.
   */
  datatype IntegrationLookup =
    | Absent
    | Found(configured: bool, keys: map<string, string>)
    | Raised(message: string)

  /**
   * The resolved configuration: the empty array, or the four-field record
   * with its defaults applied.
   */
  datatype Settings =
    | Unset
    | Settings(endpoint: string, secretKey: string, model: string, prePrompt: string)

  /** `$keys[$name] ?? $default`. */
  function KeyOr(keys: map<string, string>, name: string, default: string): (v: string)
    ensures name in keys ==> v == keys[name]
    ensures name !in keys ==> v == default
  {
    if name in keys then keys[name] else default
  }

  /**
   * `getConfiguration()`: never throws. A missing or unconfigured
   * integration, or a lookup that throws, gives the empty array.
   */
  function Resolve(lookup: IntegrationLookup): (s: Settings)
    ensures s.Settings? <==> lookup.Found? && lookup.configured
    ensures s.Settings? ==> s.endpoint == KeyOr(lookup.keys, "litellm_endpoint", "")
    ensures s.Settings? ==> s.secretKey == KeyOr(lookup.keys, "litellm_secret_key", "")
    ensures s.Settings? ==> s.model == KeyOr(lookup.keys, "ai_model", DefaultModel)
    ensures s.Settings? ==> s.prePrompt == KeyOr(lookup.keys, "pre_prompt", "")
  {
    match lookup
    case Found(true, keys) =>
      Settings(KeyOr(keys, "litellm_endpoint", ""),
               KeyOr(keys, "litellm_secret_key", ""),
               KeyOr(keys, "ai_model", DefaultModel),
               KeyOr(keys, "pre_prompt", ""))
    case _ => Unset
  }

  /**
   * The guard `empty($config['endpoint']) || empty($config['secret_key'])`;
   * a field of the empty array is undefined, hence empty. Only a record
   * whose endpoint and secret key are both neither "" nor "0" passes.
   */
  predicate NotConfigured(s: Settings): (b: bool)
    ensures !b ==> s.Settings? && s.endpoint != "" && s.endpoint != "0" &&
                   s.secretKey != "" && s.secretKey != "0"
    ensures s.Settings? && (s.endpoint == "0" || s.secretKey == "0") ==> b
  {
    s.Unset? || IsEmpty(s.endpoint) || IsEmpty(s.secretKey)
  }

  /** A stored key that is present and neither "" nor "0". */
  predicate HasUsableKey(keys: map<string, string>, name: string) {
    name in keys && !IsEmpty(keys[name])
  }

  /**
   * The guard passes exactly when the integration exists, says it is
   * configured, and stores a non-empty endpoint and secret key.
   */
  lemma ConfiguredIff(lookup: IntegrationLookup)
    ensures !NotConfigured(Resolve(lookup)) <==>
              lookup.Found? && lookup.configured &&
              HasUsableKey(lookup.keys, "litellm_endpoint") &&
              HasUsableKey(lookup.keys, "litellm_secret_key")
  {
  }
}
