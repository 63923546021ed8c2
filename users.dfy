/**
  A bot user's OpenAI settings: the configuration record with its defaults,
  its getters (an unset key or prompt shows as `---`) and its validating
  setters, the `Openai` record that pairs a configuration with the tokens
  spent so far, and the `User` that owns one.

  `ConfigValue` is the configuration as a value (what `clone()` copies and
  what is persisted); `OpenaiConfig` is the record whose setters update its
  fields in place.
*/
module Users {
  import opened Wrappers
  import opened RustStd

  const DEFAULT_MODEL: string := "gpt-3.5-turbo"
  /** The models `set_model` accepts. */
  const ALLOWED_MODELS: seq<string> := ["gpt-3.5-turbo", "gpt-4-turbo", "gpt-4o"]
  /** What the getters show for a key or prompt that was never set. */
  const NOT_SET: string := "---"
  /** The longest prompt, in bytes of UTF-8. */
  const MAX_PROMPT_LEN: nat := 4000
  /** The largest `max_message_length`; there is no lower bound. */
  const MAX_MESSAGE_LENGTH: int := 4000
  const DEFAULT_MAX_MESSAGE_LENGTH: int32 := 4000
  const DEFAULT_MAX_TOTAL_TOKENS_SPENT: int64 := 1_000_000

  const INVALID_API_KEY: string := "Invalid API key"
  const INVALID_MODEL: string := "Invalid model. Allowed values are: gpt-3.5-turbo, gpt-4-turbo, gpt-4o"
  const PROMPT_TOO_LONG: string := "Prompt is too long. Maximum length is 4000 characters"
  const MESSAGE_LENGTH_TOO_LONG: string := "Max message length is too long. Maximum is 4000"

  /** `validate_api_key`: every key is accepted. */
  predicate ValidApiKey(apiKey: string)
  {
    true
  }

  /** An `OpenaiConfig` as a value. */
  datatype ConfigValue = ConfigValue(
    apiKey: Option<string>,
    model: string,
    prompt: Option<string>,
    maxMessageLength: int32,
    maxTotalTokensSpent: int64)
  {
    /** `get_api_key`: the key, or `---` when none is set. */
    function GetApiKey(): (shown: string)
      ensures apiKey.None? ==> shown == NOT_SET
      ensures apiKey.Some? ==> shown == apiKey.value
    {
      apiKey.GetOr(NOT_SET)
    }

    /** `get_prompt`: the prompt, or `---` when none is set. */
    function GetPrompt(): (shown: string)
      ensures prompt.None? ==> shown == NOT_SET
      ensures prompt.Some? ==> shown == prompt.value
    {
      prompt.GetOr(NOT_SET)
    }

    /** `set_api_key` on a copy: never refused, and only the key changes. */
    function TrySetApiKey(key: string): (r: Result<ConfigValue, string>)
      ensures r.Ok? && r.value.apiKey == Some(key)
      ensures r.Ok? ==> r.value.(apiKey := apiKey) == this
    {
      if ValidApiKey(key) then Ok(this.(apiKey := Some(key))) else Err(INVALID_API_KEY)
    }

    /** `set_model` on a copy: only the three allowed models are taken. */
    function TrySetModel(name: string): (r: Result<ConfigValue, string>)
      ensures r.Ok? <==> name in ALLOWED_MODELS
      ensures r.Ok? ==> r.value == this.(model := name)
      ensures r.Err? ==> r.error == INVALID_MODEL
    {
      if name == "gpt-3.5-turbo" || name == "gpt-4-turbo" || name == "gpt-4o" then
        Ok(this.(model := name))
      else
        Err(INVALID_MODEL)
    }

    /** `set_prompt` on a copy: a prompt of at most 4000 bytes is taken. */
    function TrySetPrompt(text: string): (r: Result<ConfigValue, string>)
      ensures r.Ok? <==> Utf8Len(text) <= MAX_PROMPT_LEN
      ensures r.Ok? ==> r.value == this.(prompt := Some(text))
      ensures r.Err? ==> r.error == PROMPT_TOO_LONG
    {
      if Utf8Len(text) <= MAX_PROMPT_LEN then Ok(this.(prompt := Some(text))) else Err(PROMPT_TOO_LONG)
    }

    /** `set_max_message_length` on a copy: any length up to 4000, zero and negatives included. */
    function TrySetMaxMessageLength(length: int32): (r: Result<ConfigValue, string>)
      ensures r.Ok? <==> length as int <= MAX_MESSAGE_LENGTH
      ensures r.Ok? ==> r.value == this.(maxMessageLength := length)
      ensures r.Err? ==> r.error == MESSAGE_LENGTH_TOO_LONG
    {
      if length as int <= MAX_MESSAGE_LENGTH then Ok(this.(maxMessageLength := length)) else Err(MESSAGE_LENGTH_TOO_LONG)
    }
  }

  /** `OpenaiConfig::default()`. */
  const DEFAULT_CONFIG: ConfigValue :=
    ConfigValue(None, DEFAULT_MODEL, None, DEFAULT_MAX_MESSAGE_LENGTH, DEFAULT_MAX_TOTAL_TOKENS_SPENT)

  /** The default configuration is one the setters could have produced: its model and length pass their checks. */
  lemma DefaultConfigValid()
    ensures DEFAULT_CONFIG.TrySetModel(DEFAULT_CONFIG.model) == Ok(DEFAULT_CONFIG)
    ensures DEFAULT_CONFIG.TrySetMaxMessageLength(DEFAULT_CONFIG.maxMessageLength) == Ok(DEFAULT_CONFIG)
    ensures DEFAULT_CONFIG.GetApiKey() == NOT_SET && DEFAULT_CONFIG.GetPrompt() == NOT_SET
  {
  }

  /** A key that was set reads back from the getter, whatever its text. */
  lemma ApiKeyRoundTrip(c: ConfigValue, key: string)
    ensures c.TrySetApiKey(key).value.GetApiKey() == key
  {
  }

  /** A prompt that was accepted reads back from the getter, even one spelled `---`. */
  lemma PromptRoundTrip(c: ConfigValue, text: string)
    requires Utf8Len(text) <= MAX_PROMPT_LEN
    ensures c.TrySetPrompt(text).Ok? && c.TrySetPrompt(text).value.GetPrompt() == text
  {
  }

  /** Setting a value twice is setting it once: each setter is idempotent. */
  lemma SettersIdempotent(c: ConfigValue, key: string, name: string, text: string, length: int32)
    ensures c.TrySetApiKey(key).value.TrySetApiKey(key) == c.TrySetApiKey(key)
    ensures c.TrySetModel(name).Ok? ==> c.TrySetModel(name).value.TrySetModel(name) == c.TrySetModel(name)
    ensures c.TrySetPrompt(text).Ok? ==> c.TrySetPrompt(text).value.TrySetPrompt(text) == c.TrySetPrompt(text)
    ensures c.TrySetMaxMessageLength(length).Ok? ==>
      c.TrySetMaxMessageLength(length).value.TrySetMaxMessageLength(length) == c.TrySetMaxMessageLength(length)
  {
  }

  /** How a setter's outcome lands on the record: the new value on success, the old one on a refusal. */
  function Applied(r: Result<ConfigValue, string>, before: ConfigValue): (Result<(), string>, ConfigValue)
  {
    match r
    case Ok(c) => (Ok(()), c)
    case Err(e) => (Err(e), before)
  }

  /** `OpenaiConfig`: the setters check their argument and update one field in place. */
  class OpenaiConfig {
    var apiKey: Option<string>
    var model: string
    var prompt: Option<string>
    var maxMessageLength: int32
    var maxTotalTokensSpent: int64

    /** The record as a value, as `clone()` copies it. */
    function Value(): ConfigValue
      reads this
    {
      ConfigValue(apiKey, model, prompt, maxMessageLength, maxTotalTokensSpent)
    }

    /** `OpenaiConfig::default()`. */
    constructor Default()
      ensures Value() == DEFAULT_CONFIG
    {
      apiKey := None;
      model := DEFAULT_MODEL;
      prompt := None;
      maxMessageLength := DEFAULT_MAX_MESSAGE_LENGTH;
      maxTotalTokensSpent := DEFAULT_MAX_TOTAL_TOKENS_SPENT;
    }

    /** `clone()`: a fresh record holding `v`. */
    constructor Clone(v: ConfigValue)
      ensures Value() == v
    {
      apiKey := v.apiKey;
      model := v.model;
      prompt := v.prompt;
      maxMessageLength := v.maxMessageLength;
      maxTotalTokensSpent := v.maxTotalTokensSpent;
    }

    /** `set_api_key`. */
    method SetApiKey(key: string) returns (r: Result<(), string>)
      modifies this
      ensures (r, Value()) == Applied(old(Value()).TrySetApiKey(key), old(Value()))
      ensures r.Ok? && apiKey == Some(key)
    {
      if ValidApiKey(key) {
        apiKey := Some(key);
        r := Ok(());
      } else {
        r := Err(INVALID_API_KEY);
      }
    }

    /** `set_model`. */
    method SetModel(name: string) returns (r: Result<(), string>)
      modifies this
      ensures (r, Value()) == Applied(old(Value()).TrySetModel(name), old(Value()))
      ensures r.Ok? <==> name in ALLOWED_MODELS
      ensures r.Err? ==> Value() == old(Value())
    {
      if name == "gpt-3.5-turbo" || name == "gpt-4-turbo" || name == "gpt-4o" {
        model := name;
        r := Ok(());
      } else {
        r := Err(INVALID_MODEL);
      }
    }

    /** `set_prompt`. */
    method SetPrompt(text: string) returns (r: Result<(), string>)
      modifies this
      ensures (r, Value()) == Applied(old(Value()).TrySetPrompt(text), old(Value()))
      ensures r.Ok? <==> Utf8Len(text) <= MAX_PROMPT_LEN
      ensures r.Err? ==> Value() == old(Value())
    {
      if Utf8Len(text) <= MAX_PROMPT_LEN {
        prompt := Some(text);
        r := Ok(());
      } else {
        r := Err(PROMPT_TOO_LONG);
      }
    }

    /** `set_max_message_length`. */
    method SetMaxMessageLength(length: int32) returns (r: Result<(), string>)
      modifies this
      ensures (r, Value()) == Applied(old(Value()).TrySetMaxMessageLength(length), old(Value()))
      ensures r.Ok? <==> length as int <= MAX_MESSAGE_LENGTH
      ensures r.Err? ==> Value() == old(Value())
    {
      if length as int <= MAX_MESSAGE_LENGTH {
        maxMessageLength := length;
        r := Ok(());
      } else {
        r := Err(MESSAGE_LENGTH_TOO_LONG);
      }
    }

    /** `set_max_total_tokens_spent`: unchecked. */
    method SetMaxTotalTokensSpent(tokens: int64)
      modifies this
      ensures Value() == old(Value()).(maxTotalTokensSpent := tokens)
    {
      maxTotalTokensSpent := tokens;
    }
  }

  /** `Openai`: a configuration and the tokens spent under it. */
  datatype Openai = Openai(config: ConfigValue, spentTokens: int64)
  {
    /** `with_config`: replaces the configuration and keeps the spent tokens. */
    function WithConfig(c: ConfigValue): (r: Openai)
      ensures r.config == c && r.spentTokens == spentTokens
    {
      this.(config := c)
    }

    /** `with_spent_tokens`: replaces the spent tokens and keeps the configuration. */
    function WithSpentTokens(n: int64): (r: Openai)
      ensures r.spentTokens == n && r.config == config
    {
      this.(spentTokens := n)
    }
  }

  /** `Openai::default()`. */
  const DEFAULT_OPENAI: Openai := Openai(DEFAULT_CONFIG, 0)

  /** The two builder steps touch different fields, so their order does not matter, and together they replace the whole record. */
  lemma BuildersCommute(o: Openai, c: ConfigValue, n: int64)
    ensures o.WithConfig(c).WithSpentTokens(n) == o.WithSpentTokens(n).WithConfig(c)
    ensures o.WithConfig(c).WithSpentTokens(n) == Openai(c, n)
  {
  }

  datatype User = User(id: int64, businessId: string, openai: Openai)
  {
    /** `get_config`: a copy of the user's configuration. */
    function GetConfig(): ConfigValue
    {
      openai.config
    }

    /** `get_openai_spent_tokens`. */
    function GetOpenaiSpentTokens(): int64
    {
      openai.spentTokens
    }
  }
}
