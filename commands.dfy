/**
  The bot's settings commands (`setup`): a command is split into words and
  matched, with its exact number of words, against the known commands. A
  command that sets something runs the configuration's setter on a copy of
  the user's configuration; a refused value or an unparsable number ends the
  command with that error and nothing is stored. Otherwise the copy,
  together with the user's unchanged spent-token count, is written back to
  the `users` table and the reply text is returned.

  The help text is read from a file; its content, or `None` when it cannot
  be read, is a parameter. The database is an `OpenaiTable` whose update may
  fail with the error's debug text.
*/
module Commands {
  import opened Wrappers
  import opened RustStd
  import opened Users

  const OPTION_UPDATED: string := "Option updated"
  const UNKNOWN_COMMAND: string := "Unknown command"
  const HELP_FAILED: string := "failed get help"
  const INVALID_LENGTH: string := "Invalid length"
  const INVALID_TOKEN_AMOUNT: string := "Invalid token amount"
  const UPDATE_FAILED: string := "Failed update user openai:\n"

  const API_KEY: string := "/api_key"
  const MODEL: string := "/model"
  const PROMPT: string := "/prompt"
  const MAX_MESSAGE_LENGTH_CMD: string := "/max_message_length"
  const MAX_TOTAL_TOKENS_SPENT_CMD: string := "/max_total_tokens_spent"
  const HELP: string := "/help"

  /** A setter's outcome as the outcome of a command: `?` on a refusal, `Option updated` otherwise. */
  function Updated(r: Result<ConfigValue, string>): Result<(ConfigValue, string), string>
  {
    match r
    case Ok(c) => Ok((c, OPTION_UPDATED))
    case Err(e) => Err(e)
  }

  /**
    The `match` of `setup`: the configuration after the command and the
    reply, or the error that `?` returns. `helpText` is the content of the
    help file, `None` when it cannot be read.
  */
  function Dispatch(command: string, config: ConfigValue, helpText: Option<string>): (r: Result<(ConfigValue, string), string>)
    ensures var parts := SplitWhitespace(command);
      r.Ok? ==> if |parts| < 2 then r.value.0 == config else OnlyTouches(parts[0], config, r.value.0)
    ensures r.Err? ==> r.error in CommandErrors()
  {
    var parts := SplitWhitespace(command);
    if parts == [] then Ok((config, UNKNOWN_COMMAND))
    else if |parts| == 1 then Ok((config, Query(parts[0], config, helpText)))
    else Change(command, parts, config)
  }

  /**
    The one-word arms of the `match`: the current value of a setting, the
    help text, or `Unknown command`.
  */
  function Query(head: string, config: ConfigValue, helpText: Option<string>): string
  {
    if head == API_KEY then "Current API key: " + DebugStr(config.GetApiKey())
    else if head == MODEL then "Current model: " + DebugStr(config.model)
    else if head == PROMPT then "Current prompt: " + DebugStr(config.GetPrompt())
    else if head == MAX_MESSAGE_LENGTH_CMD then "Current max message length: " + Decimal(config.maxMessageLength as int)
    else if head == MAX_TOTAL_TOKENS_SPENT_CMD then "Current max total tokens spent: " + Decimal(config.maxTotalTokensSpent as int)
    else if head == HELP then helpText.GetOr(HELP_FAILED)
    else UNKNOWN_COMMAND
  }

  /** The arms of the `match` for two or more words: a setter runs on the copy, or the command is unknown. */
  function Change(command: string, parts: seq<string>, config: ConfigValue): Result<(ConfigValue, string), string>
    requires |parts| >= 2
  {
    var head := parts[0];
    if head == PROMPT then Updated(config.TrySetPrompt(RemoveFirst(command, PROMPT + " ")))
    else if |parts| > 2 then Ok((config, UNKNOWN_COMMAND))
    else if head == API_KEY then Updated(config.TrySetApiKey(parts[1]))
    else if head == MODEL then Updated(config.TrySetModel(parts[1]))
    else if head == MAX_MESSAGE_LENGTH_CMD then
      match ParseInt(parts[1], I32_MIN, I32_MAX)
      case None => Err(INVALID_LENGTH)
      case Some(length) => Updated(config.TrySetMaxMessageLength(length as int32))
    else if head == MAX_TOTAL_TOKENS_SPENT_CMD then
      match ParseInt(parts[1], I64_MIN, I64_MAX)
      case None => Err(INVALID_TOKEN_AMOUNT)
      case Some(tokens) => Ok((config.(maxTotalTokensSpent := tokens as int64), OPTION_UPDATED))
    else Ok((config, UNKNOWN_COMMAND))
  }

  /** The errors a command can end with: the setters' refusals and the two parse errors. */
  function CommandErrors(): set<string>
  {
    {INVALID_API_KEY, INVALID_MODEL, PROMPT_TOO_LONG, MESSAGE_LENGTH_TOO_LONG, INVALID_LENGTH, INVALID_TOKEN_AMOUNT}
  }

  /** `after` differs from `before` at most in the field that the command word `head` sets. */
  predicate OnlyTouches(head: string, before: ConfigValue, after: ConfigValue)
  {
    if head == API_KEY then after.(apiKey := before.apiKey) == before
    else if head == MODEL then after.(model := before.model) == before
    else if head == PROMPT then after.(prompt := before.prompt) == before
    else if head == MAX_MESSAGE_LENGTH_CMD then after.(maxMessageLength := before.maxMessageLength) == before
    else if head == MAX_TOTAL_TOKENS_SPENT_CMD then after.(maxTotalTokensSpent := before.maxTotalTokensSpent) == before
    else after == before
  }

  /** The word lists some arm of the `match` takes. */
  predicate Recognized(parts: seq<string>)
  {
    || (|parts| == 1 && parts[0] in {API_KEY, MODEL, PROMPT, MAX_MESSAGE_LENGTH_CMD, MAX_TOTAL_TOKENS_SPENT_CMD, HELP})
    || (|parts| == 2 && parts[0] in {API_KEY, MODEL, MAX_MESSAGE_LENGTH_CMD, MAX_TOTAL_TOKENS_SPENT_CMD})
    || (|parts| >= 2 && parts[0] == PROMPT)
  }

  /** Any other word list, a wrong number of words included, is answered `Unknown command` and changes nothing. */
  lemma UnrecognizedIsUnknown(command: string, config: ConfigValue, helpText: Option<string>)
    requires !Recognized(SplitWhitespace(command))
    ensures Dispatch(command, config, helpText) == Ok((config, UNKNOWN_COMMAND))
  {
  }

  /** A command word followed by two or more arguments is unknown, except for `/prompt`. */
  lemma ExactArity(command: string, config: ConfigValue, helpText: Option<string>)
    requires var parts := SplitWhitespace(command);
      |parts| >= 3 && parts[0] in {API_KEY, MODEL, MAX_MESSAGE_LENGTH_CMD, MAX_TOTAL_TOKENS_SPENT_CMD}
    ensures Dispatch(command, config, helpText) == Ok((config, UNKNOWN_COMMAND))
  {
    UnrecognizedIsUnknown(command, config, helpText);
  }

  /** A command of one word never fails and never changes the configuration. */
  lemma QueriesChangeNothing(command: string, config: ConfigValue, helpText: Option<string>)
    requires |SplitWhitespace(command)| == 1
    ensures Dispatch(command, config, helpText).Ok?
    ensures Dispatch(command, config, helpText).value.0 == config
  {
  }

  /** `head arg`, spelled with one space, splits into exactly those two words. */
  lemma SplitTwoWords(head: string, arg: string)
    requires IsToken(head) && IsToken(arg)
    ensures SplitWhitespace(head + " " + arg) == [head, arg]
  {
    SplitLeadingWord(head, arg);
    SplitOneWord(arg);
  }

  lemma CommandWordsAreTokens()
    ensures IsToken(API_KEY) && IsToken(MODEL) && IsToken(PROMPT)
    ensures IsToken(MAX_MESSAGE_LENGTH_CMD) && IsToken(MAX_TOTAL_TOKENS_SPENT_CMD)
  {
  }

  /** `/api_key K` stores the key `K` and changes nothing else. */
  lemma SetApiKeyCommand(key: string, config: ConfigValue, helpText: Option<string>)
    requires IsToken(key)
    ensures Dispatch(API_KEY + " " + key, config, helpText) == Ok((config.(apiKey := Some(key)), OPTION_UPDATED))
  {
    CommandWordsAreTokens();
    SplitTwoWords(API_KEY, key);
  }

  /** `/model M` succeeds exactly for the allowed models; otherwise it ends with the setter's error. */
  lemma SetModelCommand(name: string, config: ConfigValue, helpText: Option<string>)
    requires IsToken(name)
    ensures var r := Dispatch(MODEL + " " + name, config, helpText);
      && (r.Ok? <==> name in ALLOWED_MODELS)
      && (r.Ok? ==> r.value == (config.(model := name), OPTION_UPDATED))
      && (r.Err? ==> r.error == INVALID_MODEL)
  {
    CommandWordsAreTokens();
    SplitTwoWords(MODEL, name);
  }

  /**
    `/prompt P`, with `P` holding at least one word, sets the prompt to `P`
    exactly as typed, spaces included, when it is at most 4000 bytes long.
  */
  lemma SetPromptCommand(text: string, config: ConfigValue, helpText: Option<string>)
    requires SplitWhitespace(text) != []
    ensures var r := Dispatch(PROMPT + " " + text, config, helpText);
      && (r.Ok? <==> Utf8Len(text) <= MAX_PROMPT_LEN)
      && (r.Ok? ==> r.value == (config.(prompt := Some(text)), OPTION_UPDATED))
      && (r.Err? ==> r.error == PROMPT_TOO_LONG)
  {
    CommandWordsAreTokens();
    SplitLeadingWord(PROMPT, text);
    assert PROMPT + " " + text == (PROMPT + " ") + text;
    RemoveFirstPrefix(PROMPT + " ", text);
  }

  /**
    `/max_message_length N`, with `N` any word that parses as a 32-bit value
    (`+5` and `007` included), sets that value when it is at most 4000, zero
    and negative ones included.
  */
  lemma SetMaxMessageLengthCommand(arg: string, config: ConfigValue, helpText: Option<string>)
    requires IsToken(arg)
    ensures var p := ParseInt(arg, I32_MIN, I32_MAX);
      var r := Dispatch(MAX_MESSAGE_LENGTH_CMD + " " + arg, config, helpText);
      p.Some? ==>
        && (r.Ok? <==> p.value <= MAX_MESSAGE_LENGTH)
        && (r.Ok? ==> r.value == (config.(maxMessageLength := p.value as int32), OPTION_UPDATED))
        && (r.Err? ==> r.error == MESSAGE_LENGTH_TOO_LONG)
  {
    CommandWordsAreTokens();
    SplitTwoWords(MAX_MESSAGE_LENGTH_CMD, arg);
  }

  /** `/max_total_tokens_spent N` accepts every word that parses as a 64-bit value. */
  lemma SetMaxTotalTokensSpentCommand(arg: string, config: ConfigValue, helpText: Option<string>)
    requires IsToken(arg)
    ensures var p := ParseInt(arg, I64_MIN, I64_MAX);
      p.Some? ==>
        Dispatch(MAX_TOTAL_TOKENS_SPENT_CMD + " " + arg, config, helpText)
          == Ok((config.(maxTotalTokensSpent := p.value as int64), OPTION_UPDATED))
  {
    CommandWordsAreTokens();
    SplitTwoWords(MAX_TOTAL_TOKENS_SPENT_CMD, arg);
  }

  /** A number that does not parse is refused before any setter runs. */
  lemma UnparsableNumber(arg: string, config: ConfigValue, helpText: Option<string>)
    requires IsToken(arg)
    ensures ParseInt(arg, I32_MIN, I32_MAX).None? ==>
      Dispatch(MAX_MESSAGE_LENGTH_CMD + " " + arg, config, helpText) == Err(INVALID_LENGTH)
    ensures ParseInt(arg, I64_MIN, I64_MAX).None? ==>
      Dispatch(MAX_TOTAL_TOKENS_SPENT_CMD + " " + arg, config, helpText) == Err(INVALID_TOKEN_AMOUNT)
  {
    CommandWordsAreTokens();
    SplitTwoWords(MAX_MESSAGE_LENGTH_CMD, arg);
    SplitTwoWords(MAX_TOTAL_TOKENS_SPENT_CMD, arg);
  }

  /** The query reports the value a set command stored: the number reads back as it was typed. */
  lemma TokensReportedBack(tokens: int64, config: ConfigValue, helpText: Option<string>)
    ensures var stored := Dispatch(MAX_TOTAL_TOKENS_SPENT_CMD + " " + Decimal(tokens as int), config, helpText);
      && stored.Ok?
      && Dispatch(MAX_TOTAL_TOKENS_SPENT_CMD, stored.value.0, helpText)
           == Ok((stored.value.0, "Current max total tokens spent: " + Decimal(tokens as int)))
  {
    DecimalIsToken(tokens as int);
    ParseDecimal(tokens as int, I64_MIN, I64_MAX);
    SetMaxTotalTokensSpentCommand(Decimal(tokens as int), config, helpText);
    TokensQuery(config.(maxTotalTokensSpent := tokens), helpText);
  }

  /** `/max_total_tokens_spent` alone reports the ceiling in decimal. */
  lemma TokensQuery(config: ConfigValue, helpText: Option<string>)
    ensures Dispatch(MAX_TOTAL_TOKENS_SPENT_CMD, config, helpText)
      == Ok((config, "Current max total tokens spent: " + Decimal(config.maxTotalTokensSpent as int)))
  {
    CommandWordsAreTokens();
    SplitOneWord(MAX_TOTAL_TOKENS_SPENT_CMD);
  }

  /** The `users` table: the `openai` column of each user row, by user id. */
  class OpenaiTable {
    var rows: map<int64, Openai>

    /**
      `update_openai_by_id`: `UPDATE users SET openai = $1 WHERE id = $2`.
      `fault` is the debug text of the database error, if the statement fails.
    */
    method UpdateOpenaiById(id: int64, openai: Openai, fault: Option<string>) returns (r: Result<(), string>)
      modifies this
      ensures (r, rows) == UpdateOutcome(old(rows), id, openai, fault)
    {
      if fault.Some? {
        return Err(fault.value);
      }
      if id in rows {
        rows := rows[id := openai];
      }
      r := Ok(());
    }
  }

  /** An `UPDATE ... WHERE id = $2`: no row is added when none has that id. */
  function UpdateOutcome(rows: map<int64, Openai>, id: int64, openai: Openai, fault: Option<string>): (Result<(), string>, map<int64, Openai>)
  {
    if fault.Some? then (Err(fault.value), rows)
    else (Ok(()), if id in rows then rows[id := openai] else rows)
  }

  /**
    What `setup` returns and what the table holds afterwards: a command that
    fails stores nothing; otherwise the new configuration and the user's
    spent tokens are written, and a failed write is reported.
  */
  function SetupOutcome(rows: map<int64, Openai>, user: User, command: string, helpText: Option<string>, fault: Option<string>)
    : (Result<string, string>, map<int64, Openai>)
  {
    match Dispatch(command, user.GetConfig(), helpText)
    case Err(e) => (Err(e), rows)
    case Ok((config, reply)) =>
      var (written, rows') := UpdateOutcome(rows, user.id, Openai(config, user.openai.spentTokens), fault);
      if written.Err? then (Err(UPDATE_FAILED + written.error), rows') else (Ok(reply), rows')
  }

  /** A refused command leaves the table as it was; an accepted one stores its configuration with the unchanged spent tokens. */
  lemma SetupStores(rows: map<int64, Openai>, user: User, command: string, helpText: Option<string>, fault: Option<string>)
    ensures var (r, rows') := SetupOutcome(rows, user, command, helpText, fault);
      && (Dispatch(command, user.GetConfig(), helpText).Err? ==> r == Err(Dispatch(command, user.GetConfig(), helpText).error) && rows' == rows)
      && (fault.Some? ==> rows' == rows && r.Err?)
      && (r.Ok? ==> user.id in rows ==> rows'[user.id].spentTokens == user.openai.spentTokens)
      && (r.Ok? ==> user.id in rows ==> rows'[user.id].config == Dispatch(command, user.GetConfig(), helpText).value.0)
      && (r.Ok? ==> forall id :: id in rows && id != user.id ==> id in rows' && rows'[id] == rows[id])
  {
  }

  /** A failed write is reported with the fixed prefix followed by the database error. */
  lemma SetupWriteFailure(rows: map<int64, Openai>, user: User, command: string, helpText: Option<string>, error: string)
    requires Dispatch(command, user.GetConfig(), helpText).Ok?
    ensures var (r, _) := SetupOutcome(rows, user, command, helpText, Some(error));
      r.Err? && r.error[..|UPDATE_FAILED|] == UPDATE_FAILED && r.error[|UPDATE_FAILED|..] == error
  {
  }

  /**
    `setup`: copies the user's configuration, runs the command on the copy
    through its setters, returns early on a refusal, and otherwise writes
    the copy with the spent tokens to the table.
  */
  method Setup(table: OpenaiTable, user: User, command: string, helpText: Option<string>, fault: Option<string>)
    returns (r: Result<string, string>)
    modifies table
    ensures (r, table.rows) == SetupOutcome(old(table.rows), user, command, helpText, fault)
  {
    var config := new OpenaiConfig.Clone(user.GetConfig());
    var ran, response := RunCommand(config, command, helpText);
    if ran.Err? {
      return Err(ran.error);
    }
    var openai := DEFAULT_OPENAI.WithConfig(config.Value()).WithSpentTokens(user.GetOpenaiSpentTokens());
    var written := table.UpdateOpenaiById(user.id, openai, fault);
    if written.Err? {
      return Err(UPDATE_FAILED + written.error);
    }
    r := Ok(response);
  }

  /**
    The `match` of `setup` run on the record `config` through its setters;
    `r` is `Err` when `?` returns early, and `response` the reply otherwise.
  */
  method RunCommand(config: OpenaiConfig, command: string, helpText: Option<string>)
    returns (r: Result<(), string>, response: string)
    modifies config
    ensures var d := Dispatch(command, old(config.Value()), helpText);
      && (d.Err? ==> r == Err(d.error))
      && (d.Ok? ==> r.Ok? && config.Value() == d.value.0 && response == d.value.1)
  {
    var parts := SplitWhitespace(command);
    r := Ok(());
    if |parts| < 2 {
      response := if parts == [] then UNKNOWN_COMMAND else Query(parts[0], config.Value(), helpText);
      return;
    }
    var head := parts[0];
    if head == PROMPT {
      r := config.SetPrompt(RemoveFirst(command, PROMPT + " "));
      response := OPTION_UPDATED;
    } else if |parts| > 2 {
      response := UNKNOWN_COMMAND;
    } else if head == API_KEY {
      r := config.SetApiKey(parts[1]);
      response := OPTION_UPDATED;
    } else if head == MODEL {
      r := config.SetModel(parts[1]);
      response := OPTION_UPDATED;
    } else if head == MAX_MESSAGE_LENGTH_CMD {
      var length := ParseInt(parts[1], I32_MIN, I32_MAX);
      if length.None? {
        return Err(INVALID_LENGTH), "";
      }
      r := config.SetMaxMessageLength(length.value as int32);
      response := OPTION_UPDATED;
    } else if head == MAX_TOTAL_TOKENS_SPENT_CMD {
      var tokens := ParseInt(parts[1], I64_MIN, I64_MAX);
      if tokens.None? {
        return Err(INVALID_TOKEN_AMOUNT), "";
      }
      config.SetMaxTotalTokensSpent(tokens.value as int64);
      response := OPTION_UPDATED;
    } else {
      response := UNKNOWN_COMMAND;
    }
  }
}
