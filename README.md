# business-tg-bot core, in Dafny

This project models three parts of the Telegram business bot and proves properties about them.

- **Conversation history** (`bot/src/conversation.rs`). The `ConversationManager` keeps each user's turns in a Redis sorted set under `history:<user id>`. Each member is the JSON text of a `Message` and its score is a millisecond timestamp.
  - `store_message` ZADDs one member and resets the key's TTL.
  - `get_conversation` walks the set from the newest turn down, one ZREVRANGE per rank. It keeps a turn while the byte budget allows and ZREMs every turn it reads that does not fit. The cursor advances in both cases, so the turn that slides into the freed rank is skipped. The kept turns come back oldest first.
  - `process_message` reads that window, or nothing when the read fails. It appends the user's turn and calls the answering function. Only when the function returns an answer does it store the user's turn and then the assistant's turn. A failed store is logged and ignored.
- **User configuration** (`bot/src/user.rs`). `OpenaiConfig` has defaults, getters that show `---` for an unset API key or prompt, and validating setters. `Openai` pairs a configuration with the tokens spent. `User` owns an `Openai`.
- **Settings commands** (`setup` in `bot/src/main.rs`). A command is split on white space and matched with its exact number of words. A setter runs on a copy of the configuration, and `?` returns a refusal or a parse error before anything is stored. Otherwise the copy is written back with the user's unchanged spent tokens.

Modules and files:

- `Wrappers` (`wrappers.dfy`): `Option` and `Result`.
- `RustStd` (`rust_std.dfy`): the Rust standard-library behaviour the core relies on.
  - `i32` and `i64`;
  - `str::len` as UTF-8 bytes;
  - `split_whitespace`;
  - `replacen(pat, "", 1)`;
  - `str::parse` for signed integers;
  - `{}` of an integer and `{:?}` of a string slice.
- `MessageJson` (`message_json.dfy`): the compact JSON that `serde_json` writes for a `Message`, with its decoder.
- `SortedSet` (`sorted_set.dfy`): one Redis sorted set, kept in rank order.
- `Redis` (`redis.dfy`): the keyspace, TTLs, and a `RedisStore` class with the four commands used.
- `Conversation` (`conversation.dfy`): the history engine.
- `Users` (`users.dfy`): the configuration records.
- `Commands` (`commands.dfy`): `setup`.

Failures of Redis calls are described by a `Fault`: the number of calls that succeed before the first failure. Acquiring the connection counts as a call. A database failure is a parameter carrying the error text. Clock readings are parameters.

### Two descriptions of `get_conversation`

`Scan` follows the loop as written: it reads rank `cursor` of the set as it stands after earlier deletions. `Walk` describes the same outcome on the set as it was before the read:

- the newest unvisited entry is kept if it fits;
- otherwise it is deleted, and the entry just below it is passed over without being read.

`ScanIsWalk` proves the two agree on well-formed sets. The budget, partition and ordering lemmas are stated on `Walk`.

### Reading after a deletion

The cursor advances after a ZREM just as it does after a kept turn. The turn that slides into the freed rank is therefore never read: it is neither returned nor deleted, and it stays stored even when it is over the budget.

For example, take a 50-byte budget, a 15-byte new message and three stored 20-byte turns:

- the newest turn fits (15 + 20 = 35) and is kept;
- the middle turn does not fit (55 > 50) and is deleted;
- the cursor moves to rank 2 of a set that now holds two entries, so the loop ends and the oldest turn survives unread.

`ThreeTurnScenario` proves this outcome. `SkipAfterEviction` proves the skip in general, and `ReadStores` states exactly which entries remain.

### The crate's modules

`bot/src/main.rs` declares `dialogue`, `user` and `db` but not `conversation`, while `bot/src/dialogue.rs:5` imports `crate::conversation::Message`. The crate as shown therefore refers to a module that its root does not declare. `conversation.rs` is modelled as written.

## Model

| member | source | states |
|---|---|---|
| RustStd.Utf8Len | bot/src/conversation.rs:87 | the length `len()` reports is the UTF-8 byte count, between one and four bytes per character |
| RustStd.SplitWhitespace | bot/src/main.rs:87 | every word `split_whitespace` yields is non-empty and holds no white space |
| RustStd.SplitJoin | bot/src/main.rs:87 | splitting words joined by single spaces gives the words back |
| RustStd.SplitLeadingWord | bot/src/main.rs:87 | a word followed by a space is the first word of the split, and the split goes on with the rest |
| RustStd.FindFrom | bot/src/main.rs:108 | the position found is the leftmost occurrence of the pattern at or after the start, and `None` means there is no occurrence |
| RustStd.RemoveFirstPrefix | bot/src/main.rs:108 | `replacen(pat, "", 1)` on a text that starts with `pat` removes exactly that prefix |
| RustStd.ParseInt | bot/src/main.rs:113 | the parse succeeds exactly when the text is an optional `+` or `-` followed by at least one ASCII digit and nothing else, and the value it writes is in the type's range; the result is that value, negated after `-` |
| RustStd.RemoveFirst | bot/src/main.rs:108 | `replacen(pat, "", 1)`: the text without the leftmost occurrence of `pat`, one `pat` shorter when it occurs and unchanged when it does not |
| RustStd.Decimal | bot/src/main.rs:118-126 | the `{}` text of an integer is an integer text, with a leading `-` exactly for a negative value |
| RustStd.DebugStr | bot/src/main.rs:95-105 | `{:?}` of a string: quoted, at least as long as the text plus the two quotes and at most twice as long plus the quotes |
| RustStd.ParseDecimal | bot/src/main.rs:121 | parsing the `{}` text of an in-range integer gives the integer back |
| MessageJson.ToJson | bot/src/conversation.rs:59-62 | the compact text `serde_json::to_string` writes for a `Message`; `FromToJson` and `ToJsonInjective` state what it preserves |
| MessageJson.FromJson | bot/src/conversation.rs:86 | `serde_json::from_str` on that form; `FromToJson` proves it inverts `ToJson` |
| MessageJson.FromToJson | bot/src/conversation.rs:86 | decoding the JSON text written for a message gives that message back |
| MessageJson.ToJsonInjective | bot/src/conversation.rs:59-65 | two messages share a sorted-set member only if they are the same message |
| MessageJson.JsonOverhead | bot/src/conversation.rs:87 | the budget charges at least 24 bytes on top of the role and content bytes |
| SortedSet.Remove | bot/src/conversation.rs:94 | ZREM keeps exactly the entries whose member differs, and removing a present member shrinks the set |
| SortedSet.RemoveZSet | bot/src/conversation.rs:94 | ZREM keeps a set ordered and free of duplicate members |
| SortedSet.Insert | bot/src/conversation.rs:65 | inserting at rank adds exactly that entry |
| SortedSet.Add | bot/src/conversation.rs:65 | ZADD on one set: drop the member, then insert it at the rank of its new score; `AddSpec` states the result |
| SortedSet.AddSpec | bot/src/conversation.rs:65 | ZADD keeps a well-formed set that holds the member once, with the new score, and keeps every other member with its score |
| SortedSet.TopRanked | bot/src/conversation.rs:80 | the entry with the highest score is at reverse rank 0 |
| Redis.ZAddK | bot/src/conversation.rs:65 | ZADD on the keyspace changes only the set under the key and gives no key a TTL |
| Redis.ZRemK | bot/src/conversation.rs:94 | ZREM on the keyspace removes exactly the member's entries from the key's set and leaves other keys alone |
| Redis.ExpireK | bot/src/conversation.rs:66 | EXPIRE keeps the key's set for a positive TTL and deletes it otherwise; other keys keep their sets and TTLs |
| Redis.RedisStore.ZAdd | bot/src/conversation.rs:65 | the new keyspace is the ZADD of the old one |
| Redis.RedisStore.Expire | bot/src/conversation.rs:66 | the new keyspace is the EXPIRE of the old one |
| Redis.RedisStore.ZRevRangeAt | bot/src/conversation.rs:80 | the batch is empty exactly past the last rank; otherwise it holds the member at that rank counted from the highest |
| Redis.RedisStore.ZRem | bot/src/conversation.rs:94 | the new keyspace is the ZREM of the old one |
| Conversation.HistoryKeyInjective | bot/src/conversation.rs:56 | different user ids give different keys |
| Conversation.Reverse | bot/src/conversation.rs:101 | element `i` of the reversed list is element `n-1-i` of the original |
| Conversation.Decoded | bot/src/conversation.rs:86 | each decoded message encodes back to the member it was read from |
| Conversation.DecodedJsonLen | bot/src/conversation.rs:87 | the bytes charged for the entries equal the JSON bytes of the decoded messages |
| Conversation.Scan | bot/src/conversation.rs:77-98 | the loop as written, over the set as it shrinks: kept entries, the set left behind, and whether every call succeeded; `ScanSubset` and `ScanIsWalk` state its meaning |
| Conversation.Walk | bot/src/conversation.rs:77-98 | the same outcome on the set as stored before the read: which entries are kept, which survive and which are deleted; the `Walk` lemmas below state its properties |
| Conversation.ScanSubset | bot/src/conversation.rs:77-98 | the read loop leaves a well-formed set and only returns or leaves entries it was given |
| Conversation.ScanIsWalk | bot/src/conversation.rs:77-98 | without faults, the loop over the shrinking set equals the walk over the original set |
| Conversation.WalkBudget | bot/src/conversation.rs:74-91 | the kept turns fit the budget together with the new message's bytes, and nothing is kept when the new message alone exceeds the budget |
| Conversation.WalkKeptStay | bot/src/conversation.rs:89-91 | every kept turn stays stored |
| Conversation.WalkPartition | bot/src/conversation.rs:89-97 | every stored entry either survives or is deleted, and nothing else survives or is deleted |
| Conversation.WalkDisjoint | bot/src/conversation.rs:92-95 | in a well-formed set no entry both survives and is deleted |
| Conversation.WalkEvictedDoNotFit | bot/src/conversation.rs:89-95 | every deleted turn would exceed the budget next to the new message and what is finally kept |
| Conversation.WalkKeptSubseq | bot/src/conversation.rs:80-101 | read oldest first, the kept turns are a subsequence of the stored set |
| Conversation.WalkKeptChronological | bot/src/conversation.rs:100-101 | the returned turns are in ascending rank (timestamp) order |
| Conversation.SkipAfterEviction | bot/src/conversation.rs:92-97 | when the newest unread turn is deleted, the turn just below it survives without being returned |
| Conversation.ThreeTurnScenario | bot/src/conversation.rs:74-98 | with a 50-byte budget, a 15-byte new message and three 20-byte turns, the newest is kept, the middle one is deleted and the oldest survives unread |
| Conversation.EvictedStayGone | bot/src/conversation.rs:92-95 | a later read, under any budget, never returns a turn an earlier read deleted |
| Conversation.ReadWindow | bot/src/conversation.rs:71-104 | `get_conversation` on a keyspace: a failed connection is an error; otherwise the scan's kept turns decoded oldest first (or an error), and the scan's set stored under the key |
| Conversation.ReadKeepsValid | bot/src/conversation.rs:71-104 | a read, failing or not, leaves every history a well-formed set of stored messages |
| Conversation.ReadIsWalk | bot/src/conversation.rs:71-104 | a read without faults returns the walk's kept turns oldest first and stores the walk's survivors |
| Conversation.ReadReturnsKept | bot/src/conversation.rs:74-103 | a read without faults succeeds and returns the kept turns oldest first, decoded, in rank order and within the budget next to the new message |
| Conversation.ReadStores | bot/src/conversation.rs:89-97 | a read without faults leaves exactly the survivors under the user's key and changes no other key |
| Conversation.ZAddKeepsValid | bot/src/conversation.rs:65 | adding a stored message keeps every history well-formed |
| Conversation.StoreEffect | bot/src/conversation.rs:54-68 | `store_message` on a keyspace: connect, ZADD, EXPIRE, each of which may fail, leaving the earlier calls' effects |
| Conversation.StoreKeepsValid | bot/src/conversation.rs:54-69 | a store, failing or not, keeps every history well-formed |
| Conversation.StoreSpec | bot/src/conversation.rs:54-68 | a store without faults holds the message once with the given score, keeps the other members, sets the key's TTL to the cache duration whatever it was before (a non-positive duration deletes the key), and leaves other keys alone |
| Conversation.StoreExpireFails | bot/src/conversation.rs:65-66 | when EXPIRE fails the member stays added, the TTLs are unchanged and an error is returned |
| Conversation.StoreNewest | bot/src/conversation.rs:57-80 | a turn stored with a score above all others is the first one the next read sees |
| Conversation.StoreGet | bot/src/conversation.rs:65-66 | with a positive duration, the stored set after a store is the ZADD result |
| Conversation.StoreAll | bot/src/conversation.rs:119-126 | the stores of the loop, one after the other, each run whatever the previous one returned |
| Conversation.StoreAllKeepsValid | bot/src/conversation.rs:119-126 | the stores of the loop keep every history well-formed, whatever their faults |
| Conversation.StoreAllTwo | bot/src/conversation.rs:119-126 | the two pending stores run in order, user then assistant, and both are attempted |
| Conversation.Respond | bot/src/conversation.rs:111-128 | `process_message` after the read: the history passed on, the answer, and the two stores on `Ok(Some(_))` |
| Conversation.Pipeline | bot/src/conversation.rs:106-129 | `process_message` on a keyspace: the read with the message's byte length, then `Respond` |
| Conversation.PipelineKeepsValid | bot/src/conversation.rs:106-129 | `process_message`, failing or not, leaves every history well-formed |
| Conversation.RespondReply | bot/src/conversation.rs:111-128 | the reply is the function's reply on the window (or nothing) plus the user's message; both turns are stored exactly when the reply is `Ok(Some(a))`, user first; otherwise nothing is stored |
| Conversation.RespondIgnoresStoreFaults | bot/src/conversation.rs:119-128 | failing stores never change the reply |
| Conversation.RespondStoresBoth | bot/src/conversation.rs:113-126 | without faults, after an answer the user's turn scored `now` and the assistant's turn scored `later` are both in the history |
| Conversation.StoreTwo | bot/src/conversation.rs:119-126 | storing two different messages without faults leaves both in the set |
| Conversation.PipelineHistoryBudget | bot/src/conversation.rs:111-112 | the turns passed on before the new message fit the budget after the new message's `len()` is charged |
| Conversation.PipelineReadFailure | bot/src/conversation.rs:111 | when the read fails, only the new user message is passed on |
| Conversation.ConversationManager.Default | bot/src/conversation.rs:29-42 | the prefix is `history`, the TTL 600 seconds and the budget 10000 bytes |
| Conversation.ConversationManager.WithCacheDuration | bot/src/conversation.rs:44-47 | only the TTL changes |
| Conversation.ConversationManager.WithCharLimit | bot/src/conversation.rs:49-52 | only the budget changes |
| Conversation.ConversationManager.StoreMessage | bot/src/conversation.rs:54-69 | the result and the new keyspace are the store effect, with the clock used when no timestamp is given |
| Conversation.ConversationManager.GetConversation | bot/src/conversation.rs:71-104 | the result and the new keyspace are the read window of the user's key, and every history stays well-formed |
| Conversation.ConversationManager.TrimLoop | bot/src/conversation.rs:77-103 | the loop returns the scan's kept turns decoded and reversed, or an error on a failed call, and leaves the scan's set under the key |
| Conversation.ConversationManager.ProcessMessage | bot/src/conversation.rs:106-129 | the reply, the attempted stores and the new keyspace are the pipeline's, and every history stays well-formed, so the next message can be processed |
| Conversation.ConversationManager.StoreTurns | bot/src/conversation.rs:119-126 | the stores run one after the other, and every turn is attempted whatever the earlier ones did |
| Users.ConfigValue.GetApiKey | bot/src/user.rs:68-70 | the key, or `---` when none is set |
| Users.ConfigValue.GetPrompt | bot/src/user.rs:76-78 | the prompt, or `---` when none is set |
| Users.ConfigValue.TrySetApiKey | bot/src/user.rs:89-96 | never refused; only the key changes |
| Users.ConfigValue.TrySetModel | bot/src/user.rs:98-106 | accepted exactly for the three allowed models, and only the model changes; otherwise the fixed error |
| Users.ConfigValue.TrySetPrompt | bot/src/user.rs:108-115 | accepted exactly when the prompt has at most 4000 bytes, and only the prompt changes; otherwise the fixed error |
| Users.ConfigValue.TrySetMaxMessageLength | bot/src/user.rs:117-124 | accepted exactly when the length is at most 4000, zero and negative values included; otherwise the fixed error |
| Users.DefaultConfigValid | bot/src/user.rs:20-35 | the default model and length pass their setters' checks, and the key and prompt show as `---` |
| Users.ApiKeyRoundTrip | bot/src/user.rs:68-96 | a key that was set reads back from the getter |
| Users.PromptRoundTrip | bot/src/user.rs:76-115 | an accepted prompt reads back from the getter, even one spelled `---` |
| Users.SettersIdempotent | bot/src/user.rs:89-124 | setting the same value twice is setting it once |
| Users.OpenaiConfig.Default | bot/src/user.rs:22-35 | the record holds the default configuration |
| Users.OpenaiConfig.Clone | bot/src/user.rs:42-44 | the new record holds the copied value |
| Users.OpenaiConfig.SetApiKey | bot/src/user.rs:89-96 | always `Ok`, and the key is stored |
| Users.OpenaiConfig.SetModel | bot/src/user.rs:98-106 | `Ok` exactly for an allowed model; a refusal leaves the record unchanged |
| Users.OpenaiConfig.SetPrompt | bot/src/user.rs:108-115 | `Ok` exactly for at most 4000 bytes; a refusal leaves the record unchanged |
| Users.OpenaiConfig.SetMaxMessageLength | bot/src/user.rs:117-124 | `Ok` exactly for at most 4000; a refusal leaves the record unchanged |
| Users.OpenaiConfig.SetMaxTotalTokensSpent | bot/src/user.rs:126-128 | unchecked: only the token ceiling changes |
| Users.Openai.WithConfig | bot/src/user.rs:138-141 | replaces the configuration and keeps the spent tokens |
| Users.Openai.WithSpentTokens | bot/src/user.rs:142-145 | replaces the spent tokens and keeps the configuration |
| Users.BuildersCommute | bot/src/user.rs:137-146 | the two builders touch different fields, so their order does not matter, and together they replace the whole record |
| Commands.Query | bot/src/main.rs:94-132 | the one-word arms: the current value of the setting (`{:?}` of a string, `{}` of a number), the help text or `failed get help`, or `Unknown command` |
| Commands.Change | bot/src/main.rs:90-132 | the arms with two or more words: the named setter on the copy, the parse errors, or `Unknown command` |
| Commands.Dispatch | bot/src/main.rs:89-133 | a one-word command never changes the configuration; a longer one changes only the field its command word names; every error is a setter refusal or a parse error |
| Commands.UnrecognizedIsUnknown | bot/src/main.rs:132 | a word list that no arm takes is answered `Unknown command` and changes nothing |
| Commands.ExactArity | bot/src/main.rs:90-127 | a setting command with two or more arguments is unknown, except `/prompt` |
| Commands.QueriesChangeNothing | bot/src/main.rs:94-131 | a one-word command succeeds and leaves the configuration as it was |
| Commands.SplitTwoWords | bot/src/main.rs:87 | a command word and one argument, separated by a space, split into exactly those two words |
| Commands.SetApiKeyCommand | bot/src/main.rs:90-93 | `/api_key K` stores `K` and replies `Option updated` |
| Commands.SetModelCommand | bot/src/main.rs:97-100 | `/model M` succeeds exactly for an allowed model and otherwise returns the setter's error |
| Commands.SetPromptCommand | bot/src/main.rs:107-111 | `/prompt P` stores `P` as typed, inner spaces included, exactly when it has at most 4000 bytes |
| Commands.SetMaxMessageLengthCommand | bot/src/main.rs:112-116 | for every word `N` that parses as an `i32` (`+5` and `007` included), `/max_message_length N` stores the parsed value exactly when it is at most 4000, and otherwise returns the setter's error |
| Commands.SetMaxTotalTokensSpentCommand | bot/src/main.rs:120-124 | for every word `N` that parses as an `i64`, `/max_total_tokens_spent N` stores the parsed value and replies `Option updated` |
| Commands.UnparsableNumber | bot/src/main.rs:113-121 | an argument that does not parse gives `Invalid length` or `Invalid token amount` |
| Commands.TokensReportedBack | bot/src/main.rs:120-127 | the query after a set reports the number as it was typed |
| Commands.TokensQuery | bot/src/main.rs:125-127 | `/max_total_tokens_spent` alone reports the ceiling in decimal |
| Commands.OpenaiTable.UpdateOpenaiById | bot/src/main.rs:139-143 | a failed update changes nothing; otherwise the row with that id, if any, gets the new value |
| Commands.UpdateOutcome | bot/src/main.rs:139-143 | `update_openai_by_id`: the row with that id gets the new value, no row is added, and a failure changes nothing |
| Commands.SetupOutcome | bot/src/main.rs:85-149 | `setup` on a table: the command's error before anything is written, or the write of the new configuration with the unchanged spent tokens and its error |
| Commands.SetupStores | bot/src/main.rs:135-148 | a refused command returns its error and stores nothing; an accepted one stores the new configuration with the unchanged spent tokens and leaves other rows alone |
| Commands.SetupWriteFailure | bot/src/main.rs:144-145 | a failed write returns `Failed update user openai:` and a newline, followed by the database error |
| Commands.Setup | bot/src/main.rs:85-149 | the result and the new table are the setup outcome |
| Commands.RunCommand | bot/src/main.rs:86-133 | running the command through the record's setters gives the dispatch's configuration and reply, or its error |

## Left out

- Connecting to Redis (`REDIS_URL`, `Client::open`, `get_multiplexed_async_connection`) is not modelled. The client is a constructor parameter, and a failed connection is the first call of a `Fault`.
- `Utc::now()` is a parameter: `clock` in `StoreMessage`, and `now` and `later` in `ProcessMessage`.
- TTLs are recorded but never expire, because there is no clock in the model.
- `async`/`await` and concurrent tasks touching the same key are not modelled: every operation runs to completion alone.
- `log::error!` output is not modelled. A logged failure is modelled as ignored.
- `serde_json` is modelled only on the compact form it writes for `Message`. The decoder reads that canonical form and nothing else. Every stored member is assumed to be such a text, so the `unwrap` in `get_conversation` never panics.
- Conversation.ConversationManager.TrimLoop: `total_length` is an unbounded `nat`. The `usize` addition cannot overflow for texts that fit in memory.
- Redis.RedisStore.ZRevRangeAt: takes the stored set as a ghost argument that names what the key holds, instead of reading it.
- `ConversationManager::new` is not modelled separately. `Default` sets the same fields.
- RustStd.DebugStr: `{:?}` escapes `\0`, tab, CR, LF, backslash and the double quote. It does not write `\u{..}` for other control or non-printable characters, nor for grapheme-extending characters such as U+0301, which Rust also writes as `\u{..}` although they are printable.
- Commands.Dispatch: the `match` arms are grouped by word count. This gives the same result, because the arms of different arity never overlap and the one-word `/prompt` arm still comes before the `/prompt ..` arm.
- The help-file read in `setup` is a parameter (`None` when the file cannot be read). The logged error is left out.
- `bot/src/db.rs` is not part of this model. `update_openai_by_id` is an in-memory table, with the database error's debug text as a parameter.
- The JSON conversions of `Openai` are not modelled, because they are library behaviour.
- `User::new` and `get_id` are not modelled separately: the constructor and the `id` field serve.
- `get_model`, `get_max_message_length` and `get_max_total_tokens_spent` are read as fields, and so are `get_config` and `get_openai_spent_tokens` (`User.GetConfig`, `User.GetOpenaiSpentTokens`), which only return a field.
- `bot/src/dialogue.rs`, `Handler`, `LongPoll` and `main` are not part of this model. They are transport and calls into the completion API.
