# shireikan command handler — a verified model

shireikan is a command handler for Discord bots written in Go. A bot
registers **commands**, each with a list of invokes (`ping`, `p`), and
**middleware**. Each middleware subscribes, through a bit mask, to the layer
before the command, the layer after it, or both. For every inbound message the
handler runs these steps in order:

1. It drops messages with no author, from the bot itself, shorter than two
   bytes, or from another bot when bots are not allowed.
2. It picks the prefix. The general prefix wins when the content starts with
   it. Otherwise it asks the guild prefix getter.
3. It resolves the channel and, outside direct messages, the guild. Each lookup
   tries the state cache first and the REST API second.
4. It splits the content into arguments with the pattern
   `(?:[^\s"]+|"[^"]*")+` and strips their quotes.
5. It separates the invoke from the arguments, with or without a space after
   the prefix.
6. It looks the invoke up (lower-cased when so configured).
7. It refuses commands that may not run in direct messages.
8. It runs the before-command middleware, the command and the after-command
   middleware.
9. It optionally deletes the command message.

Every failure goes to the error callback with its error type. The argument
helpers convert an argument to an integer or a boolean, fetch one by index,
search the list, and splice it.

The model is written in these terms:

- **`Dispatch.HandleMessage`** gives the processing of one message as the
  sequence of observable calls it makes (`Events.Event`): prefix getter,
  channel and guild lookups, middleware handlers, the command, the deletion,
  the error callback, and a `Panicked` event where the Go code panics.
- **`Dispatch.Platform`** gives up front, as oracles, what the collaborators
  answer. These are the state cache, the REST client, the prefix getter, each
  middleware (index `k` answers `before(k)` or `after(k)`), the command and the
  deletion.
- **`Handlers.Handler`** is the handler object: its command map, command
  instances and middleware list are fields. Its methods update them in place
  (`RegisterCommand`, `RegisterMiddleware`). `MessageHandler` and
  `ExecuteMiddlewares` are the step-by-step procedures, each proved to make
  exactly the calls its specification function describes.
- **`Tokenizer`** models the Go regular expression. It is a leftmost-first,
  greedy scanner (`MatchEnd`, `RawTokens`) checked against a separate grammar
  of the pattern's language (`Units`, `InRegex`).
- **`Strconv`** models `strconv.Atoi` (that is, `ParseInt(s, 10, 64)`) and
  `strconv.ParseBool` for the argument conversions.
- **`Order`** and **`Guards`** state the handler's promises about whole
  dispatches: the stages happen in order, and each kind of call implies the
  conditions listed in `Guards.EventGuarded` (for example, a deletion implies
  that the command was found, both middleware layers passed and the command
  returned no error). **`Behaviour`** adds the consequences for callers and
  the exact traces of the early stops.

## Model

| member | source | states |
|---|---|---|
| Arguments.AsString | arguments.go:10-12 | the argument's text, unchanged |
| Arguments.AsInt | arguments.go:17-19 | succeeds exactly on optionally signed decimal text whose value fits in 64 bits, with that value; out of range is a range error |
| Arguments.AsBool | arguments.go:28-39 | true exactly for 1, t, T, TRUE, true, True; false exactly for 0, f, F, FALSE, false, False; every other text is a syntax error |
| Arguments.Get | arguments.go:45-54 | the element at an index inside the list, the empty argument at any other index |
| Arguments.IndexOf | arguments.go:56-66 | the first index holding v, or -1 exactly when v is absent |
| Arguments.Contains | arguments.go:68-72 | true exactly when v is in the list |
| Arguments.Spliced | arguments.go:74-85 | the list with r elements removed from position i: unchanged when i is past the end, cut at i when the range runs past the end |
| Arguments.Splice | arguments.go:76-85 | the returned slice is Spliced of the old contents; in place over the backing array when the result fits (cells moved from i on, the rest untouched), otherwise a fresh array with the old one untouched |
| Arguments.MoveTail | arguments.go:85 | the in-place copy that append performs: cells i..m take the values r further on, the other cells keep theirs |
| Arguments.SplicedFromElements | arguments.go:85 | a list that agrees element by element with the head before i and the tail after i + r is the spliced list |
| Arguments.GetSpliced | arguments.go:48-54 | Get after Splice reads the old index below i and the index shifted by r from i on |
| Arguments.SplicedStepwise | arguments.go:76-85 | removing r elements at i equals removing one and then r - 1 more at the same place |
| Arguments.SplicedExamples | arguments.go:76-85 | removal inside the list, removal running past the end, and i at the end leaving the list unchanged |
| Arguments.CoercionExamples | arguments.go:17-38 | TRUE parses as true, yes fails, 42 parses, 4.2 fails |
| Strconv.Atoi | arguments.go:18 | `strconv.Atoi`: an optional sign, then the unsigned decimal scan, then the signed 64-bit range check; its meaning is stated by AtoiSpec and AtoiItoa |
| Strconv.ParseBool | arguments.go:38 | `strconv.ParseBool` over its twelve accepted spellings, a syntax error otherwise; its meaning is stated by Arguments.AsBool and ParseBoolFormatBool |
| Strconv.DigitChar | arguments.go:18 | the digit character for a value below ten has that value |
| Strconv.DigitsValueMonotone | arguments.go:18 | a longer prefix of a digit string denotes a number at least as large, which is why the parser may stop at the cutoff |
| Strconv.ParseUintFromDigits | arguments.go:18 | scanning the rest of a digit string yields its value, or a range error when it exceeds the unsigned 64-bit maximum |
| Strconv.ParseUintFromNonDigits | arguments.go:18 | a non-digit anywhere in the rest makes the unsigned scan fail |
| Strconv.ParseUintSpec | arguments.go:18 | the unsigned parse succeeds exactly on non-empty digit strings within 64 bits, with their value |
| Strconv.AtoiSpec | arguments.go:17-19 | Atoi succeeds exactly on well-formed text in the signed 64-bit range, with its value; well-formed text outside it is a range error |
| Strconv.FormatNatDigits | arguments.go:18 | the decimal rendering of n is non-empty digits denoting n |
| Strconv.AtoiItoa | arguments.go:17-19 | every 64-bit integer, formatted in decimal, parses back to itself |
| Strconv.ParseBoolFormatBool | arguments.go:37-39 | formatting a boolean and parsing it back gives the same boolean |
| Registry.ToLower | handler.go:149-151 | the lower-casing applied to an invoke when folding is on; ToLowerIdempotent states that folding again changes nothing |
| Registry.RegisterInvokes | handler.go:148-156 | the loop of RegisterCommand over the invokes: file each folded invoke under the command, stop at the first key already present (Go's panic); RegisterInvokesSpec and ConflictKey state its outcome |
| Registry.GetCommand | handler.go:187-194 | the command filed under the folded invoke, if any; LookupAfterRegister and LookupWithoutFolding state what it finds |
| Registry.RegisterInvokesSpec | handler.go:146-157 | registration succeeds exactly when every (folded) invoke is a new key and the invokes are pairwise distinct; old entries are kept and every new key is one of the command's invokes mapped to it |
| Registry.RegisteredInvokesMapped | handler.go:148-156 | after a successful registration every invoke of the command maps to the command |
| Registry.ConflictKey | handler.go:146-157 | a failed registration names a key that is one of the command's invokes and is present in the map; if it was present before it still maps to the earlier command; every earlier entry is kept, and every invoke before the clashing one is already filed under the command |
| Registry.ToLowerIdempotent | handler.go:150 | lower-casing twice is lower-casing once, so folding at registration and at lookup agree |
| Registry.LookupAfterRegister | handler.go:187-194 | after registration, GetCommand finds the command by any of its invokes, and in any letter case when folding is on |
| Registry.LookupWithoutFolding | handler.go:187-194 | without folding, GetCommand finds a command exactly for the keys of the map |
| Registry.DuplicateInvokeConflicts | handler.go:152-154 | registering a second command with an invoke already taken is a conflict |
| Tokenizer.NextQuote | handler.go:30 | the position of the next closing quote, or the end of the text |
| Tokenizer.NextQuoteSkips | handler.go:30 | no quote lies between the start and the position NextQuote finds |
| Tokenizer.NextQuoteIs | handler.go:30 | NextQuote finds the first quote at or after the start |
| Tokenizer.MatchEnd | handler.go:30 | the match starting at j ends inside the text |
| Tokenizer.MatchEndUnits | handler.go:30 | every text the scanner matches belongs to the pattern's language |
| Tokenizer.MatchEndIsMaximal | handler.go:30 | a match stops only at the end of the text, at white space, or at a quote that is never closed |
| Tokenizer.MatchEndOfUnits | handler.go:30 | a run in the pattern's language followed by white space or the end of the text is matched whole |
| Tokenizer.RawTokens | handler.go:268 | `FindAllString(content, -1)` with the argument pattern: successive leftmost-first matches; RawTokensInRegex and RawTokensOfJoin state what it returns |
| Tokenizer.StripAll | handler.go:269-273 | every token with its quotes removed; TokensHaveNoQuotes and StripAllQuoteFree state the result |
| Tokenizer.Tokenize | handler.go:268-273 | the argument list of a message: its raw tokens, stripped of quotes; TokenizeJoinSpaces states the round trip |
| Tokenizer.RawTokensInRegex | handler.go:268 | every token FindAllString returns is non-empty and in the pattern's language |
| Tokenizer.RemoveQuotes | handler.go:269-272 | the result has no quote, is no longer than the input, and equals a quote-free input |
| Tokenizer.RemoveQuotesConcat | handler.go:271 | stripping quotes distributes over concatenation |
| Tokenizer.RemoveQuotesOfGroup | handler.go:271 | stripping a quoted group leaves its inside |
| Tokenizer.TokensHaveNoQuotes | handler.go:268-273 | no argument has a quote after stripping |
| Tokenizer.RawTokensOfJoin | handler.go:268 | a text laid out as the given pattern-language words separated by single spaces tokenizes back to those words |
| Tokenizer.TokenizeJoinSpaces | handler.go:268-273 | tokenizing words joined by single spaces gives back the words with their quotes stripped |
| Tokenizer.WordInRegex | handler.go:30 | a non-empty run of non-space, non-quote characters is in the pattern's language |
| Tokenizer.QuotedInRegex | handler.go:30 | a quoted group is in the pattern's language |
| Tokenizer.TokenizeExample | handler.go:268-273 | `!ban "John Doe" 10` gives `!ban`, `John Doe`, `10` |
| Tokenizer.StrippedGroup | handler.go:269-272 | a quoted token is replaced by its inside |
| Invocation.SplitInvocation | handler.go:275-287 | the invoke and the arguments taken from the tokens in either prefix mode, or None where Go's slicing panics; SplitInvocationSpec states exactly when and what |
| Invocation.SplitInvocationSpec | handler.go:275-287 | the split panics exactly on an empty token list, or in attached mode on a first token shorter than the prefix; otherwise the tokens are rebuilt from prefix, invoke and arguments in each mode |
| Invocation.JoinSpacesStartsWith | handler.go:230 | a space-joined command line starts with its first word |
| Invocation.StripAllQuoteFree | handler.go:269-272 | quote-free leading tokens pass through stripping unchanged |
| Invocation.ParseCommandLine | handler.go:268-287 | a command line written as prefix, invoke and arguments starts with the prefix and splits back into that invoke and the stripped arguments, in both modes |
| Invocation.WordRunMatched | handler.go:30 | a match starting at a run of word characters covers at least the run |
| Invocation.WordPrefixNeverPanics | handler.go:275-287 | with a non-empty prefix of word characters that the content starts with, the split never panics |
| Invocation.PrefixAloneInSpaceMode | handler.go:280-283 | in space mode, a message holding only the prefix gives the empty invoke and no arguments |
| Invocation.SpaceModeDropsFirstToken | handler.go:276-283 | in space mode the second token is the invoke, and one token gives the empty invoke |
| Invocation.AttachedPrefixWithSpacePanics | handler.go:284-287 | in attached mode a prefix containing a space can select a first token shorter than itself, and the split panics |
| Invocation.BlankContentPanics | handler.go:268-287 | content of white space only yields no tokens, and the split panics in both modes |
| Pipeline.RunLayer | handler.go:326-343 | executeMiddlewares: whether the layer lets the dispatch go on, and the calls it makes; RunLayerOk, RunLayerPassCalls and RunLayerStop state both against FirstStop |
| Pipeline.FirstStop | handler.go:326-340 | the first subscribed middleware that errs or declines, every subscribed one before it having passed |
| Pipeline.RunLayerFromSpec | handler.go:326-343 | from any position: the layer succeeds exactly when no subscribed middleware stops it; on success it makes one call per subscribed middleware; otherwise it makes the calls up to the stopping one, plus the error report when that one erred |
| Pipeline.ScanStep | handler.go:327-339 | one iteration: skip unsubscribed, report and stop on an error, stop on a refusal, else call and go on |
| Pipeline.RunLayerOk | handler.go:326-343 | the layer succeeds exactly when every subscribed middleware passes |
| Pipeline.RunLayerPassCalls | handler.go:326-343 | a successful layer calls exactly the subscribed middleware, in order |
| Pipeline.RunLayerStop | handler.go:332-339 | a failed layer calls up to the first stopping middleware and reports its error if it erred |
| Pipeline.CallsBetweenSubscribed | handler.go:328-332 | only subscribed middleware is called, with this layer, command and context |
| Pipeline.RunLayerEvents | handler.go:326-343 | a layer's calls are middleware calls on that layer, with at most one middleware error report, and only as the last call of a failed layer |
| Dispatch.Lookup | handler.go:247-252 | the state cache's value when it has one; on a cache miss, exactly the REST answer, value or error; it fails only when the cache is empty and REST fails |
| Dispatch.Filtered | handler.go:208-218 | a message with no author, from the bot itself, shorter than two bytes, or from a bot when bots are not allowed; SilentIff states that such a message causes no call |
| Dispatch.SelectPrefix | handler.go:229-245 | the general prefix whenever the content starts with it; otherwise the getter's error when it fails, the guild prefix when it is non-empty and the content starts with it, and no prefix ("") in every other case; a prefix chosen is always one the content starts with |
| Dispatch.HandleMessage | handler.go:207-324 | messageHandler as the calls it makes for one message; Order.DispatchOrdered, Order.DispatchAtMostOnce, Guards.HandleMessageGuarded and the Behaviour lemmas state its promises |
| Dispatch.Resolve | handler.go:243-252 | no call without a prefix; otherwise the channel lookup, its error report, or what follows; Order.ResolveOrdered and Guards.ResolveGuarded state its promises |
| Dispatch.Locate | handler.go:254-266 | a disallowed direct message ends silently; outside direct messages the guild lookup or its error report; Order.LocateOrdered and Guards.LocateGuarded state its promises |
| Dispatch.Run | handler.go:268-289 | the split, a panic where Go's slicing panics, then the command lookup with the arguments in the context; Order.RunOrdered and Guards.RunGuarded state its promises |
| Dispatch.FindAndExecute | handler.go:291-300 | a command-not-found report, a not-executable-in-DM report, or the execution; Guards.FindAndExecuteGuarded and Behaviour.DMRefusalRunsNothing state its promises |
| Dispatch.Execute | handler.go:305-323 | the before layer, then the command, then what follows it; Order.ExecuteOrdered and Guards.ExecuteGuarded state its promises |
| Dispatch.AfterCommand | handler.go:309-323 | the command's error report, or the after layer followed by the cleanup; Order.AfterCommandOrdered and Guards.AfterCommandGuarded state its promises |
| Dispatch.Cleanup | handler.go:318-323 | the deletion of the command message when configured, and its error report; Order.CleanupOrdered and Guards.CleanupGuarded state its promises |
| Order.OrderedConcat | handler.go:207-324 | two ordered traces with the first strictly before the second's stages form an ordered trace |
| Order.LayerOrdered | handler.go:305-316 | a layer's calls lie in its own stage, and an error report is possible only when it fails |
| Order.CleanupOrdered | handler.go:318-323 | the deletion comes before its error report |
| Order.AfterCommandOrdered | handler.go:309-323 | the command's error, the after layer and the deletion come in that order |
| Order.ExecuteOrdered | handler.go:302-323 | the before layer, command, after layer and deletion come in that order |
| Order.RunOrdered | handler.go:268-323 | from the split on, the calls are ordered |
| Order.LocateOrdered | handler.go:254-323 | from the DM check on, the guild lookup precedes everything after it |
| Order.ResolveOrdered | handler.go:243-323 | from the prefix check on, the channel lookup precedes everything after it |
| Order.DispatchOrdered | handler.go:207-324 | every dispatch makes its calls in the handler's stage order |
| Order.OrderedAtMostOnce | handler.go:207-324 | in an ordered trace an error report or panic is last, each non-middleware call happens at most once, and the command runs at most once |
| Order.DispatchAtMostOnce | handler.go:207-324 | a dispatch reports at most one error, as its last call, and runs the command at most once |
| Guards.CleanupGuarded | handler.go:318-323 | for a ready command whose before layer passed, which returned no error and whose after layer passed, the deletion and its error report satisfy their guards: the message is its own, the command was found and allowed in the channel, every subscribed middleware on both layers continued |
| Guards.LayerReportIsStop | handler.go:332-336 | a layer's error report means the layer failed, at a first stopping middleware that answered with exactly the reported error |
| Guards.LayerGuarded | handler.go:305-316 | middleware is called only for a resolved command with a fully prepared context; after-layer calls only after the before layer passed and the command succeeded; a layer's error report carries the error of the middleware that stopped it |
| Guards.AfterCommandGuarded | handler.go:309-323 | after the command: its error report implies the before layer passed and carries the command's error; after-layer calls imply no command error; a middleware error report implies that layer failed at a middleware that answered with that very error; the deletion implies the after layer passed |
| Guards.ExecuteGuarded | handler.go:302-323 | every call from the before layer on is guarded |
| Guards.FindAndExecuteGuarded | handler.go:289-323 | the lookup errors and everything after carry a fully prepared context |
| Guards.RunGuarded | handler.go:268-323 | from the split on, every call is guarded |
| Guards.LocateGuarded | handler.go:254-323 | the guild lookup happens only outside direct messages, and everything after it is guarded |
| Guards.ResolveGuarded | handler.go:243-323 | the channel lookup happens only with a prefix found, and everything after it is guarded |
| Guards.HandleMessageGuarded | handler.go:207-324 | every call of a dispatch satisfies EventGuarded: lookups only with a prefix found (the guild only outside DMs); a panic only with the channel accepted; middleware and the command only when found and allowed; after-layer calls only after the before layer passed and the command returned no error; the deletion only when both layers passed; each error report only under its own failure, a middleware report with the error of the first subscribed middleware that stopped the failing layer |
| Behaviour.EmptyPrefixStarts | handler.go:230 | every content starts with the empty prefix |
| Behaviour.SilentIff | handler.go:207-245 | a dispatch makes no call at all exactly when the message is filtered out or the general prefix is empty |
| Behaviour.GuildPrefixAsked | handler.go:229-241 | the guild prefix getter is called exactly for unfiltered messages that do not start with the general prefix |
| Behaviour.CommandRunsOnlyWhenAllowed | handler.go:207-309 | a command runs only for an unfiltered message, with the split's arguments, when found by its invoke, only where DMs are allowed, and after every before-layer middleware passed |
| Behaviour.AfterLayerOnlyAfterSuccess | handler.go:305-316 | after-layer middleware runs only when the command succeeded and the before layer passed |
| Behaviour.MiddlewareReportIsStoppersError | handler.go:305-316 | a middleware error report in a dispatch carries the error of the first subscribed middleware that stopped the before layer, or, after a successful command, the after layer; a middleware that only declines is never reported |
| Behaviour.DeleteOnlyAfterSuccess | handler.go:305-323 | the deletion happens only when configured, for an unfiltered message whose command was found and allowed, after every subscribed before-layer middleware continued, the command returned no error and every subscribed after-layer middleware continued; it removes the command message |
| Behaviour.DeletedWhenAllPass | handler.go:305-323 | conversely, with deletion configured, a runnable command whose two layers pass and which returns no error gets its message deleted |
| Behaviour.GetterFailure | handler.go:232-237 | a failing guild prefix getter gives exactly the getter call and its report with the initial context |
| Behaviour.GuildPrefixMisses | handler.go:238-245 | an empty guild prefix, or one the message does not start with, gives exactly the getter call and nothing else |
| Behaviour.GuildPrefixUsed | handler.go:229-247 | without the general prefix, a non-empty guild prefix the message starts with is the prefix used, and processing goes on from the getter call to the channel lookup |
| Behaviour.DMDisallowedSilent | handler.go:254-257 | a direct or group direct message with DMs not allowed ends silently right after the channel lookup |
| Behaviour.NoGuildLookupInDM | handler.go:254-266 | the guild is looked up only when the channel resolved and is not a direct message |
| Behaviour.DMRefusalRunsNothing | handler.go:297-300 | refusing a command in a direct message reports that error and runs no middleware and no command |
| Behaviour.ExampleTokens | handler.go:268-273 | `!echo hello` tokenizes to `!echo`, `hello` |
| Behaviour.EchoExample | handler.go:207-343 | with one middleware subscribed to both layers and continuing, `!echo hello` in a guild channel gives the channel and guild lookups, the before-layer call, echo run with `hello`, and the after-layer call, in that order |
| Handlers.Handler.constructor | handler.go:131-136 | a new handler has its configuration, no commands and no middleware |
| Handlers.Handler.RegisterCommand | handler.go:146-157 | appends the command, then files its invokes, returning the first key already present; the map is what RegisterInvokes gives |
| Handlers.Handler.RegisterMiddleware | handler.go:159-161 | appends the middleware and changes nothing else |
| Handlers.Handler.ExecuteMiddlewares | handler.go:326-343 | its result and calls are RunLayer's |
| Handlers.Handler.StripQuotes | handler.go:269-273 | strips every argument of its quotes, in place |
| Handlers.Handler.MessageHandler | handler.go:207-324 | its calls are HandleMessage's |
| Handlers.Handler.ResolveChannel | handler.go:243-266 | its calls are Resolve's |
| Handlers.Handler.LocateGuild | handler.go:254-266 | its calls are Locate's |
| Handlers.Handler.Invoke | handler.go:268-300 | its calls are Run's |
| Handlers.Handler.ExecuteCommand | handler.go:302-323 | its calls are Execute's |

## Left out

- `Argument.AsFloat64`: floating-point parsing is not modelled.
- The object map (`GetObject`, `SetObject` and the handler entry set before the middleware runs): untyped values in a concurrent map, with no effect on dispatch.
- `RegisterHandlers`: it only subscribes the message handler to the session's create and update events. The model takes `isEdit` as a parameter. In the source the update subscription also passes `false`.
- `NewHandler`'s default callbacks and the default help command: callbacks are the error and prefix-getter oracles, and the help command is not part of this model.
- `GetConfig`, `GetCommandMap`, `GetCommandInstances`: plain field reads, which are the fields of `Handlers.Handler` themselves.
- The session calls are not modelled as Go code. The state cache, REST lookups, guild prefix getter, middleware handlers, command execution and message deletion are answers given in `Dispatch.Platform`. A middleware's answer depends only on its index and layer, not on the command or context it receives.
- Registry.ToLower: folds ASCII letters only. Go's `strings.ToLower` also folds non-ASCII letters.
- Strings are sequences of characters standing for the bytes of UTF-8 text. Go's lengths and slices count bytes, and the pattern's classes are ASCII. The white-space class is space, tab, newline, form feed and carriage return (RE2's `\s`).
- Arguments.AsInt: on failure returns only the error. Go's `Atoi` also returns a value then: 0 on a syntax error, and on a range error the int64 bound of the text's sign (`AsInt("9223372036854775808")` gives 9223372036854775807 with the range error). The model's `Result` has no room for a value beside an error, and a caller that ignores the error would observe this clamped value.
- Arguments.AsBool: on failure returns only the error. Go's `ParseBool` also returns `false` beside its syntax error, and the model's `Result` has no room for that value.
- Go's `int` is taken to be 64 bits wide, as on the platforms the library targets.
- Panics are explicit outcomes: `Panicked` for the split, `Conflict` for a duplicate invoke, and preconditions for Splice's negative indices and int overflow.
- Concurrency (several messages handled at once) is not modelled.
