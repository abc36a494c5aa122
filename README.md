# go-kit/log adapters, modelled in Dafny

This project models three small parts of the go-kit `log` package and proves what they promise.

- **The stdlib adapter** (`stdlib.go`). `StdlibAdapter` receives the lines that Go's standard `log` package writes. It turns each line into an ordered key/value event for a go-kit logger. The steps are: strip the configured prefix; parse the line with a regular expression into date, time, file and message groups; trim trailing newlines from every capture; join date and time into one timestamp; optionally put the prefix back in front of the message; and emit `ts`, `caller` and `msg` pairs in that order, skipping absent ones. The adapter is built from defaults plus functional options, which are applied left to right.
- **The zap adapter's dispatch** (`zap/zap_sugar_logger.go`). `Log` looks at the first key/value pair of an event. An event of at most one element goes whole to zap's plain `Info`. Otherwise, when the first pair is the level key with one of the four go-kit level values, the event goes to the matching keyed method of zap's sugared logger, without the level pair; in every other case the whole event goes to the default method. `NewZapSugarLogger` derives the default method from a zap level, with `Infow` for any level zap does not name.
- **Context rebinding** (`context.go`). `WithContext` returns a new `context` decorator. It copies every field of an existing decorator except the Go context, which it replaces. A logger that is not a decorator is wrapped first.

Files and modules:

- `values.dfy` (module `KitValues`): `Option`, the key/value element type `Value`, the go-kit levels and `LevelKey`.
- `gostrings.dfy` (module `GoStrings`): `strings.TrimPrefix` and `strings.TrimRight(s, "\n")`.
- `stdlib.dfy` (module `Stdlib`): the adapter, its options, `handlePrefix`, `handleMessagePrefix`, `subexps` and `Write`.
- `zap_sugar_logger.dfy` (module `ZapSugar`): zap levels, the sugared methods, `NewZapSugarLogger` and `Log`.
- `context.dfy` (module `LogContext`): the `context` decorator and `WithContext`.

Modelling choices:

- Go strings and byte slices are Dafny `string`s, one `char` per byte. The adapter only tests prefixes, concatenates and trims trailing `'\n'`. These act the same on bytes and on chars.
- The regular-expression engine is a library. `Write` and `Subexps` take it as a parameter `find`, standing for `FindStringSubmatch`: it returns the whole match and one capture per group, or the empty sequence (Go's nil) when nothing matches. `SubexpNames` of the two predefined expressions is written out from their patterns (stdlib.go:144-155): `["", "date", "time", "", "file", "", "msg"]` for the full one and the same without `file` for the default one. Any other expression is `Compiled(id, names)`.
- The wrapped go-kit logger's `Log` is the parameter `loggerLog` of `Write`, applied to the adapter's own logger and the event. `Write` returns the event the logger received, together with its own `(n, err)`.
- An option (`func(*StdlibAdapter)`) is a function from the adapter before to the adapter after. Options written by users are therefore covered too. `NewStdlibAdapter` is a method with the source's loop, proved equal to the left fold `ApplyAll`.
- `Write` returns the length of the line *after* prefix stripping (stdlib.go:94 reassigns `p`), as the code does. When a prefix was stripped this is less than the caller's length, with a nil error. `HandlePrefix`'s contract states this length.
- Zap's calls are recorded as `ZapCall` values: `PlainInfo(args)` for `Info(args...)`, and `Keyed(method, msg, keysAndValues)` for `Debugw` … `Fatalw`. `Log` returns the list of calls it made and its error.
- `level.Key()` is taken to be the string `"level"`. The level values are taken to be pointer values that are equal only to themselves, so a string `"error"` is not a level value. The `level` package's source is not part of this model.
- `newContext` (in `log.go`, which is not part of this model) is used by `WithContext` only on loggers that are not decorators. It is modelled as a decorator around the logger with nothing bound and no Go context.

## Model

| member | source | states |
|---|---|---|
| GoStrings.TrimPrefix | stdlib.go:126 | the result is the input with one leading copy of the prefix removed when the input starts with it, and the input unchanged otherwise |
| GoStrings.TrimRightNewlines | stdlib.go:165 | the result is a prefix of the input, does not end in a newline, and only newlines were cut off |
| GoStrings.TrimRightNewlinesIdempotent | stdlib.go:165 | trimming trailing newlines twice gives the same result as trimming once |
| GoStrings.TrimRightNewlinesAppended | stdlib.go:165 | a capture followed by any number of newlines trims back to the capture |
| Stdlib.TimestampKey | stdlib.go:42-44 | the option sets the timestamp key and changes no other field |
| Stdlib.FileKey | stdlib.go:47-49 | the option sets the file key and changes no other field |
| Stdlib.MessageKey | stdlib.go:52-54 | the option sets the message key and changes no other field |
| Stdlib.StdlibRegexp | stdlib.go:59-64 | a nil regexp gives an option that changes nothing; otherwise the option sets the regexp and nothing else |
| Stdlib.Prefix | stdlib.go:72-74 | the option sets the prefix and the join flag and changes no other field |
| Stdlib.NewStdlibAdapter | stdlib.go:78-91 | the adapter is the defaults with every option applied in order; with no options its keys are ts, caller and msg, the prefix is empty, join is off and the regexp is the full one |
| Stdlib.ApplyAllAppend | stdlib.go:86-88 | applying two option lists one after the other equals applying their concatenation |
| Stdlib.LastOptionApplied | stdlib.go:86-88 | the last option's update is applied on top of everything before it |
| Stdlib.ApplyAllKeeps | stdlib.go:86-88 | options that each leave a field alone leave it alone together |
| Stdlib.PackageOptionsKeepOtherFields | stdlib.go:42-74 | none of the package's five options touches the wrapped logger, and each leaves alone every key, the prefix settings and the regexp that it does not set |
| Stdlib.OptionsKeepLogger | stdlib.go:78-88 | when no option touches the wrapped logger, the built adapter wraps the logger it was given |
| Stdlib.SetThenKept | stdlib.go:86-88 | an option that sets a field, followed only by options that leave that field alone, decides the field, whatever came before |
| Stdlib.LaterTimestampKeyWins | stdlib.go:86-88 | of two TimestampKey options the later one decides the key, whatever comes between them and whatever follows that leaves the key alone |
| Stdlib.LaterFileKeyWins | stdlib.go:86-88 | the same for two FileKey options |
| Stdlib.LaterMessageKeyWins | stdlib.go:86-88 | the same for two MessageKey options |
| Stdlib.LaterPrefixWins | stdlib.go:72-88 | of two Prefix options the later one decides both the prefix and the join flag, whatever comes between them and whatever follows that leaves them alone |
| Stdlib.LaterRegexpWins | stdlib.go:59-88 | of two regexp options with non-nil regexps the later one decides the regexp, whatever comes between them and whatever follows that leaves it alone |
| Stdlib.TimestampKeyThenPrefix | stdlib.go:78-88 | two TimestampKey options followed by a Prefix option give the later key |
| Stdlib.NilRegexpIsNoOp | stdlib.go:59-64 | a nil-regexp option can be removed from any option list without changing the adapter |
| Stdlib.HandlePrefix | stdlib.go:124-129 | with an empty prefix the line is unchanged; a line starting with the prefix loses exactly that prefix; any other line is unchanged; the length shrinks by the prefix length exactly when it was stripped |
| Stdlib.HandleMessagePrefix | stdlib.go:131-141 | with an empty prefix the message is unchanged; without join one leading prefix is removed; with join the result is the prefix followed by the message with one leading prefix removed |
| Stdlib.JoinedMessageStartsWithPrefix | stdlib.go:131-141 | with join the result always starts with the prefix, a message that already starts with it is unchanged, and applying the step twice equals applying it once |
| Stdlib.CollectedSpec | stdlib.go:163-166 | after the loop's first k steps exactly the first k group names are keys, each mapped to the trimmed capture of its last group, and no value ends in a newline |
| Stdlib.SubexpNames | stdlib.go:144-155 | each predefined regexp has the unnamed whole-match group first, groups date, time and msg, and no group name twice; only the full one has a file group; any other regexp has its own names |
| Stdlib.SubexpMapSpec | stdlib.go:157-167 | with fewer captures than groups the map is empty; otherwise every group name is a key mapped to the trimmed capture of the last group of that name, and no value ends in a newline |
| Stdlib.Subexps | stdlib.go:157-168 | the loop's map runs the engine on the line and equals the group-name map of its captures |
| Stdlib.TimestampOf | stdlib.go:98-107 | the joined timestamp is empty exactly when date and time both are; both present gives date, one space, time; otherwise it is whichever is present |
| Stdlib.Write | stdlib.go:93-122 | the logger receives the event built from the captures of the prefix-stripped line; the error is the logger's; the count is 0 on error and the stripped line's length otherwise |
| Stdlib.EventKeyvalsShape | stdlib.go:108-117 | the event has even length: the ts pair first when the timestamp is non-empty, then the file pair when the file is non-empty, and the msg pair last exactly when the msg group exists, even if it is empty |
| Stdlib.NoMatchEmptyEvent | stdlib.go:157-162 | a failed match gives the logger an empty event |
| Stdlib.FullRegexpGroups | stdlib.go:144-152 | on a match of the full regexp the keys are date, time, file, msg and "", each named group mapped to its own trimmed capture |
| Stdlib.FullRegexpFields | stdlib.go:157-167 | on a full-regexp match whose date, time, file and msg captures carry no trailing newline, those groups are the event's fields unchanged and the msg group exists |
| Stdlib.DefaultRegexpGroups | stdlib.go:144-154 | on a match of the default regexp the keys are date, time, msg and "", each named group mapped to its own trimmed capture |
| Stdlib.FullRegexpEventHasMessage | stdlib.go:114-117 | with the full regexp every match gives an event whose last pair is the message pair |
| Stdlib.DefaultRegexpHasNoCaller | stdlib.go:154 | with the default regexp the event is the optional ts pair followed by the msg pair, never a caller pair |
| Stdlib.ExampleAdapter | stdlib_test.go:325 | the adapter of the table-driven test is the defaults with the given regexp, prefix and join flag |
| Stdlib.DatetimeCallerLine | stdlib_test.go:91-96 | the line with date, time with microseconds, file and message gives ts "2009/01/23 01:23:23.123123", caller and msg hello |
| Stdlib.CallerThenPrefixLine | stdlib_test.go:197-203 | a prefix after the caller is removed from the message, or kept in front of it when join is on |
| ZapSugar.NewZapSugarLogger | zap/zap_sugar_logger.go:45-76 | the default method logs at the configured level when zap names that level, and is Infow for any other level |
| ZapSugar.NewZapSugarLoggerRoundTrip | zap/zap_sugar_logger.go:50-67 | every keyed method is the default chosen for exactly the level it logs at |
| ZapSugar.DefaultLogAtConfiguredLevel | zap/zap_sugar_logger.go:45-74 | the default path makes one keyed call at the configured level, or Info when zap does not name it, with an empty message and the whole event, and returns nil |
| ZapSugar.Log | zap/zap_sugar_logger.go:16-40 | exactly one call is made and nil is returned; with at most one element it is Info of the whole event; with a known level pair it is the keyed method of that level on the event without the pair; otherwise it is the default method on the whole event |
| ZapSugar.LogForwardsSuffix | zap/zap_sugar_logger.go:18-38 | zap receives the event itself, or the event with its leading level pair dropped, and nothing else |
| ZapSugar.ExplicitLevelOverridesDefault | zap/zap_sugar_logger_test.go:64-87 | an event carrying a level pair is logged the same way whatever default level the adapter was built with |
| ZapSugar.EffectiveLevel | zap/zap_sugar_logger.go:16-67 | an event of two or more elements is logged at its own level when it has a level pair, otherwise at the configured level, or Info when zap does not name that level; only the level pair is dropped |
| ZapSugar.LevelStringIsNotLevelValue | zap/zap_sugar_logger.go:23-38 | a level key followed by a string rather than a level value takes the default path with the whole event |
| LogContext.NewContext | context.go:19 | a non-decorator logger is wrapped in a decorator whose inner logger is that logger and whose Go context is unset |
| LogContext.WithContext | context.go:7-22 | the result is a decorator bound to the given context; from a decorator it copies the inner logger, both key/value lists and both Valuer flags; any other logger is wrapped and only the context is set |
| LogContext.WithContextOnlyChangesCtx | context.go:9-16 | on a decorator, the Go context is the only field in which the result differs from the input |
| LogContext.WithContextInner | context.go:8-21 | the result wraps the input's inner logger, or the input itself when it was not a decorator |
| LogContext.RebindTwice | context_test.go:41-47 | rebinding twice equals rebinding once to the last context, and keeps the bound key/values |

## Left out

- `StdlibWriter.Write` (stdlib.go:20-23): it only calls the process-wide `log.Print`, which is I/O.
- The regular-expression engine behind `StdlibRegexpFull` and `StdlibRegexpDefault` (stdlib.go:143-155). Its leftmost-first and lazy-quantifier semantics are library behaviour. The engine is the parameter `find`, so the model does not show that the full regexp matches every line.
- The zap library: sugaring, the caller skip (zap/zap_sugar_logger.go:46), the panics of `DPanicw` and `Panicw` and the exit of `Fatalw`. The model records which method was chosen.
- `internal/stack/stack.go`: it is runtime stack introspection.
- `testing_logger.go`: a thin wrapper over an external logfmt encoder and `testing.TB`.
- The line-buffered writer and the `level` package's filter, injector and parse functions: their source files are not part of this model, only their tests. The writer's timer and mutex are also concurrency.
- The Windows event-log adapter (`eventlog/`): platform calls; only its tests are available.
- Wall-clock timestamps in the tests.
- LogContext.WithContext: Go returns a fresh pointer to a shallow copy, so the input decorator is not mutated, but the new decorator shares the input's `keyvals` and `sKeyvals` slices. The model works on values: pointer identity and the shared slices are not modelled.
- LogContext.NewContext: only the inner logger and the unset Go context are promised, because the source of `newContext` is not part of this model.
- Stdlib.OptionsKeepLogger: the wrapped logger is only promised unchanged when no option touches it. An option written by a user is an arbitrary function and may replace it.
- Stdlib.NewStdlibAdapter and Stdlib.Write: two panics of the source cannot occur in the model. A nil option in the list panics when it is called (stdlib.go:87), but an option here is a total function. A zero-value `StdlibAdapter` that reaches `Write` panics on its nil regexp (stdlib.go:158) or its nil logger (stdlib.go:118), but `Regexp` and `LoggerRef` here have no nil.
