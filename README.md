# lambda-log: the log-record pipeline in Dafny

`lambda-log` is a structured JSON logger for serverless functions. A call
such as `log.info(msg, meta, tags)` goes through these steps:

1. It looks up the level in an ordered table, ignoring case.
2. It builds a `LogMessage` record. The message is normalised, and an error
   given as the message is unwrapped into message, stack and error.
3. It checks the level against the threshold.
4. If the level passes, it writes the record's formatted string to the
   level's console method and then emits a `log` event with the record.

The record compiles its output lazily:

- the metadata is merged from the record, the global options and the dynamic
  metadata hook, and error values in it are stubbed so they serialise;
- the tags are resolved: function tags are called, `<<level>>` placeholders
  are substituted, and everything but non-empty strings is dropped;
- the output object is built under configurable level, message and tags keys;
- the result is serialised by the JSON, minimal or full formatter.

The project models both the current TypeScript code (`src/`) and the legacy
version 2 code (`lib/`). Each is its own set of modules.

| file | module | models |
|---|---|---|
| `js_values.dfy` | `JsValues` | JavaScript values as a tree, truthiness, `typeof`, property lookup, `String()`, ASCII case mapping, `join` |
| `utils.dfy` | `Utils` | `isError`, `stubError` and its generated `toJSON`, `toBool` |
| `typings.dfy` | `Typings` | tags, hook signatures, options, formatter choice, the record view formatters read |
| `json_formatter.dfy` | `JsonFormatter` | the JSON formatter |
| `minimal_formatter.dfy` | `MinimalFormatter` | the minimal formatter |
| `full_formatter.dfy` | `FullFormatter` | the full formatter |
| `log_message.dfy` | `Messages` | `LogMessage` (class): parsing, metadata, tags, output value, `throw` |
| `lambda_log.dfy` | `Logger` | `LambdaLog` (class): level table, threshold, options, `_log` and its shortcuts |
| `legacy_log_message.dfy` | `LegacyMessages` | the legacy `LogMessage` (class) |
| `legacy_lambda_log.dfy` | `LegacyLogger` | the legacy `LambdaLog` (class): ordered, extensible level dictionary and generated shortcuts |

Modelling choices:

- Records and loggers are classes whose fields the methods update.
- The console and the event channel are one append-only `effects` sequence,
  so "write, then emit" is part of the stated new state.
- These are parameters of the model rather than computed by it:
  - the clock, as an already formatted `stamp` string;
  - the stack trace a new `Error` would capture, as `stack`;
  - the environment variables;
  - the serialisers and `util.inspect`, as fields of `Typings.Runtime` (the
    legacy code takes a `stringify` parameter instead).
- Hooks are pure functions that receive an explicit context value
  (`HookCtx`, `TagCtx`, `CompileCtx`, `Snapshot`).

`parseMessage` runs after the metadata is stored (src/LogMessage.ts:57-67),
so an error's stack overwrites a `stack` key the caller passed
(`Messages.ErrorInputUnwrapped`).

## Model

| member | source | states |
|---|---|---|
| `Utils.IsError` | src/utils.ts:8-15 | A value is error-like exactly when it is an object that is an `Error` instance or has own `message` and `stack`; such a value is a truthy object. |
| `Utils.StubError` | src/utils.ts:22-47 | An error whose `toJSON` is already a function is returned unchanged. Otherwise `toJSON` is installed. Every other property, the prototype and error-likeness are unchanged, and the result always has a function `toJSON`. |
| `Utils.StubErrorIdempotent` | src/utils.ts:25-27 | Stubbing twice is the same as stubbing once. |
| `Utils.StubbedToJSON` | src/utils.ts:27-44 | The generated `toJSON` copies exactly the keys among `name`, `message`, `stack` and the own enumerable keys that are present and not functions, each with the error's value; an existing `toJSON` is never copied. |
| `Utils.ToBool` | src/utils.ts:54-64 | A string is true iff its lower-cased form is one of `true`, `yes`, `y`, `on`, `1`. A number is true iff it equals 1. Any other value follows truthiness. |
| `Utils.ToBoolIgnoresCase` | src/utils.ts:55-57 | Only the lower-cased text decides the answer. |
| `Utils.ToBoolExamples` | src/utils.ts:54-64 | Case does not matter for the true words. Every other string, including the empty one, is false, and of the numbers only 1 is true. |
| `JsValues.AsciiLowerIdempotent` | src/LambdaLog.ts:291 | Lower-casing twice is lower-casing once, so a canonical level name looks itself up. |
| `JsValues.UpperOfLower` | src/formatters/minimal.ts:28 | Upper-casing gives the same text whether or not the input was lower-cased first. |
| `JsValues.ErrorFor` | lib/LogMessage.js:66 | `new Error(msg)` is an `Error` instance named `Error` with the given stack. Its message is `String(msg)`, or empty for undefined, and for a string it is exactly the string. |
| `JsValues.JoinSnoc` | src/formatters/full.ts:56 | Appending a part to a non-empty list appends the separator and the part to the joined text. |
| `JsonFormatter.FormatIndentation` | src/formatters/json.ts:7-12 | The JSON formatter serialises the compiled value with the options' replacer, indented by 2 in dev mode and by 0 otherwise. |
| `JsonFormatter.FormatReadsOnlyValueAndOptions` | src/formatters/json.ts:8-9 | The output depends on nothing but the compiled value, the replacer and the dev flag. |
| `MinimalFormatter.Create` | src/formatters/minimal.ts:14-20 | By default there is no timestamp and the separator is ` \| `. Every key the user gives wins, `undefined` included: the timestamp is on exactly when the user gives `true`, and a separator given as `undefined` is copied through. |
| `MinimalFormatter.UndefinedSeparatorIsComma` | src/formatters/minimal.ts:15-30 | `{separator: undefined}` joins with `join`'s default comma, so an `info` record reads `INFO,msg`. |
| `MinimalFormatter.FormatWithoutTimestamp` | src/formatters/minimal.ts:22-31 | Without a timestamp the line is the upper-cased level, the separator and the message as `join` writes it (null and undefined as empty). |
| `MinimalFormatter.FormatWithTimestamp` | src/formatters/minimal.ts:22-31 | With a timestamp the line is the timestamp, the level and the message, separated. |
| `MinimalFormatter.DefaultLine` | src/formatters/minimal.ts:14-31 | With the default configuration an `info` record reads `INFO \| msg`. |
| `FullFormatter.Create` | src/formatters/full.ts:18-26 | Timestamp, tags and metadata default to on and the separator to a tab. Every key the user gives wins, `undefined` included: a flag is on exactly when it is left out or given as `true`, and a separator given as `undefined` is copied through. |
| `FullFormatter.UndefinedConfigIsBare` | src/formatters/full.ts:19-56 | With every key given as `undefined`, timestamp, tags and metadata are off whatever the record holds, and the parts are joined by a comma: `INFO,msg`. |
| `FullFormatter.IndentRoundTrip` | src/formatters/full.ts:53 | Indenting the metadata dump after each newline loses nothing: `Dedent` recovers the dump. |
| `FullFormatter.IndentSpacesAfterNewline` | src/formatters/full.ts:53 | In the indented dump every newline is followed by two spaces. |
| `FullFormatter.FormatSections` | src/formatters/full.ts:34-56 | The output is the header line. The tags line follows exactly when tags are included and present, and the metadata line exactly when metadata is included and has a key. |
| `FullFormatter.HeaderParts` | src/formatters/full.ts:35-44 | The header is the optional timestamp, the upper-cased level and the message, separated. |
| `FullFormatter.FormatBare` | src/formatters/full.ts:34-56 | With no timestamp, tags or metadata to show, the output is the single line `LEVEL<sep>msg`. |
| `FullFormatter.NoTimestampLine` | src/formatters/full.ts:18-56 | `{includeTimestamp: false}` on a bare `info` record gives `INFO<tab>msg`. |
| `Messages.InitialMeta` | src/LogMessage.ts:57-59 | Falsy metadata gives `{}`. A truthy primitive, function or array is wrapped as `{meta}`. An object contributes its own enumerable properties. |
| `Messages.ParseMessage` | src/LogMessage.ts:289-309 | An `onParse` hook that answers wins. Otherwise: null or undefined gives the empty string; an error-like value gives its `message` as the value it is, `{stack}` and the error; another object gives its JSON; anything else gives `String(msg)`. Without the hook only an error can give a non-string message or an error. |
| `Messages.SetMessageKeepsEntries` | src/LogMessage.ts:272-281 | Re-parsing keeps every stored metadata key (parsed keys win) and the stored tags as a prefix. The error changes only when the parse produced one. |
| `Messages.ErrorInputUnwrapped` | src/LogMessage.ts:50-68 | A record built from an error has the error's message as its message and the error's stack under `stack`, and keeps the error. |
| `Messages.NullMessageIsEmpty` | src/LogMessage.ts:50-68 | A null or undefined message gives the empty string and adds nothing. |
| `Messages.DynamicMeta` | src/LogMessage.ts:122-128 | Without the hook there is no dynamic metadata. |
| `Messages.DynamicMetaAnswer` | src/LogMessage.ts:122-128 | A hook answer whose `typeof` is not `object` leaves the stored metadata over `options.meta`. An object answer adds its own enumerable keys, and they win. |
| `Messages.StubAllProperties` | src/LogMessage.ts:130-135 | Stubbing keeps the keys and each entry's error-likeness, leaves non-error entries alone, and gives each error-like entry a function `toJSON`; a second pass changes nothing. |
| `Messages.MergedMeta` | src/LogMessage.ts:114-128 | Every key of the stored metadata, `options.meta` and the dynamic metadata is present, and the latest source wins. |
| `Messages.WordEnd` | src/LogMessage.ts:175 | The word run ends at the first non-word character, and every character before it is a word character. |
| `Messages.TokenAt` | src/LogMessage.ts:175 | A placeholder found at `i` ends within the string, at least five characters later. |
| `Messages.TokenAtComplete` | src/LogMessage.ts:175 | Every `<<word>>` at a position is found, ending right after its `>>`. |
| `Messages.TokenAtSound` | src/LogMessage.ts:175 | What is found is `<<`, a run of word characters and `>>`. |
| `Messages.TemplateStep` | src/LogMessage.ts:174-179 | For every non-empty string: a placeholder at the start becomes the level when it is `<<level>>` and is copied otherwise; any other first character is copied; substitution then continues on the rest. |
| `Messages.LevelTokenAfterText` | src/LogMessage.ts:174-179 | Text before `<<level>>` does not stop the replacement. |
| `Messages.TemplateWithoutToken` | src/LogMessage.ts:174-179 | A string with no `<<level>>` placeholder comes out unchanged. |
| `Messages.LevelTokenReplaced` | src/LogMessage.ts:174-179 | A leading `<<level>>` becomes the level, and substitution continues on the rest. |
| `Messages.OtherTokenKept` | src/LogMessage.ts:174-179 | Any other placeholder, `<<LEVEL>>` included, is kept literally, and substitution continues after it. |
| `Messages.KeepStrings` | src/LogMessage.ts:182 | The filter never lengthens the list and keeps only non-empty strings. |
| `Messages.KeepStringsConcat` | src/LogMessage.ts:182 | The filter distributes over concatenation, so order is kept. |
| `Messages.KeepStringsMembership` | src/LogMessage.ts:182 | A string is in the filtered list iff some tag is that non-empty string. |
| `Messages.ResolveAllConcat` | src/LogMessage.ts:163-181 | Each tag is resolved on its own, so resolving a concatenation concatenates the results. |
| `Messages.ResolveTags` | src/LogMessage.ts:155-183 | The resolved tags are non-empty strings. |
| `Messages.ResolveTagsConcat` | src/LogMessage.ts:155-183 | Resolving a concatenation resolves each part in order. |
| `Messages.ResolveSingleTag` | src/LogMessage.ts:163-182 | A string tag is templated and kept when non-empty. Numbers and other non-strings are dropped. A function tag with a falsy result is dropped. A truthy string result is templated, and any other truthy result is dropped. |
| `Messages.GlobalTagsFirst` | src/LogMessage.ts:155-183 | The tags getter lists the resolved global tags before the record's own. |
| `Messages.Render` | src/LogMessage.ts:197-211 | The output object has exactly the level key (unless disabled), the message key, the metadata keys and the tags key (unless disabled). The tags key always carries the tags. Metadata overrides the level and message keys. |
| `Messages.LevelKeyNaming` | src/LogMessage.ts:197-211 | `levelKey: false` removes the level key, and an unset key uses the default name. |
| `Messages.ValueRendering` | src/LogMessage.ts:197-219 | `value` (alias `log`) is the `onCompile` answer when the hook is set, else the rendered plain object. |
| `Messages.ToJSONIndentation` | src/LogMessage.ts:239-241 | `toJSON(format)` serialises with the replacer, indented by 2 exactly when `format` holds. |
| `Messages.DefaultFormatIsToJSON` | src/LogMessage.ts:247-265 | With the JSON formatter, or a formatter that is not a function, the string form is the JSON text in the dev setting. |
| `Messages.LogMessage.constructor` | src/LogMessage.ts:50-68 | The stored state is the initial metadata and tags with the parsed message applied. |
| `Messages.LogMessage.SetMessage` | src/LogMessage.ts:272-281 | The new stored state is the old one with the parse of the new message applied. |
| `Messages.LogMessage.SetMeta` | src/LogMessage.ts:144-149 | The metadata setter merges, new keys winning, and changes nothing else. |
| `Messages.LogMessage.AppendTags` | src/LogMessage.ts:189-191 | The tags setter appends and changes nothing else. |
| `Messages.LogMessage.Meta` | src/LogMessage.ts:114-138 | The getter's loop returns the merged metadata with every entry stubbed when error-like. |
| `Messages.LogMessage.Throw` | src/LogMessage.ts:226-231 | The stored error is raised when there is one, else a new `Error` carrying the message. `log` points at the record. |
| `Messages.ThrowAfterConstruction` | src/LogMessage.ts:226-231 | A record built from an error rethrows that error; one built from a string throws a new error with that string. |
| `Logger.IndexFrom` | src/LambdaLog.ts:291 | The index found is the first entry with that name from the start position, or -1 when there is none. |
| `Logger.GetLevel` | src/LambdaLog.ts:289-298 | A name is found iff it is non-empty and its lower-cased form names an entry; the entry returned is that one. |
| `Logger.LevelTable` | src/LambdaLog.ts:8-26 | The table is fatal, error, warn, info, debug, trace, in that order, on console methods error, error, warn, info, debug, debug. |
| `Logger.GetLevelIgnoresCase` | src/LambdaLog.ts:289-298 | Lookup is case-insensitive. |
| `Logger.GetLevelExamples` | src/LambdaLog.ts:289-298 | `WARN` finds warn, while the empty string and `verbose` are not found. |
| `Logger.MaxLevelIdx` | src/LambdaLog.ts:306-309 | The threshold index is -1 iff the level is off, logging is silent, or the name matches no entry exactly; otherwise it is that entry's index. |
| `Logger.EnabledIff` | src/LambdaLog.ts:306-309 | A level passes iff logging is not silent, the threshold names an entry, and the level is at least as severe as the threshold. |
| `Logger.EnabledMonotone` | src/LambdaLog.ts:145 | A more severe level than one that passes also passes. |
| `Logger.ThresholdExamples` | src/LambdaLog.ts:306-309 | Threshold `error` passes only fatal and error, and `trace` passes everything. `silent` or an off level mutes everything. |
| `Logger.UncanonicalThresholdMutes` | src/LambdaLog.ts:306-309 | A threshold given directly in upper case matches nothing and mutes every level. |
| `Logger.MergeOptions` | src/LambdaLog.ts:97-100 | Every option the user gives wins over its default, and every absent one takes the default. |
| `Logger.Configure` | src/LambdaLog.ts:103-116 | A valid `LAMBDALOG_LEVEL` in any case sets the canonical level. A non-empty `LAMBDALOG_DEV` or `LAMBDALOG_SILENT` sets its flag through `toBool`. Nothing else changes. |
| `Logger.EnvLevelTakesEffect` | src/LambdaLog.ts:103-106 | A valid environment level becomes the effective threshold. |
| `Logger.DefaultsLogInfo` | src/LambdaLog.ts:31-44 | With no overrides, `info` and everything more severe pass. |
| `Logger.LambdaLog.constructor` | src/LambdaLog.ts:94-117 | The options are the defaults, then the user's options, then the environment, and nothing has been written yet. |
| `Logger.LambdaLog.LogAt` | src/LambdaLog.ts:130-161 | An unknown level fails with the `is not a valid log level` message and no effect. Otherwise a new record built from the arguments is returned, written on the level's console method and emitted, in that order, exactly when the level passes. |
| `Logger.LambdaLog.Trace` | src/LambdaLog.ts:171-173 | `_log('trace', ...)`. |
| `Logger.LambdaLog.Debug` | src/LambdaLog.ts:183-185 | `_log('debug', ...)`. |
| `Logger.LambdaLog.Info` | src/LambdaLog.ts:195-197 | `_log('info', ...)`. |
| `Logger.LambdaLog.Log` | src/LambdaLog.ts:207-209 | `log` is `_log('info', ...)`. |
| `Logger.LambdaLog.Warn` | src/LambdaLog.ts:219-221 | `_log('warn', ...)`. |
| `Logger.LambdaLog.Error` | src/LambdaLog.ts:231-233 | `_log('error', ...)`. |
| `Logger.LambdaLog.Fatal` | src/LambdaLog.ts:243-245 | `_log('fatal', ...)`. |
| `Logger.LambdaLog.Assert` | src/LambdaLog.ts:257-260 | A truthy test does nothing. Otherwise it is `_log('error', ...)`. |
| `Logger.LambdaLog.LogResult` | src/LambdaLog.ts:269-281 | A resolved value is logged at `info`, and a rejection reason at `error`. |
| `LegacyMessages.ConcatArg` | lib/LogMessage.js:16 | `concat` flattens an array argument by one level and appends any other value as one element. |
| `LegacyMessages.TagsPrefixed` | lib/LogMessage.js:16 | The tags are `log`, the level, the global tags, then the record's tags. |
| `LegacyMessages.MergedMeta` | lib/LogMessage.js:29-41 | The metadata has every key of the local metadata, `options.meta`, `{stack}` and the dynamic metadata, and later sources win. |
| `LegacyMessages.ErrorUnwrapped` | lib/LogMessage.js:21-25 | An error-like message is replaced by its `message`, the error is kept, and its stack is in the metadata unless the dynamic metadata replaces it. |
| `LegacyMessages.PlainMessageKept` | lib/LogMessage.js:12-44 | Any other message is kept as the value it is, with no error. |
| `LegacyMessages.Render` | lib/LogMessage.js:50-52 | `value` has `_logLevel`, `msg`, the metadata keys and `_tags`. The metadata overrides the first two, and `_tags` always wins. |
| `LegacyMessages.LogMessage.constructor` | lib/LogMessage.js:12-44 | The fields after construction are those `Build` gives, with `dynamicMeta` seeing the record built so far. |
| `LegacyMessages.LogMessage.Throw` | lib/LogMessage.js:65-70 | A truthy stored error is raised, else a new error from the message, and `log` points at the record. |
| `LegacyMessages.ThrowAfterConstruction` | lib/LogMessage.js:65-70 | A record built from an error rethrows it; one built from a string throws an error carrying that string. |
| `LegacyMessages.ToJSONIndentation` | lib/LogMessage.js:77-79 | The legacy JSON text is indented by 4 when formatted and by 0 otherwise. |
| `LegacyLogger.PutWellFormed` | lib/LambdaLog.js:71-79 | Assigning one level keeps the dictionary's key order duplicate-free and in step with its entries. |
| `LegacyLogger.AssignShape` | lib/LambdaLog.js:71-79 | `Object.assign` of custom levels keeps the dictionary well formed, keeps the old key order as a prefix, and adds exactly the custom names. |
| `LegacyLogger.AssignKeepsOthers` | lib/LambdaLog.js:71-79 | A level no custom entry names keeps its entry. |
| `LegacyLogger.AssignLastWins` | lib/LambdaLog.js:71-79 | The last assignment of a name wins. |
| `LegacyLogger.BuiltinLevelsKept` | lib/LambdaLog.js:71-81 | The built-in levels, `error` included, survive any customisation, in their order. |
| `LegacyLogger.DefaultSilentExamples` | lib/LambdaLog.js:61 | `LAMBDALOG_SILENT` silences unless it is unset or exactly `0`, `no` or `false`. |
| `LegacyLogger.MergeOptions` | lib/LambdaLog.js:55-64 | Each key the user gives wins over its default, even when it is `undefined`, and `silent` defaults from the environment. |
| `LegacyLogger.ExplicitUndefinedOverrides` | lib/LambdaLog.js:55-64 | `silent: undefined` is not silent whatever the environment says, and `tags: undefined` puts an `undefined` tag after `log` and the level. |
| `LegacyLogger.Resolve` | lib/LambdaLog.js:142-148 | The built-in `debug` entry gives a console method iff `debug` is set, and then it is `debug`. |
| `LegacyLogger.CheckPromise` | lib/LambdaLog.js:211-213 | `result` refuses exactly a falsy argument or one without a function `then`, with the fixed message. |
| `LegacyLogger.LambdaLog.constructor` | lib/LambdaLog.js:21-112 | The options and the level dictionary are merged, and one shortcut is created per level, each logging at itself. |
| `LegacyLogger.LambdaLog.Log` | lib/LambdaLog.js:130-168 | An unknown level throws with no effect. A falsy method returns `false` with no effect. Otherwise the record is written, unless silent, then emitted, then returned. |
| `LegacyLogger.LambdaLog.Shortcut` | lib/LambdaLog.js:90-112 | A generated shortcut is `log` at its own level. |
| `LegacyLogger.LambdaLog.Assert` | lib/LambdaLog.js:191-194 | A truthy test returns `false` with no effect. Otherwise it is `log('error', ...)`. |
| `LegacyLogger.LambdaLog.LogResult` | lib/LambdaLog.js:210-222 | A bad argument throws at once. A resolved value is logged at `info`, and a rejection at `error`. |

## Left out

- Serialisation itself (`fast-safe-stringify`, `JSON.stringify`) and `util.inspect` are not modelled. They are abstract functions of the runtime, so the replacer, indentation and cycle handling are passed through but not interpreted.
- The clock and `formatTimestamp` are not modelled: formatters receive an already formatted `stamp`. The full formatter's `inspectOptions` are not modelled.
- The formatter flags are booleans or `undefined`, as the formatters' configuration types declare them; a truthy value of another type is not expressible.
- `logHandler`: which console object is written to is not modelled. A write is an effect naming the console method.
- Hooks do not see the options object or the live record through `this`. Each receives a context value, and hooks that throw are not modelled.
- Object identity and aliasing are not modelled. `stubError` mutates the error in place, the stored metadata may alias the caller's object, and a record holds the live options; the model copies values instead.
- Property order is not modelled: objects are maps. The printed key order and the integer-like key ordering of `Object.keys` are not represented.
- Case mapping covers ASCII letters only; full Unicode `toLowerCase`/`toUpperCase` is not modelled.
- Numbers are integers. Floating point, `NaN` and their `String()` forms are not modelled.
- Logger.MergeOptions: an option key given explicitly as `undefined` is treated as absent, and `messageKey: null` cannot be expressed.
- Promises are not modelled. `result` takes the settled outcome (`Logger.Outcome`), and the legacy `result` also takes the argument check's input.
- EventEmitter listeners are not modelled. An emit is an effect, and listener behaviour and listener exceptions are not represented.
- LegacyLogger.LambdaLog.Shortcut: a custom level whose name collides with an existing method (for example `log` or `assert`) replaces that method in the source. The model keeps shortcuts separate from the methods.
- LegacyLogger.LambdaLog.Log: a truthy console method name that is not a string (a `TypeError` in the source) is written as `ToStr` of the value.
- Typings.Tag: a function tag is `Computed`. A `Lit(Fn(...))` is a function value whose behaviour is not known; it is treated as never called and is dropped like any other non-string tag.
- The exported singleton, the module glue (`index.ts`, `lambda-log.ts`, `index.js`) and the TypeScript type declarations are not part of this model.
