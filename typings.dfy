/**
 * The shared types of the logger: tags, the hook signatures, the options of
 * a logger instance, the formatter choice and the snapshot of a record that
 * formatters read.
 *
 * A hook never receives the options object: a datatype may not mention
 * itself under a function arrow, so every hook gets an explicit context
 * value instead.
 */
module Typings {
  import opened JsValues

  /** What a function tag is called with: the level and the compiled metadata. */
  datatype TagCtx = TagCtx(level: string, meta: map<string, Value>)

  /** A tag: a literal value (string, number, falsy, ...) or a function
      computed when the tags are read.  A function value written as a
      literal (`Lit(Fn(_))`) is one whose behaviour is not known. */
  datatype Tag = Lit(v: Value) | Computed(f: TagCtx -> Value)

  /** What `dynamicMeta` is called with: the record's level, message and
      stored metadata. */
  datatype HookCtx = HookCtx(level: string, msg: Value, meta: map<string, Value>)

  /** What `parseMessage` produces; an absent `meta` or `error` is
      `Undefined`, absent tags are `None`.  The message is kept as the value
      it was given as (a string except for an error's non-string `message`
      or an `onParse` answer). */
  datatype Parsed = Parsed(msg: Value, meta: Value, error: Value, tags: Option<seq<Tag>>)

  /** What `onCompile` is called with. */
  datatype CompileCtx = CompileCtx(level: string, msg: Value, meta: map<string, Value>, tags: seq<string>)

  /** A JSON replacer `(key, value) => value`. */
  type Replacer = (string, Value) -> Value

  /** A serialiser called as `stringify(value, replacer, indentation)`. */
  type Serializer = (Value, Option<Replacer>, nat) -> string

  /** The library code a record calls and that is not modelled:
      the cycle-safe serialiser, `JSON.stringify` and `util.inspect`. */
  datatype Runtime = Runtime(
    safeStringify: Serializer,
    jsonStringify: Value -> string,
    inspect: map<string, Value> -> string)

  /** `levelKey` / `tagsKey`: `false` disables the key, null or undefined
      selects the default name. */
  datatype KeyName = Disabled | DefaultKey | Named(name: string)

  /** `options.level`: `false` (or null/undefined) switches logging off. */
  datatype Threshold = Off | Level(name: string)

  /** The merged configuration of the minimal formatter.  A separator of
      `None` is an explicit `undefined`; a flag given as `undefined` is held
      as `false`, which is how the formatter's truthiness test reads it. */
  datatype MinimalConfig = MinimalConfig(includeTimestamp: bool, separator: Option<string>)

  /** The merged configuration of the full formatter, with the same
      conventions for `undefined`. */
  datatype FullConfig = FullConfig(includeTimestamp: bool, includeTags: bool, includeMeta: bool, separator: Option<string>)

  /** What a formatter reads from a record. */
  datatype RecordView = RecordView(level: string, msg: Value, meta: map<string, Value>, tags: seq<string>, value: Value)

  /** `onFormat`: one of the built-in formatters (carrying its merged
      configuration, the formatter's `_cfg`), a custom function, or a value
      that is not a function at all. */
  datatype FormatPlugin =
    | JsonFmt
    | MinimalFmt(minimal: MinimalConfig)
    | FullFmt(full: FullConfig)
    | CustomFmt(f: (RecordView, Serializer) -> string)
    | NotAFunction

  datatype Options = Options(
    meta: map<string, Value>,
    tags: seq<Tag>,
    dynamicMeta: Option<HookCtx -> Value>,
    level: Threshold,
    dev: bool,
    silent: bool,
    replacer: Option<Replacer>,
    levelKey: KeyName,
    messageKey: Option<string>,
    tagsKey: KeyName,
    onParse: Option<Value -> Option<Parsed>>,
    onCompile: Option<CompileCtx -> Value>,
    onFormat: FormatPlugin)
}
