/**
 * The legacy (version 2) log record.  Unlike the current record, everything
 * is merged once, in the constructor: the tags get the fixed prefix
 * `['log', level]`, an error-like message is unwrapped, and the metadata is
 * merged in a fixed order.  The message is kept as the value it was, not
 * converted to a string.
 */
module LegacyMessages {
  import opened JsValues
  import Typings
  import Utils
  import Messages

  /** The arguments a legacy record is built from (after the logger has
      applied its argument defaults). */
  datatype LogObject = LogObject(level: string, msg: Value, meta: Value, tags: Value)

  /** What hooks see of a legacy record: its level, message, metadata and tags. */
  datatype Snapshot = Snapshot(level: string, msg: Value, meta: map<string, Value>, tags: seq<Value>)

  /** `log.options` of the legacy logger. */
  datatype LegacyOptions = LegacyOptions(
    meta: Value,
    tags: Value,
    dynamicMeta: Option<Snapshot -> Value>,
    debug: Value,
    dev: Value,
    silent: Value,
    replacer: Option<Typings.Replacer>)

  /** The fields a legacy record holds: `level`, `msg`, `meta`, `tags`,
      `_error` (`Undefined` when none) and `_replacer`. */
  datatype Fields = Fields(
    level: string, msg: Value, meta: map<string, Value>, tags: seq<Value>,
    error: Value, replacer: Option<Typings.Replacer>)

  /** What `throw` raises. */
  datatype Thrown = Thrown(error: Value, log: LogMessage)

  /** What `Array.prototype.concat` appends for one argument: the elements of
      an array, any other value as one element. */
  function ConcatArg(v: Value): (r: seq<Value>)
    ensures v.Arr? ==> r == v.elems
    ensures !v.Arr? ==> r == [v]
  {
    if v.Arr? then v.elems else [v]
  }

  /** `['log', level].concat(opts.tags, tags)` */
  function TagsOf(log: LogObject, opts: LegacyOptions): seq<Value> {
    [Str("log"), Str(log.level)] + ConcatArg(opts.tags) + ConcatArg(log.tags)
  }

  /** The tags always start with `log` and the level, followed by the global
      tags and then the record's tags; arrays are flattened one level. */
  lemma TagsPrefixed(log: LogObject, opts: LegacyOptions)
    ensures |TagsOf(log, opts)| >= 2
    ensures TagsOf(log, opts)[0] == Str("log") && TagsOf(log, opts)[1] == Str(log.level)
    ensures TagsOf(log, opts)[2..] == ConcatArg(opts.tags) + ConcatArg(log.tags)
    ensures opts.tags.Arr? && log.tags.Arr? ==> |TagsOf(log, opts)| == 2 + |opts.tags.elems| + |log.tags.elems|
  {
    assert TagsOf(log, opts)[2..] == ConcatArg(opts.tags) + ConcatArg(log.tags);
  }

  /** The message of the record: an error-like message is replaced by its `message`. */
  function MessageOf(msg: Value): Value {
    if Utils.IsError(msg) then Get(msg, "message") else msg
  }

  /** The error kept in `_error`. */
  function ErrorOf(msg: Value): Value {
    if Utils.IsError(msg) then msg else Undefined
  }

  /** The `{stack}` an error-like message contributes to the metadata. */
  function ErrorMeta(msg: Value): map<string, Value> {
    if Utils.IsError(msg) then map["stack" := Get(msg, "stack")] else map[]
  }

  /** The metadata before `dynamicMeta`: the local metadata (normalised as
      by the current record), then `opts.meta`, then `{stack}`. */
  function BaseMeta(log: LogObject, opts: LegacyOptions): map<string, Value> {
    Messages.InitialMeta(log.meta) + OwnEnumerable(opts.meta) + ErrorMeta(log.msg)
  }

  /** The object part of the `dynamicMeta` answer, which sees the record as
      built so far. */
  function DynMeta(log: LogObject, opts: LegacyOptions): map<string, Value> {
    if opts.dynamicMeta.None? then map[]
    else
      var d := opts.dynamicMeta.value(Snapshot(log.level, MessageOf(log.msg), BaseMeta(log, opts), TagsOf(log, opts)));
      if TypeOf(d) == "object" then OwnEnumerable(d) else map[]
  }

  /** The merged metadata: local, then `opts.meta`, then `{stack}`, then the
      dynamic metadata, later sources winning. */
  function MergedMeta(log: LogObject, opts: LegacyOptions): (r: map<string, Value>)
    ensures r.Keys == Messages.InitialMeta(log.meta).Keys + OwnEnumerable(opts.meta).Keys + ErrorMeta(log.msg).Keys + DynMeta(log, opts).Keys
    ensures forall k :: k in DynMeta(log, opts) ==> r[k] == DynMeta(log, opts)[k]
    ensures forall k :: k in ErrorMeta(log.msg) && k !in DynMeta(log, opts) ==> r[k] == ErrorMeta(log.msg)[k]
    ensures forall k :: k in OwnEnumerable(opts.meta) && k !in ErrorMeta(log.msg) && k !in DynMeta(log, opts) ==>
              r[k] == OwnEnumerable(opts.meta)[k]
    ensures forall k :: (k in Messages.InitialMeta(log.meta) && k !in OwnEnumerable(opts.meta) &&
                         k !in ErrorMeta(log.msg) && k !in DynMeta(log, opts)) ==>
              r[k] == Messages.InitialMeta(log.meta)[k]
  {
    BaseMeta(log, opts) + DynMeta(log, opts)
  }

  /** The record's fields after construction. */
  function Build(log: LogObject, opts: LegacyOptions): Fields {
    Fields(log.level, MessageOf(log.msg), MergedMeta(log, opts), TagsOf(log, opts), ErrorOf(log.msg), opts.replacer)
  }

  /** An error-like message is replaced by its `message`, the error is kept,
      and its stack is in the metadata unless the dynamic metadata replaces it. */
  lemma ErrorUnwrapped(log: LogObject, opts: LegacyOptions)
    requires Utils.IsError(log.msg)
    ensures Build(log, opts).msg == Get(log.msg, "message")
    ensures Build(log, opts).error == log.msg
    ensures "stack" in Build(log, opts).meta
    ensures "stack" !in DynMeta(log, opts) ==> Build(log, opts).meta["stack"] == Get(log.msg, "stack")
  {
  }

  /** Any other message is kept as it is, with no error. */
  lemma PlainMessageKept(log: LogObject, opts: LegacyOptions)
    requires !Utils.IsError(log.msg)
    ensures Build(log, opts).msg == log.msg && Build(log, opts).error == Undefined
    ensures "stack" in Build(log, opts).meta ==>
      "stack" in Messages.InitialMeta(log.meta) || "stack" in OwnEnumerable(opts.meta) || "stack" in DynMeta(log, opts)
  {
  }

  /** `value`: `{_logLevel, msg}`, overlaid by the metadata, then `_tags`, which always wins. */
  function Render(level: string, msg: Value, meta: map<string, Value>, tags: seq<Value>): (r: map<string, Value>)
    ensures r.Keys == {"_logLevel", "msg", "_tags"} + meta.Keys
    ensures r["_tags"] == Arr(tags)
    ensures forall k :: k in meta && k != "_tags" ==> r[k] == meta[k]
    ensures "_logLevel" !in meta ==> r["_logLevel"] == Str(level)
    ensures "msg" !in meta ==> r["msg"] == msg
  {
    (map["_logLevel" := Str(level), "msg" := msg] + meta)["_tags" := Arr(tags)]
  }

  class LogMessage {
    var level: string
    var msg: Value
    var meta: map<string, Value>
    var tags: seq<Value>
    var error: Value
    var replacer: Option<Typings.Replacer>

    function Current(): Fields
      reads this
    {
      Fields(level, msg, meta, tags, error, replacer)
    }

    function View(): Snapshot
      reads this
    {
      Snapshot(level, msg, meta, tags)
    }

    /** The constructor: tags, error unwrapping, the metadata merge, then
        `dynamicMeta` called with the record built so far. */
    constructor (log: LogObject, opts: LegacyOptions)
      ensures Current() == Build(log, opts)
    {
      level := log.level;
      tags := [Str("log"), Str(log.level)] + ConcatArg(opts.tags) + ConcatArg(log.tags);
      var errorMeta: map<string, Value> := map[];
      var message := log.msg;
      error := Undefined;
      if Utils.IsError(message) {
        error := message;
        errorMeta := errorMeta["stack" := Get(message, "stack")];
        message := Get(message, "message");
      }
      msg := message;
      meta := Messages.InitialMeta(log.meta) + OwnEnumerable(opts.meta) + errorMeta;
      replacer := None;
      new;
      if opts.dynamicMeta.Some? {
        var dyn := opts.dynamicMeta.value(View());
        if TypeOf(dyn) == "object" {
          meta := meta + OwnEnumerable(dyn);
        }
      }
      replacer := opts.replacer;
    }

    /** `value` (and its alias `log`). */
    function Compiled(): Value
      reads this
    {
      PlainObject(Render(level, msg, meta, tags))
    }

    /** `toJSON(format)`: `JSON.stringify` (given as `stringify`) with the
        record's replacer, indented by 4 when `format` holds. */
    function ToJSON(format: bool, stringify: Typings.Serializer): string
      reads this
    {
      stringify(Compiled(), replacer, if format then 4 else 0)
    }

    /** `throw`: the kept error when it is truthy, else a new `Error(msg)`;
        `log` is set to this record. */
    function Throw(stack: string): (t: Thrown)
      reads this
      ensures t.log == this
      ensures Truthy(error) ==> t.error == error
      ensures !Truthy(error) ==> Utils.IsError(t.error) && t.error == ErrorFor(msg, stack)
    {
      Thrown(if Truthy(error) then error else ErrorFor(msg, stack), this)
    }
  }

  /** A record built from an error rethrows that error; one built from a
      string throws a new error carrying that string. */
  lemma ThrowAfterConstruction(log: LogObject, opts: LegacyOptions, rec: LogMessage, stack: string)
    requires rec.Current() == Build(log, opts)
    ensures Utils.IsError(log.msg) ==> rec.Throw(stack).error == log.msg
    ensures log.msg.Str? ==> Get(rec.Throw(stack).error, "message") == log.msg
  {
  }

  /** The legacy JSON text is the current shape's serialisation with
      indentation 4 rather than 2 when formatted. */
  lemma ToJSONIndentation(rec: LogMessage, stringify: Typings.Serializer)
    ensures rec.ToJSON(true, stringify) == stringify(rec.Compiled(), rec.replacer, 4)
    ensures rec.ToJSON(false, stringify) == stringify(rec.Compiled(), rec.replacer, 0)
  {
  }
}
