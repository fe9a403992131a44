/**
 * The logger facade (`LambdaLog`): the ordered level table, case-insensitive
 * level lookup, the threshold, the construction-time option and environment
 * overrides, and `_log` with its shortcuts.
 *
 * The console and the `log` event channel are one append-only sequence of
 * effects, so the order "write, then emit" is part of the state.
 */
module Logger {
  import opened JsValues
  import opened Typings
  import Utils
  import Messages

  /** One entry of the level table: the level name and the console method it writes with. */
  datatype LevelDescriptor = LevelDescriptor(name: string, sink: string)

  /** The level table, most severe first. */
  const Levels: seq<LevelDescriptor> := [
    LevelDescriptor("fatal", "error"),
    LevelDescriptor("error", "error"),
    LevelDescriptor("warn", "warn"),
    LevelDescriptor("info", "info"),
    LevelDescriptor("debug", "debug"),
    LevelDescriptor("trace", "debug")]

  /** What `getLevel` returns for a known level: its index and its table entry. */
  datatype LevelInfo = LevelInfo(idx: nat, name: string, sink: string)

  /** `levels.findIndex(l => l.name === name)`, searching from `i`. */
  function IndexFrom(name: string, i: nat): (r: int)
    requires i <= |Levels|
    ensures -1 <= r < |Levels|
    ensures r >= 0 ==> i <= r && Levels[r].name == name && forall j :: i <= j < r ==> Levels[j].name != name
    ensures r == -1 ==> forall j :: i <= j < |Levels| ==> Levels[j].name != name
    decreases |Levels| - i
  {
    if i == |Levels| then -1 else if Levels[i].name == name then i else IndexFrom(name, i + 1)
  }

  function FindLevel(name: string): int {
    IndexFrom(name, 0)
  }

  /** `getLevel`: a falsy name or an unknown name is not found; otherwise
      the entry whose name is the lower-cased input. */
  function GetLevel(level: string): (r: Option<LevelInfo>)
    ensures r.None? <==> level == "" || forall j :: 0 <= j < |Levels| ==> Levels[j].name != AsciiLower(level)
    ensures r.Some? ==> r.value.idx < |Levels| && Levels[r.value.idx] == LevelDescriptor(r.value.name, r.value.sink)
    ensures r.Some? ==> r.value.name == AsciiLower(level)
  {
    if level == "" then None
    else
      var i := FindLevel(AsciiLower(level));
      if i == -1 then None else Some(LevelInfo(i, Levels[i].name, Levels[i].sink))
  }

  /** The table routes fatal and error to `error`, warn to `warn`, info to
      `info`, and debug and trace to `debug`, in this order. */
  lemma LevelTable()
    ensures GetLevel("fatal") == Some(LevelInfo(0, "fatal", "error"))
    ensures GetLevel("error") == Some(LevelInfo(1, "error", "error"))
    ensures GetLevel("warn") == Some(LevelInfo(2, "warn", "warn"))
    ensures GetLevel("info") == Some(LevelInfo(3, "info", "info"))
    ensures GetLevel("debug") == Some(LevelInfo(4, "debug", "debug"))
    ensures GetLevel("trace") == Some(LevelInfo(5, "trace", "debug"))
  {
    assert AsciiLower("fatal") == "fatal";
    assert AsciiLower("error") == "error";
    assert AsciiLower("warn") == "warn";
    assert AsciiLower("info") == "info";
    assert AsciiLower("debug") == "debug";
    assert AsciiLower("trace") == "trace";
  }

  /** The lookup ignores case: `INFO`, `Info` and `info` find the same entry. */
  lemma GetLevelIgnoresCase(level: string)
    ensures GetLevel(level) == GetLevel(AsciiLower(level))
  {
    AsciiLowerIdempotent(level);
  }

  lemma GetLevelExamples()
    ensures GetLevel("WARN") == Some(LevelInfo(2, "warn", "warn"))
    ensures GetLevel("") == None && GetLevel("verbose") == None
  {
    assert AsciiLower("WARN") == "warn";
    assert AsciiLower("verbose") == "verbose";
  }

  /** `maxLevelIdx`: -1 when the threshold is falsy or `silent` is set,
      otherwise the index of the entry named exactly like the threshold
      (-1 when there is none). */
  function MaxLevelIdx(o: Options): (r: int)
    ensures -1 <= r < |Levels|
    ensures r == -1 <==> o.level.Off? || o.silent || forall j :: 0 <= j < |Levels| ==> Levels[j].name != o.level.name
    ensures r >= 0 ==> Levels[r].name == o.level.name
  {
    if o.level.Off? || o.silent then -1 else FindLevel(o.level.name)
  }

  /** Whether a record at table index `idx` is written and emitted. */
  predicate Enabled(o: Options, idx: nat) {
    idx <= MaxLevelIdx(o)
  }

  /** A level passes iff logging is not silent, the threshold names an entry
      exactly, and the level is at least as severe as the threshold. */
  lemma EnabledIff(o: Options, level: string)
    requires GetLevel(level).Some?
    ensures Enabled(o, GetLevel(level).value.idx) <==>
      !o.silent && o.level.Level? &&
      exists t :: 0 <= t < |Levels| && Levels[t].name == o.level.name && GetLevel(level).value.idx <= t
  {
    if !o.silent && o.level.Level? &&
       exists t :: 0 <= t < |Levels| && Levels[t].name == o.level.name && GetLevel(level).value.idx <= t {
      var t :| 0 <= t < |Levels| && Levels[t].name == o.level.name && GetLevel(level).value.idx <= t;
      assert MaxLevelIdx(o) == t;
    }
  }

  /** Raising the severity never disables a record. */
  lemma EnabledMonotone(o: Options, a: nat, b: nat)
    requires a <= b && Enabled(o, b)
    ensures Enabled(o, a)
  {
  }

  /** With the threshold `error` only fatal and error pass; `silent` mutes every level. */
  lemma ThresholdExamples(o: Options, level: string)
    requires GetLevel(level).Some?
    ensures o.level == Level("error") && !o.silent ==>
      (Enabled(o, GetLevel(level).value.idx) <==> AsciiLower(level) == "fatal" || AsciiLower(level) == "error")
    ensures o.level == Level("trace") && !o.silent ==> Enabled(o, GetLevel(level).value.idx)
    ensures o.silent ==> !Enabled(o, GetLevel(level).value.idx)
    ensures o.level.Off? ==> !Enabled(o, GetLevel(level).value.idx)
  {
  }

  /** A threshold given directly is matched exactly: `WARN` names no entry
      and mutes every level. */
  lemma UncanonicalThresholdMutes(o: Options)
    requires o.level == Level("WARN")
    ensures MaxLevelIdx(o) == -1
  {
  }

  /** The options a user passes; `None` is a key left out. */
  datatype UserOptions = UserOptions(
    meta: Option<map<string, Value>>,
    tags: Option<seq<Tag>>,
    dynamicMeta: Option<HookCtx -> Value>,
    level: Option<Threshold>,
    dev: Option<bool>,
    silent: Option<bool>,
    replacer: Option<Replacer>,
    levelKey: Option<KeyName>,
    messageKey: Option<string>,
    tagsKey: Option<KeyName>,
    onParse: Option<Value -> Option<Parsed>>,
    onCompile: Option<CompileCtx -> Value>,
    onFormat: Option<FormatPlugin>)

  /** `defaultOptions`. */
  const DefaultOptions: Options := Options(
    map[], [], None, Level("info"), false, false, None,
    Named("__level"), Some("msg"), Named("__tags"), None, None, JsonFmt)

  /** `{...defaultOptions, ...options}`. */
  function MergeOptions(u: UserOptions): (o: Options)
    ensures u.meta.Some? ==> o.meta == u.meta.value
    ensures u.meta.None? ==> o.meta == map[]
    ensures u.tags.Some? ==> o.tags == u.tags.value
    ensures u.tags.None? ==> o.tags == []
    ensures o.dynamicMeta == u.dynamicMeta && o.replacer == u.replacer
    ensures o.onParse == u.onParse && o.onCompile == u.onCompile
    ensures u.level.Some? ==> o.level == u.level.value
    ensures u.level.None? ==> o.level == Level("info")
    ensures o.dev == u.dev.GetOr(false) && o.silent == u.silent.GetOr(false)
    ensures u.levelKey.None? ==> o.levelKey == Named("__level")
    ensures u.levelKey.Some? ==> o.levelKey == u.levelKey.value
    ensures u.messageKey.None? ==> o.messageKey == Some("msg")
    ensures u.messageKey.Some? ==> o.messageKey == u.messageKey
    ensures u.tagsKey.None? ==> o.tagsKey == Named("__tags")
    ensures u.tagsKey.Some? ==> o.tagsKey == u.tagsKey.value
    ensures u.onFormat.None? ==> o.onFormat == JsonFmt
    ensures u.onFormat.Some? ==> o.onFormat == u.onFormat.value
  {
    var d := DefaultOptions;
    Options(
      u.meta.GetOr(d.meta), u.tags.GetOr(d.tags),
      if u.dynamicMeta.Some? then u.dynamicMeta else d.dynamicMeta,
      u.level.GetOr(d.level), u.dev.GetOr(d.dev), u.silent.GetOr(d.silent),
      if u.replacer.Some? then u.replacer else d.replacer,
      u.levelKey.GetOr(d.levelKey),
      if u.messageKey.Some? then u.messageKey else d.messageKey,
      u.tagsKey.GetOr(d.tagsKey),
      if u.onParse.Some? then u.onParse else d.onParse,
      if u.onCompile.Some? then u.onCompile else d.onCompile,
      u.onFormat.GetOr(d.onFormat))
  }

  /** `LAMBDALOG_LEVEL`, `LAMBDALOG_DEV`, `LAMBDALOG_SILENT`; an unset
      variable is the empty string, which the source treats alike. */
  datatype Env = Env(level: string, dev: string, silent: string)

  /** The environment overrides applied to merged options. */
  function Configure(o: Options, env: Env): (r: Options)
    ensures r.meta == o.meta && r.tags == o.tags && r.onFormat == o.onFormat && r.levelKey == o.levelKey
    ensures r.messageKey == o.messageKey && r.tagsKey == o.tagsKey && r.replacer == o.replacer
    ensures r.dynamicMeta == o.dynamicMeta && r.onParse == o.onParse && r.onCompile == o.onCompile
    ensures GetLevel(env.level).None? ==> r.level == o.level
    ensures GetLevel(env.level).Some? ==> r.level == Level(AsciiLower(env.level))
    ensures r.dev == if env.dev == "" then o.dev else Utils.ToBool(Str(env.dev))
    ensures r.silent == if env.silent == "" then o.silent else Utils.ToBool(Str(env.silent))
  {
    var lvl := GetLevel(env.level);
    var withLevel := if env.level != "" && lvl.Some? then o.(level := Level(lvl.value.name)) else o;
    var withDev := if env.dev != "" then withLevel.(dev := Utils.ToBool(Str(env.dev))) else withLevel;
    if env.silent != "" then withDev.(silent := Utils.ToBool(Str(env.silent))) else withDev
  }

  /** A valid `LAMBDALOG_LEVEL` in any case becomes the effective threshold,
      because the canonical name is stored. */
  lemma EnvLevelTakesEffect(o: Options, env: Env)
    requires GetLevel(env.level).Some? && !Configure(o, env).silent
    ensures MaxLevelIdx(Configure(o, env)) == GetLevel(env.level).value.idx
  {
    var t := GetLevel(env.level).value.idx;
    assert Levels[t].name == AsciiLower(env.level);
    assert forall j :: 0 <= j < t ==> Levels[j].name != Levels[t].name;
  }

  /** Without overrides the merged defaults log `info` and more severe levels. */
  lemma DefaultsLogInfo(u: UserOptions, env: Env)
    requires u.level.None? && u.silent.None? && env == Env("", "", "")
    ensures MaxLevelIdx(Configure(MergeOptions(u), env)) == 3
  {
  }

  /** The message `_log` throws for an unknown level. */
  function InvalidLevel(level: string): string {
    "\"" + level + "\" is not a valid log level"
  }

  /** A console call `console[method](text)` or a `log` event carrying a record. */
  datatype Effect = Write(sink: string, text: string) | Emit(record: Messages.LogMessage)

  /** How the promise given to `result` settled. */
  datatype Outcome = Resolved(value: Value) | Rejected(reason: Value)

  class LambdaLog {
    var options: Options
    const rt: Runtime
    var effects: seq<Effect>

    /** The constructor: defaults, then user options, then the environment. */
    constructor (user: UserOptions, env: Env, rt: Runtime)
      ensures options == Configure(MergeOptions(user), env)
      ensures effects == [] && this.rt == rt
    {
      this.rt := rt;
      effects := [];
      var o := MergeOptions(user);
      if env.level != "" {
        var lvl := GetLevel(env.level);
        if lvl.Some? {
          o := o.(level := Level(lvl.value.name));
        }
      }
      if env.dev != "" {
        o := o.(dev := Utils.ToBool(Str(env.dev)));
      }
      if env.silent != "" {
        o := o.(silent := Utils.ToBool(Str(env.silent)));
      }
      options := o;
    }

    /** A call of `_log(level, msg, meta, tags)` that returned `rec`: the
        record is new and built from the arguments and the current options,
        with the level exactly as passed; when the level is enabled exactly
        one console write on the level's method with the record's string form
        follows, then exactly one event with that record; otherwise nothing
        is written or emitted.  The options are unchanged. */
    twostate predicate Logged(level: string, msg: Value, meta: Value, tags: Option<seq<Tag>>, stamp: string,
                              new rec: Messages.LogMessage)
      reads this, rec
    {
      && options == old(options)
      && fresh(rec)
      && GetLevel(level).Some?
      && rec.level == level && rec.opts == options && rec.rt == rt
      && rec.Stored() == Messages.InitialState(Messages.LogObject(level, msg, meta, tags), options, rt)
      && effects == old(effects) +
           if Enabled(options, GetLevel(level).value.idx)
           then [Write(GetLevel(level).value.sink, rec.ToString(stamp)), Emit(rec)]
           else []
    }

    /** `_log`: an unknown level fails before anything is built, written or
        emitted; otherwise the record is returned whether or not it was gated.
        `stamp` is the formatted current time a formatter may show. */
    method LogAt(level: string, msg: Value, meta: Value, tags: Option<seq<Tag>>, stamp: string)
      returns (r: Result<Messages.LogMessage, string>)
      modifies this
      ensures GetLevel(level).None? ==> r == Failure(InvalidLevel(level)) && effects == old(effects) && options == old(options)
      ensures GetLevel(level).Some? ==> r.Success? && Logged(level, msg, meta, tags, stamp, r.value)
    {
      var lvl := GetLevel(level);
      if lvl.None? {
        return Failure(InvalidLevel(level));
      }
      var message := new Messages.LogMessage(Messages.LogObject(level, msg, meta, tags), options, rt);
      if lvl.value.idx <= MaxLevelIdx(options) {
        effects := effects + [Write(lvl.value.sink, message.ToString(stamp))];
        effects := effects + [Emit(message)];
      }
      return Success(message);
    }

    method Trace(msg: Value, meta: Value, tags: Option<seq<Tag>>, stamp: string) returns (rec: Messages.LogMessage)
      modifies this
      ensures Logged("trace", msg, meta, tags, stamp, rec)
    {
      LevelTable();
      var r := LogAt("trace", msg, meta, tags, stamp);
      rec := r.value;
    }

    method Debug(msg: Value, meta: Value, tags: Option<seq<Tag>>, stamp: string) returns (rec: Messages.LogMessage)
      modifies this
      ensures Logged("debug", msg, meta, tags, stamp, rec)
    {
      LevelTable();
      var r := LogAt("debug", msg, meta, tags, stamp);
      rec := r.value;
    }

    method Info(msg: Value, meta: Value, tags: Option<seq<Tag>>, stamp: string) returns (rec: Messages.LogMessage)
      modifies this
      ensures Logged("info", msg, meta, tags, stamp, rec)
    {
      LevelTable();
      var r := LogAt("info", msg, meta, tags, stamp);
      rec := r.value;
    }

    /** `log`: an alias of `info`, taking the message, not a level. */
    method Log(msg: Value, meta: Value, tags: Option<seq<Tag>>, stamp: string) returns (rec: Messages.LogMessage)
      modifies this
      ensures Logged("info", msg, meta, tags, stamp, rec)
    {
      LevelTable();
      var r := LogAt("info", msg, meta, tags, stamp);
      rec := r.value;
    }

    method Warn(msg: Value, meta: Value, tags: Option<seq<Tag>>, stamp: string) returns (rec: Messages.LogMessage)
      modifies this
      ensures Logged("warn", msg, meta, tags, stamp, rec)
    {
      LevelTable();
      var r := LogAt("warn", msg, meta, tags, stamp);
      rec := r.value;
    }

    method Error(msg: Value, meta: Value, tags: Option<seq<Tag>>, stamp: string) returns (rec: Messages.LogMessage)
      modifies this
      ensures Logged("error", msg, meta, tags, stamp, rec)
    {
      LevelTable();
      var r := LogAt("error", msg, meta, tags, stamp);
      rec := r.value;
    }

    method Fatal(msg: Value, meta: Value, tags: Option<seq<Tag>>, stamp: string) returns (rec: Messages.LogMessage)
      modifies this
      ensures Logged("fatal", msg, meta, tags, stamp, rec)
    {
      LevelTable();
      var r := LogAt("fatal", msg, meta, tags, stamp);
      rec := r.value;
    }

    /** `assert`: a truthy test skips the log (the source returns `false`);
        otherwise it is `_log('error', ...)`. */
    method Assert(test: Value, msg: Value, meta: Value, tags: Option<seq<Tag>>, stamp: string)
      returns (r: Option<Messages.LogMessage>)
      modifies this
      ensures Truthy(test) ==> r.None? && effects == old(effects) && options == old(options)
      ensures !Truthy(test) ==> r.Some? && Logged("error", msg, meta, tags, stamp, r.value)
    {
      if Truthy(test) {
        return None;
      }
      var rec := Error(msg, meta, tags, stamp);
      return Some(rec);
    }

    /** `result` once the promise has settled: a value is logged at `info`,
        a rejection reason at `error`. */
    method LogResult(outcome: Outcome, meta: Value, tags: Option<seq<Tag>>, stamp: string)
      returns (rec: Messages.LogMessage)
      modifies this
      ensures outcome.Resolved? ==> Logged("info", outcome.value, meta, tags, stamp, rec)
      ensures outcome.Rejected? ==> Logged("error", outcome.reason, meta, tags, stamp, rec)
    {
      match outcome
      case Resolved(v) => rec := Info(v, meta, tags, stamp);
      case Rejected(e) => rec := Error(e, meta, tags, stamp);
    }
  }
}
