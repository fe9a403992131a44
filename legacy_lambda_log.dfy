/**
 * The legacy (version 2) logger: an extensible, ordered level dictionary
 * whose entries name a console method or compute one (and may veto the log),
 * one generated shortcut per level, `log`, `assert` and the argument check of
 * `result`.  `silent` suppresses the console write but not the event.
 */
module LegacyLogger {
  import opened JsValues
  import Typings
  import Utils
  import LegacyMessages
  import Logger

  /** A level dictionary entry: a console method name (or any other value,
      a falsy one vetoing the log), the built-in `debug` gate, or a function
      of the record. */
  datatype LevelEntry = Route(sink: Value) | DebugGate | Handler(f: LegacyMessages.Snapshot -> Value)

  /** `_logLevels` as an ordered dictionary: `names` is its key order. */
  datatype LevelDict = LevelDict(names: seq<string>, entries: map<string, LevelEntry>)

  ghost predicate WellFormed(d: LevelDict) {
    && (forall i :: 0 <= i < |d.names| ==> d.names[i] in d.entries)
    && (forall k :: k in d.entries ==> k in d.names)
    && (forall i, j :: 0 <= i < j < |d.names| ==> d.names[i] != d.names[j])
  }

  /** The defaults, in order: info, warn, error, and debug through the gate. */
  const DefaultLevels: LevelDict := LevelDict(
    ["info", "warn", "error", "debug"],
    map["info" := Route(Str("info")), "warn" := Route(Str("warn")), "error" := Route(Str("error")), "debug" := DebugGate])

  /** One property assignment: an existing key keeps its position, a new key goes last. */
  function Put(d: LevelDict, name: string, e: LevelEntry): LevelDict {
    if name in d.entries then LevelDict(d.names, d.entries[name := e])
    else LevelDict(d.names + [name], d.entries[name := e])
  }

  /** `Object.assign(defaults, levels)`, the custom levels given in their key order. */
  function Assign(d: LevelDict, custom: seq<(string, LevelEntry)>): LevelDict
    decreases |custom|
  {
    if custom == [] then d else Assign(Put(d, custom[0].0, custom[0].1), custom[1..])
  }

  function CustomNames(custom: seq<(string, LevelEntry)>): set<string> {
    set i | 0 <= i < |custom| :: custom[i].0
  }

  lemma PutWellFormed(d: LevelDict, name: string, e: LevelEntry)
    requires WellFormed(d)
    ensures WellFormed(Put(d, name, e))
  {
  }

  lemma CustomNamesCons(custom: seq<(string, LevelEntry)>)
    requires custom != []
    ensures CustomNames(custom) == {custom[0].0} + CustomNames(custom[1..])
  {
    var rest := custom[1..];
    forall k | k in CustomNames(custom) ensures k in {custom[0].0} + CustomNames(rest) {
      var i :| 0 <= i < |custom| && custom[i].0 == k;
      if i > 0 { assert rest[i - 1].0 == k; }
    }
    forall k | k in CustomNames(rest) ensures k in CustomNames(custom) {
      var i :| 0 <= i < |rest| && rest[i].0 == k;
      assert custom[i + 1].0 == k;
    }
  }

  /** Assigning custom levels keeps the dictionary well formed, keeps the
      existing key order as a prefix and adds exactly the custom names. */
  lemma {:induction false} AssignShape(d: LevelDict, custom: seq<(string, LevelEntry)>)
    requires WellFormed(d)
    ensures WellFormed(Assign(d, custom))
    ensures d.names <= Assign(d, custom).names
    ensures Assign(d, custom).entries.Keys == d.entries.Keys + CustomNames(custom)
    decreases |custom|
  {
    if custom != [] {
      PutWellFormed(d, custom[0].0, custom[0].1);
      AssignShape(Put(d, custom[0].0, custom[0].1), custom[1..]);
      CustomNamesCons(custom);
    }
  }

  /** An entry no custom level names is left alone. */
  lemma {:induction false} AssignKeepsOthers(d: LevelDict, custom: seq<(string, LevelEntry)>, k: string)
    requires k in d.entries && k !in CustomNames(custom)
    ensures k in Assign(d, custom).entries && Assign(d, custom).entries[k] == d.entries[k]
    decreases |custom|
  {
    if custom != [] {
      CustomNamesCons(custom);
      AssignKeepsOthers(Put(d, custom[0].0, custom[0].1), custom[1..], k);
    }
  }

  /** The last assignment of a name wins. */
  lemma {:induction false} AssignLastWins(d: LevelDict, custom: seq<(string, LevelEntry)>, i: nat)
    requires i < |custom| && forall j :: i < j < |custom| ==> custom[j].0 != custom[i].0
    ensures custom[i].0 in Assign(d, custom).entries && Assign(d, custom).entries[custom[i].0] == custom[i].1
    decreases |custom|
  {
    var rest := custom[1..];
    var d1 := Put(d, custom[0].0, custom[0].1);
    if i == 0 {
      AssignKeepsOthers(d1, rest, custom[0].0);
    } else {
      assert rest[i - 1] == custom[i];
      forall j | i - 1 < j < |rest| ensures rest[j].0 != rest[i - 1].0 {
        assert rest[j] == custom[j + 1];
      }
      AssignLastWins(d1, rest, i - 1);
    }
  }

  lemma DefaultLevelsWellFormed()
    ensures WellFormed(DefaultLevels)
  {
  }

  /** Every level dictionary contains the built-in levels, so `assert` can
      always log at `error`. */
  lemma BuiltinLevelsKept(custom: seq<(string, LevelEntry)>)
    ensures WellFormed(Assign(DefaultLevels, custom))
    ensures "error" in Assign(DefaultLevels, custom).entries && "error" in Assign(DefaultLevels, custom).names
    ensures DefaultLevels.names <= Assign(DefaultLevels, custom).names
  {
    AssignShape(DefaultLevels, custom);
  }

  /** The user's options; `None` is a key left out, while `Some(Undefined)`
      is a key given explicitly as `undefined`, which `Object.assign` copies
      over the default.  A `dynamicMeta` or `replacer` that is not a
      function is ignored by the record, so it is written as `None`. */
  datatype UserOptions = UserOptions(
    meta: Option<Value>,
    tags: Option<Value>,
    dynamicMeta: Option<LegacyMessages.Snapshot -> Value>,
    debug: Option<Value>,
    dev: Option<Value>,
    silent: Option<Value>,
    replacer: Option<Typings.Replacer>)

  /** The default of `silent`: set unless `LAMBDALOG_SILENT` is unset or
      exactly `0`, `no` or `false`. */
  predicate DefaultSilent(env: Option<string>) {
    env.Some? && env.value !in {"0", "no", "false"}
  }

  /** The comparison is exact: an empty or upper-case value silences. */
  lemma DefaultSilentExamples()
    ensures !DefaultSilent(None) && !DefaultSilent(Some("false")) && !DefaultSilent(Some("0")) && !DefaultSilent(Some("no"))
    ensures DefaultSilent(Some("FALSE")) && DefaultSilent(Some("")) && DefaultSilent(Some("true")) && DefaultSilent(Some("1"))
  {
  }

  /** `Object.assign({defaults}, options)`. */
  function MergeOptions(u: UserOptions, envSilent: Option<string>): (o: LegacyMessages.LegacyOptions)
    ensures o.meta == u.meta.GetOr(PlainObject(map[])) && o.tags == u.tags.GetOr(Arr([]))
    ensures o.dynamicMeta == u.dynamicMeta && o.replacer == u.replacer
    ensures o.debug == u.debug.GetOr(Bool(false)) && o.dev == u.dev.GetOr(Bool(false))
    ensures u.silent.Some? ==> o.silent == u.silent.value
    ensures u.silent.None? ==> o.silent == Bool(DefaultSilent(envSilent))
  {
    LegacyMessages.LegacyOptions(
      u.meta.GetOr(PlainObject(map[])), u.tags.GetOr(Arr([])), u.dynamicMeta,
      u.debug.GetOr(Bool(false)), u.dev.GetOr(Bool(false)), u.silent.GetOr(Bool(DefaultSilent(envSilent))), u.replacer)
  }

  /** A key given as `undefined` overrides its default: `silent: undefined`
      is not silent whatever the environment says, and `tags: undefined`
      puts an `undefined` element after `log` and the level. */
  lemma ExplicitUndefinedOverrides(u: UserOptions, envSilent: Option<string>, log: LegacyMessages.LogObject)
    ensures u.silent == Some(Undefined) ==> !Truthy(MergeOptions(u, envSilent).silent)
    ensures u.tags == Some(Undefined) ==> LegacyMessages.TagsOf(log, MergeOptions(u, envSilent))[2] == Undefined
  {
  }

  /** The method name an entry resolves to for a record. */
  function Resolve(e: LevelEntry, opts: LegacyMessages.LegacyOptions, rec: LegacyMessages.Snapshot): (m: Value)
    ensures e.DebugGate? ==> (Truthy(m) <==> Truthy(opts.debug))
    ensures e.DebugGate? && Truthy(opts.debug) ==> m == Str("debug")
  {
    match e
    case Route(v) => v
    case DebugGate => if Truthy(opts.debug) then Str("debug") else Bool(false)
    case Handler(f) => f(rec)
  }

  /** The argument defaults of `log` and the shortcuts: `meta = {}`, `tags = []`. */
  function DefaultArg(v: Value, default: Value): Value {
    if v.Undefined? then default else v
  }

  function RecordArgs(level: string, msg: Value, meta: Value, tags: Value): LegacyMessages.LogObject {
    LegacyMessages.LogObject(level, msg, DefaultArg(meta, PlainObject(map[])), DefaultArg(tags, Arr([])))
  }

  /** What `log` gives back: it threw, it returned `false`, or it returned the record. */
  datatype LogOutcome = Threw(message: string) | NotLogged | Logged(rec: LegacyMessages.LogMessage)

  /** A console call or a `log` event. */
  datatype Effect = Write(sink: string, text: string) | Emit(record: LegacyMessages.LogMessage)

  /** The message `result` throws for a missing promise. */
  const NotAPromise: string := "A promise must be provided as the first argument"

  /** The synchronous check of `result`: a falsy value or one without a
      function `then` is refused. */
  function CheckPromise(promise: Value): (r: Option<string>)
    ensures r.None? <==> Truthy(promise) && Get(promise, "then").Fn?
    ensures r.Some? ==> r.value == NotAPromise
  {
    if !Truthy(promise) || !Get(promise, "then").Fn? then Some(NotAPromise) else None
  }

  class LambdaLog {
    var options: LegacyMessages.LegacyOptions
    var logLevels: LevelDict
    var levels: seq<string>
    /** The generated shortcut methods, each mapped to the level it logs at. */
    var shortcuts: map<string, string>
    var effects: seq<Effect>
    /** `JSON.stringify`. */
    const stringify: Typings.Serializer

    ghost predicate Valid()
      reads this
    {
      && WellFormed(logLevels) && levels == logLevels.names && DefaultLevels.names <= levels
      && forall l :: l in shortcuts ==> shortcuts[l] == l && l in levels
    }

    /** The constructor: options over the defaults, custom levels over the
        default levels, then one shortcut per level. */
    constructor (user: UserOptions, custom: seq<(string, LevelEntry)>, envSilent: Option<string>, stringify: Typings.Serializer)
      ensures Valid()
      ensures options == MergeOptions(user, envSilent)
      ensures logLevels == Assign(DefaultLevels, custom) && levels == logLevels.names
      ensures shortcuts.Keys == set l | l in levels
      ensures forall l :: l in shortcuts ==> shortcuts[l] == l
      ensures effects == [] && this.stringify == stringify
    {
      options := MergeOptions(user, envSilent);
      var dict := Assign(DefaultLevels, custom);
      logLevels := dict;
      levels := dict.names;
      this.stringify := stringify;
      effects := [];
      BuiltinLevelsKept(custom);
      var names := dict.names;
      var installed: map<string, string> := map[];
      var i := 0;
      while i < |names|
        invariant 0 <= i <= |names|
        invariant installed.Keys == set j | 0 <= j < i :: names[j]
        invariant forall l :: l in installed ==> installed[l] == l
      {
        installed := installed[names[i] := names[i]];
        i := i + 1;
      }
      assert forall l :: l in names ==> exists j :: 0 <= j < |names| && names[j] == l;
      shortcuts := installed;
    }

    /** A call of `log(level, msg, meta, tags)` at a known level that gave
        `r`: the record is built from the arguments and the options; its
        level entry resolves, for that record, to the console method; a falsy
        method gives `false` and no effect; otherwise the record is returned
        and, unless silent, written as JSON (pretty-printed when `dev`)
        before the event is emitted. */
    twostate predicate LoggedAs(level: string, msg: Value, meta: Value, tags: Value, new r: LogOutcome)
      requires level in logLevels.entries
      reads this, if r.Logged? then {r.rec} else {}
    {
      var fields := LegacyMessages.Build(RecordArgs(level, msg, meta, tags), options);
      var m := Resolve(logLevels.entries[level], options,
                       LegacyMessages.Snapshot(fields.level, fields.msg, fields.meta, fields.tags));
      if !Truthy(m) then r == NotLogged && effects == old(effects)
      else
        && r.Logged? && fresh(r.rec) && r.rec.Current() == fields
        && effects == old(effects) +
             (if Truthy(options.silent) then [] else [Write(ToStr(m), r.rec.ToJSON(Truthy(options.dev), stringify))]) +
             [Emit(r.rec)]
    }

    twostate predicate Unchanged()
      reads this
    {
      options == old(options) && logLevels == old(logLevels) && levels == old(levels) && shortcuts == old(shortcuts)
    }

    /** `log`: an unknown level (matched exactly against `_levels`) throws before anything happens. */
    method Log(level: string, msg: Value, meta: Value, tags: Value) returns (r: LogOutcome)
      requires Valid()
      modifies this
      ensures Valid() && Unchanged()
      ensures level !in levels ==> r == Threw(Logger.InvalidLevel(level)) && effects == old(effects)
      ensures level in levels ==> level in logLevels.entries && LoggedAs(level, msg, meta, tags, r)
    {
      if level !in levels {
        return Threw(Logger.InvalidLevel(level));
      }
      var message := new LegacyMessages.LogMessage(RecordArgs(level, msg, meta, tags), options);
      var m := Resolve(logLevels.entries[level], options, message.View());
      if !Truthy(m) {
        return NotLogged;
      }
      if !Truthy(options.silent) {
        effects := effects + [Write(ToStr(m), message.ToJSON(Truthy(options.dev), stringify))];
      }
      effects := effects + [Emit(message)];
      return Logged(message);
    }

    /** A generated shortcut: `this[lvl](msg, meta, tags)` is `log(lvl, msg, meta, tags)`. */
    method Shortcut(name: string, msg: Value, meta: Value, tags: Value) returns (r: LogOutcome)
      requires Valid() && name in shortcuts
      modifies this
      ensures Valid() && Unchanged()
      ensures shortcuts[name] in logLevels.entries && LoggedAs(shortcuts[name], msg, meta, tags, r)
    {
      assert shortcuts[name] in levels;
      r := Log(shortcuts[name], msg, meta, tags);
    }

    /** `assert`: a truthy test returns `false` and does nothing; otherwise
        this is `log('error', ...)`. */
    method Assert(test: Value, msg: Value, meta: Value, tags: Value) returns (r: LogOutcome)
      requires Valid()
      modifies this
      ensures Valid() && Unchanged()
      ensures Truthy(test) ==> r == NotLogged && effects == old(effects)
      ensures !Truthy(test) ==> "error" in logLevels.entries && LoggedAs("error", msg, meta, tags, r)
    {
      if Truthy(test) {
        return NotLogged;
      }
      assert levels[2] == "error";
      r := Log("error", msg, meta, tags);
    }

    /** `result`: the argument check throws synchronously; once the promise
        settles, a value is logged at `info` and a rejection at `error`. */
    method LogResult(promise: Value, outcome: Logger.Outcome, meta: Value, tags: Value) returns (r: LogOutcome)
      requires Valid()
      modifies this
      ensures Valid() && Unchanged()
      ensures CheckPromise(promise).Some? ==> r == Threw(NotAPromise) && effects == old(effects)
      ensures CheckPromise(promise).None? && outcome.Resolved? ==>
        "info" in logLevels.entries && LoggedAs("info", outcome.value, meta, tags, r)
      ensures CheckPromise(promise).None? && outcome.Rejected? ==>
        "error" in logLevels.entries && LoggedAs("error", outcome.reason, meta, tags, r)
    {
      var check := CheckPromise(promise);
      if check.Some? {
        return Threw(check.value);
      }
      assert levels[0] == "info" && levels[2] == "error";
      match outcome
      case Resolved(v) => r := Log("info", v, meta, tags);
      case Rejected(e) => r := Log("error", e, meta, tags);
    }
  }
}
