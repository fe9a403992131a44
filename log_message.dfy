/**
 * One log record (`LogMessage`): the stored message, metadata, tags and
 * error, the normalisation that runs whenever the message is (re)assigned,
 * and the derived views (compiled metadata, resolved tags, the output
 * object, its JSON text and its formatted string).
 */
module Messages {
  import opened JsValues
  import opened Typings
  import Utils
  import JsonFormatter
  import MinimalFormatter
  import FullFormatter

  /** The arguments a record is built from; tags that are absent or not an
      array are `None`. */
  datatype LogObject = LogObject(level: string, msg: Value, meta: Value, tags: Option<seq<Tag>>)

  /** The stored part of a record: `__msg`, `__meta`, `__tags`, `__error`. */
  datatype State = State(msg: Value, meta: map<string, Value>, tags: seq<Tag>, error: Value)

  /** What `throw` raises: the error, with its `log` property pointing at the record. */
  datatype Thrown = Thrown(error: Value, log: LogMessage)

  // ---------------------------------------------------------------- parsing

  /** The constructor's metadata: a falsy value gives `{}`, a truthy
      primitive, function or array is wrapped as `{meta: value}`, an object
      contributes its own enumerable properties. */
  function InitialMeta(meta: Value): (r: map<string, Value>)
    ensures !Truthy(meta) ==> r == map[]
    ensures Truthy(meta) && (TypeOf(meta) != "object" || meta.Arr?) ==> r == map["meta" := meta]
    ensures meta.Obj? ==> r == OwnEnumerable(meta)
  {
    if !Truthy(meta) then map[]
    else if TypeOf(meta) != "object" || meta.Arr? then map["meta" := meta]
    else OwnEnumerable(meta)
  }

  /** Whether `onParse` is set and answers with an object. */
  predicate HookParses(msg: Value, opts: Options) {
    opts.onParse.Some? && opts.onParse.value(msg).Some?
  }

  /** `parseMessage`. */
  function ParseMessage(msg: Value, opts: Options, rt: Runtime): (r: Parsed)
    ensures HookParses(msg, opts) ==> r == opts.onParse.value(msg).value
    ensures !HookParses(msg, opts) && (msg.Undefined? || msg.Null?) ==>
              r == Parsed(Str(""), Undefined, Undefined, None)
    ensures !HookParses(msg, opts) && Utils.IsError(msg) ==>
              r == Parsed(Get(msg, "message"), PlainObject(map["stack" := Get(msg, "stack")]), msg, None)
    ensures !HookParses(msg, opts) && !Utils.IsError(msg) && (msg.Obj? || msg.Arr?) ==>
              r == Parsed(Str(rt.jsonStringify(msg)), Undefined, Undefined, None)
    ensures !HookParses(msg, opts) && !(msg.Undefined? || msg.Null? || msg.Obj? || msg.Arr?) ==>
              r == Parsed(Str(ToStr(msg)), Undefined, Undefined, None)
    ensures !HookParses(msg, opts) && !Utils.IsError(msg) ==> r.msg.Str? && r.error.Undefined?
  {
    if HookParses(msg, opts) then opts.onParse.value(msg).value
    else if msg.Undefined? || msg.Null? then Parsed(Str(""), Undefined, Undefined, None)
    else if Utils.IsError(msg) then
      Parsed(Get(msg, "message"), PlainObject(map["stack" := Get(msg, "stack")]), msg, None)
    else if TypeOf(msg) == "object" then Parsed(Str(rt.jsonStringify(msg)), Undefined, Undefined, None)
    else Parsed(Str(ToStr(msg)), Undefined, Undefined, None)
  }

  /** `setMessage`: the parsed message replaces the stored one; parsed
      metadata is merged over the stored metadata, a parsed error replaces
      the stored error and parsed tags are appended. */
  function ApplyParsed(s: State, p: Parsed): State {
    State(
      p.msg,
      if Truthy(p.meta) then s.meta + OwnEnumerable(p.meta) else s.meta,
      if p.tags.Some? then s.tags + p.tags.value else s.tags,
      if Truthy(p.error) then p.error else s.error)
  }

  /** Re-parsing never removes anything: stored keys stay (parsed keys win),
      stored tags stay a prefix, and the error changes only when the parse
      produced one. */
  lemma SetMessageKeepsEntries(s: State, p: Parsed)
    ensures s.meta.Keys <= ApplyParsed(s, p).meta.Keys
    ensures Truthy(p.meta) ==> forall k :: k in OwnEnumerable(p.meta) ==> ApplyParsed(s, p).meta[k] == OwnEnumerable(p.meta)[k]
    ensures !Truthy(p.meta) ==> ApplyParsed(s, p).meta == s.meta
    ensures s.tags <= ApplyParsed(s, p).tags
    ensures ApplyParsed(s, p).error != s.error ==> Truthy(p.error) && ApplyParsed(s, p).error == p.error
    ensures ApplyParsed(s, p).msg == p.msg
  {
  }

  /** The state right after construction. */
  function InitialState(log: LogObject, opts: Options, rt: Runtime): State {
    ApplyParsed(State(Str(""), InitialMeta(log.meta), log.tags.GetOr([]), Null), ParseMessage(log.msg, opts, rt))
  }

  /** An error-like message is unwrapped: its `message`, as the value it
      is, becomes the message, its `stack` is stored under `stack` (winning
      over a given `stack` key), and the error itself is kept. */
  lemma ErrorInputUnwrapped(log: LogObject, opts: Options, rt: Runtime)
    requires Utils.IsError(log.msg) && !HookParses(log.msg, opts)
    ensures InitialState(log, opts, rt).msg == Get(log.msg, "message")
    ensures "stack" in InitialState(log, opts, rt).meta
    ensures InitialState(log, opts, rt).meta["stack"] == Get(log.msg, "stack")
    ensures InitialState(log, opts, rt).error == log.msg
    ensures InitialState(log, opts, rt).meta.Keys == InitialMeta(log.meta).Keys + {"stack"}
  {
    var stackMeta := PlainObject(map["stack" := Get(log.msg, "stack")]);
    assert OwnEnumerable(stackMeta) == map["stack" := Get(log.msg, "stack")];
  }

  /** A null or undefined message becomes the empty string and adds nothing. */
  lemma NullMessageIsEmpty(log: LogObject, opts: Options, rt: Runtime)
    requires (log.msg.Null? || log.msg.Undefined?) && !HookParses(log.msg, opts)
    ensures InitialState(log, opts, rt) == State(Str(""), InitialMeta(log.meta), log.tags.GetOr([]), Null)
  {
  }

  // --------------------------------------------------------------- metadata

  /** The object part of the `dynamicMeta` answer; empty when there is no
      hook or its answer is not of type object. */
  function DynamicMeta(level: string, s: State, opts: Options): (r: map<string, Value>)
    ensures opts.dynamicMeta.None? ==> r == map[]
  {
    if opts.dynamicMeta.None? then map[]
    else
      var d := opts.dynamicMeta.value(HookCtx(level, s.msg, s.meta));
      if TypeOf(d) == "object" then OwnEnumerable(d) else map[]
  }

  /** The stored metadata, then the global `options.meta`, then the dynamic
      metadata: every key of the three is present and the latest source wins. */
  function MergedMeta(level: string, s: State, opts: Options): (r: map<string, Value>)
    ensures r.Keys == s.meta.Keys + opts.meta.Keys + DynamicMeta(level, s, opts).Keys
    ensures forall k :: k in DynamicMeta(level, s, opts) ==> r[k] == DynamicMeta(level, s, opts)[k]
    ensures forall k :: k in opts.meta && k !in DynamicMeta(level, s, opts) ==> r[k] == opts.meta[k]
    ensures forall k :: k in s.meta && k !in opts.meta && k !in DynamicMeta(level, s, opts) ==> r[k] == s.meta[k]
  {
    s.meta + opts.meta + DynamicMeta(level, s, opts)
  }

  function StubIfError(v: Value): (r: Value)
    ensures Utils.IsError(v) ==> r == Utils.StubError(v)
    ensures !Utils.IsError(v) ==> r == v
  {
    if Utils.IsError(v) then Utils.StubError(v) else v
  }

  /** Every error-like value replaced by its stubbed form, every other value kept. */
  function StubAll(m: map<string, Value>): (r: map<string, Value>)
    ensures r.Keys == m.Keys
    ensures forall k :: k in r ==> r[k] == StubIfError(m[k])
  {
    map k | k in m :: StubIfError(m[k])
  }

  /** The hook's answer counts only when its `typeof` is `object`: any
      other answer leaves the stored metadata over `options.meta`, while an
      object answer adds its own enumerable keys, which win. */
  lemma DynamicMetaAnswer(level: string, s: State, opts: Options, d: Value)
    requires opts.dynamicMeta.Some? && d == opts.dynamicMeta.value(HookCtx(level, s.msg, s.meta))
    ensures TypeOf(d) != "object" ==> MergedMeta(level, s, opts) == s.meta + opts.meta
    ensures TypeOf(d) == "object" ==>
      MergedMeta(level, s, opts).Keys == s.meta.Keys + opts.meta.Keys + OwnEnumerable(d).Keys &&
      forall k :: k in OwnEnumerable(d) ==> MergedMeta(level, s, opts)[k] == OwnEnumerable(d)[k]
  {
  }

  /** Stubbing every entry keeps the keys and each entry's error-likeness,
      leaves every other entry alone, gives every error-like entry a
      function `toJSON`, and a second pass changes nothing. */
  lemma StubAllProperties(m: map<string, Value>)
    ensures StubAll(m).Keys == m.Keys
    ensures forall k :: k in m ==> Utils.IsError(StubAll(m)[k]) == Utils.IsError(m[k])
    ensures forall k :: k in m && !Utils.IsError(m[k]) ==> StubAll(m)[k] == m[k]
    ensures forall k :: k in m && Utils.IsError(m[k]) ==> Get(StubAll(m)[k], "toJSON").Fn?
    ensures StubAll(StubAll(m)) == StubAll(m)
  {
    forall k | k in m && Utils.IsError(m[k])
      ensures StubIfError(StubAll(m)[k]) == StubAll(m)[k]
    {
      Utils.StubErrorIdempotent(m[k]);
    }
  }

  // ------------------------------------------------------------------- tags

  predicate IsWordChar(c: char) {
    'a' <= c <= 'z' || 'A' <= c <= 'Z' || '0' <= c <= '9' || c == '_'
  }

  /** The end of the run of word characters starting at `i`. */
  function WordEnd(s: string, i: nat): (j: nat)
    requires i <= |s|
    ensures i <= j <= |s|
    ensures forall k :: i <= k < j ==> IsWordChar(s[k])
    ensures j < |s| ==> !IsWordChar(s[j])
    decreases |s| - i
  {
    if i < |s| && IsWordChar(s[i]) then WordEnd(s, i + 1) else i
  }

  /** Where a `<<word>>` placeholder starting at `i` ends (the regular
      expression `<<([a-z0-9_]+)>>`, case-insensitive). */
  function TokenAt(s: string, i: nat): (r: Option<nat>)
    requires i <= |s|
    ensures r.Some? ==> i + 5 <= r.value <= |s|
  {
    if i + 2 <= |s| && s[i] == '<' && s[i + 1] == '<' then
      var j := WordEnd(s, i + 2);
      if j > i + 2 && j + 2 <= |s| && s[j] == '>' && s[j + 1] == '>' then Some(j + 2) else None
    else None
  }

  /** Every placeholder is found: `<<`, a non-empty run of word characters
      and `>>` at `i` make `TokenAt` end exactly after that `>>`. */
  lemma TokenAtComplete(s: string, i: nat, j: nat)
    requires i + 2 < j && j + 2 <= |s| && s[i] == '<' && s[i + 1] == '<' && s[j] == '>' && s[j + 1] == '>'
    requires forall k :: i + 2 <= k < j ==> IsWordChar(s[k])
    ensures TokenAt(s, i) == Some(j + 2)
  {
  }

  /** Only placeholders are found: what `TokenAt` accepts at `i` is `<<`, a
      run of word characters and `>>`. */
  lemma TokenAtSound(s: string, i: nat)
    requires i <= |s| && TokenAt(s, i).Some?
    ensures s[i] == '<' && s[i + 1] == '<' && s[TokenAt(s, i).value - 2] == '>' && s[TokenAt(s, i).value - 1] == '>'
    ensures forall k :: i + 2 <= k < TokenAt(s, i).value - 2 ==> IsWordChar(s[k])
  {
  }

  /** The placeholder substitution, scanning left to right from `i`:
      `<<level>>` becomes the level, any other placeholder stays as written. */
  function TemplateFrom(s: string, i: nat, level: string): string
    requires i <= |s|
    decreases |s| - i
  {
    if i == |s| then ""
    else
      match TokenAt(s, i)
      case Some(e) => (if s[i + 2..e - 2] == "level" then level else s[i..e]) + TemplateFrom(s, e, level)
      case None => [s[i]] + TemplateFrom(s, i + 1, level)
  }

  function Template(s: string, level: string): string {
    TemplateFrom(s, 0, level)
  }

  predicate LevelTokenAt(s: string, i: int) {
    0 <= i && i + 9 <= |s| && s[i..i + 9] == "<<level>>"
  }

  ghost predicate HasLevelToken(s: string) {
    exists i :: 0 <= i && i + 9 <= |s| && LevelTokenAt(s, i)
  }

  lemma {:induction false} TemplateFromWithoutToken(s: string, i: nat, level: string)
    requires i <= |s| && !HasLevelToken(s)
    ensures TemplateFrom(s, i, level) == s[i..]
    decreases |s| - i
  {
    if i < |s| {
      match TokenAt(s, i)
      case Some(e) =>
        TemplateFromWithoutToken(s, e, level);
        if s[i + 2..e - 2] == "level" {
          assert LevelTokenAt(s, i) by {
            assert e == i + 9;
            assert s[i..i + 9] == [s[i], s[i + 1]] + s[i + 2..i + 7] + [s[i + 7], s[i + 8]];
          }
          assert false;
        }
        assert s[i..e] + s[e..] == s[i..];
      case None =>
        TemplateFromWithoutToken(s, i + 1, level);
        assert [s[i]] + s[i + 1..] == s[i..];
    }
  }

  /** A string without a `<<level>>` placeholder is left exactly as it is,
      so any other `<<word>>` stays literal. */
  lemma TemplateWithoutToken(s: string, level: string)
    requires !HasLevelToken(s)
    ensures Template(s, level) == s
  {
    TemplateFromWithoutToken(s, 0, level);
  }

  /** The placeholder test only looks forward from its position. */
  lemma TokenAtShift(p: string, r: string, i: nat)
    requires i <= |r|
    ensures TokenAt(r, i).None? ==> TokenAt(p + r, |p| + i).None?
    ensures TokenAt(r, i).Some? ==> TokenAt(p + r, |p| + i) == Some(|p| + TokenAt(r, i).value)
  {
    if i + 2 <= |r| {
      WordEndShift(p, r, i + 2);
      var j := WordEnd(r, i + 2);
      assert (p + r)[|p| + i] == r[i] && (p + r)[|p| + i + 1] == r[i + 1];
      if j + 2 <= |r| {
        assert (p + r)[|p| + j] == r[j] && (p + r)[|p| + j + 1] == r[j + 1];
      }
    }
  }

  /** The scan only looks forward, so a prefix before the scan position does not matter. */
  lemma {:induction false} TemplateFromShift(p: string, r: string, i: nat, level: string)
    requires i <= |r|
    ensures TemplateFrom(p + r, |p| + i, level) == TemplateFrom(r, i, level)
    decreases |r| - i
  {
    if i < |r| {
      var s := p + r;
      TokenAtShift(p, r, i);
      var t := TokenAt(r, i);
      if t.Some? {
        var e := t.value;
        var key, word := s[|p| + i + 2..|p| + e - 2], s[|p| + i..|p| + e];
        assert key == r[i + 2..e - 2];
        assert word == r[i..e];
        TemplateFromShift(p, r, e, level);
        assert TemplateFrom(s, |p| + i, level) == (if key == "level" then level else word) + TemplateFrom(s, |p| + e, level);
      } else {
        assert s[|p| + i] == r[i];
        TemplateFromShift(p, r, i + 1, level);
        assert TemplateFrom(s, |p| + i, level) == [s[|p| + i]] + TemplateFrom(s, |p| + i + 1, level);
      }
    }
  }

  lemma {:induction false} WordEndShift(p: string, r: string, i: nat)
    requires i <= |r|
    ensures WordEnd(p + r, |p| + i) == |p| + WordEnd(r, i)
    decreases |r| - i
  {
    if i < |r| && IsWordChar(r[i]) {
      WordEndShift(p, r, i + 1);
    }
  }

  /** A leading `<<level>>` is replaced by the level and scanning resumes after it. */
  lemma LevelTokenReplaced(rest: string, level: string)
    ensures Template("<<level>>" + rest, level) == level + Template(rest, level)
  {
    var s := "<<level>>" + rest;
    assert WordEnd(s, 2) == 7 by {
      assert IsWordChar(s[2]) && IsWordChar(s[3]) && IsWordChar(s[4]) && IsWordChar(s[5]) && IsWordChar(s[6]);
      assert !IsWordChar(s[7]);
    }
    assert TokenAt(s, 0) == Some(9);
    assert s[2..7] == "level";
    TemplateFromShift("<<level>>", rest, 0, level);
  }

  /** One step of the scan from the start of any non-empty string: a
      placeholder there is replaced (when it is `<<level>>`) or copied, and
      anything else copies one character; the scan then continues on the
      rest.  With `Template("", level) == ""` this determines the result
      for every string. */
  lemma TemplateStep(s: string, level: string)
    requires s != []
    ensures TokenAt(s, 0).None? ==> Template(s, level) == s[..1] + Template(s[1..], level)
    ensures forall e :: TokenAt(s, 0) == Some(e) ==>
      Template(s, level) == (if s[2..e - 2] == "level" then level else s[..e]) + Template(s[e..], level)
  {
    var n := if TokenAt(s, 0).Some? then TokenAt(s, 0).value else 1;
    assert s == s[..n] + s[n..];
    TemplateFromShift(s[..n], s[n..], 0, level);
  }

  /** A placeholder naming anything but `level` (including `<<LEVEL>>`) is
      copied literally, and the scan continues after it. */
  lemma OtherTokenKept(w: string, rest: string, level: string)
    requires w != "" && w != "level" && forall k :: 0 <= k < |w| ==> IsWordChar(w[k])
    ensures Template("<<" + w + ">>" + rest, level) == "<<" + w + ">>" + Template(rest, level)
  {
    var t := "<<" + w + ">>";
    var s := t + rest;
    assert forall k :: 2 <= k < 2 + |w| ==> s[k] == w[k - 2];
    assert s[2 + |w|] == '>' && s[3 + |w|] == '>';
    assert TokenAt(s, 0) == Some(|t|);
    assert s[2..|t| - 2] == w;
    assert s[..|t|] == t && s[|t|..] == rest;
    TemplateStep(s, level);
  }

  /** Text before a `<<level>>` placeholder is scanned first and does not
      stop the replacement: `a<<level>>` becomes `a` followed by the level. */
  lemma LevelTokenAfterText(c: char, rest: string, level: string)
    requires c != '<'
    ensures Template([c] + "<<level>>" + rest, level) == [c] + level + Template(rest, level)
  {
    var s := [c] + "<<level>>" + rest;
    assert TokenAt(s, 0).None?;
    TemplateStep(s, level);
    assert s[1..] == "<<level>>" + rest;
    LevelTokenReplaced(rest, level);
  }


  /** One tag, as the tags getter maps it: a function tag is replaced by its
      result when that result is truthy; a string then has its placeholders
      substituted. */
  function ResolveTag(t: Tag, level: string, meta: map<string, Value>): Tag {
    var t1 := if t.Computed? && Truthy(t.f(TagCtx(level, meta))) then Lit(t.f(TagCtx(level, meta))) else t;
    if t1.Lit? && t1.v.Str? then Lit(Str(Template(t1.v.s, level))) else t1
  }

  /** The filter keeps non-empty strings only. */
  predicate Kept(t: Tag) {
    t.Lit? && t.v.Str? && t.v.s != ""
  }

  function KeepStrings(ts: seq<Tag>): (r: seq<string>)
    ensures |r| <= |ts|
    ensures forall i :: 0 <= i < |r| ==> r[i] != ""
    decreases |ts|
  {
    if ts == [] then [] else (if Kept(ts[0]) then [ts[0].v.s] else []) + KeepStrings(ts[1..])
  }

  lemma {:induction false} KeepStringsConcat(a: seq<Tag>, b: seq<Tag>)
    ensures KeepStrings(a + b) == KeepStrings(a) + KeepStrings(b)
    decreases |a|
  {
    if a != [] {
      assert (a + b)[0] == a[0];
      assert (a + b)[1..] == a[1..] + b;
      KeepStringsConcat(a[1..], b);
    } else {
      assert a + b == b;
    }
  }

  /** A string is in the filtered list iff some element is that non-empty string. */
  lemma {:induction false} KeepStringsMembership(ts: seq<Tag>, s: string)
    ensures s in KeepStrings(ts) <==> exists i :: 0 <= i < |ts| && Kept(ts[i]) && ts[i].v.s == s
    decreases |ts|
  {
    if ts != [] {
      KeepStringsMembership(ts[1..], s);
      if exists i :: 0 <= i < |ts| && Kept(ts[i]) && ts[i].v.s == s {
        var i :| 0 <= i < |ts| && Kept(ts[i]) && ts[i].v.s == s;
        if i > 0 { assert ts[1..][i - 1] == ts[i]; }
      }
      if exists i :: 0 <= i < |ts| - 1 && Kept(ts[1..][i]) && ts[1..][i].v.s == s {
        var i :| 0 <= i < |ts| - 1 && Kept(ts[1..][i]) && ts[1..][i].v.s == s;
        assert ts[i + 1] == ts[1..][i];
      }
    }
  }

  function ResolveAll(ts: seq<Tag>, level: string, meta: map<string, Value>): (r: seq<Tag>)
    ensures |r| == |ts| && forall i :: 0 <= i < |ts| ==> r[i] == ResolveTag(ts[i], level, meta)
  {
    seq(|ts|, i requires 0 <= i < |ts| => ResolveTag(ts[i], level, meta))
  }

  /** The resolved tag list: every tag resolved, then only non-empty strings kept. */
  function ResolveTags(ts: seq<Tag>, level: string, meta: map<string, Value>): (r: seq<string>)
    ensures forall i :: 0 <= i < |r| ==> r[i] != ""
  {
    KeepStrings(ResolveAll(ts, level, meta))
  }

  /** Each tag is resolved on its own, so resolution distributes over concatenation. */
  lemma ResolveAllConcat(a: seq<Tag>, b: seq<Tag>, level: string, meta: map<string, Value>)
    ensures ResolveAll(a + b, level, meta) == ResolveAll(a, level, meta) + ResolveAll(b, level, meta)
  {
    assert forall i :: 0 <= i < |a| + |b| ==>
      ResolveAll(a + b, level, meta)[i] == (ResolveAll(a, level, meta) + ResolveAll(b, level, meta))[i];
  }

  /** Resolution keeps order across concatenation, so global tags come first. */
  lemma ResolveTagsConcat(a: seq<Tag>, b: seq<Tag>, level: string, meta: map<string, Value>)
    ensures ResolveTags(a + b, level, meta) == ResolveTags(a, level, meta) + ResolveTags(b, level, meta)
  {
    ResolveAllConcat(a, b, level, meta);
    KeepStringsConcat(ResolveAll(a, level, meta), ResolveAll(b, level, meta));
  }

  /** What happens to single tags: strings are templated and kept when
      non-empty; numbers, objects, falsy values and function tags with a
      falsy result are dropped; a function tag's truthy string result is
      templated. */
  lemma ResolveSingleTag(t: Tag, level: string, meta: map<string, Value>)
    ensures t.Lit? && t.v.Str? ==>
      ResolveTags([t], level, meta) == (if Template(t.v.s, level) == "" then [] else [Template(t.v.s, level)])
    ensures t.Lit? && !t.v.Str? ==> ResolveTags([t], level, meta) == []
    ensures t.Computed? && !Truthy(t.f(TagCtx(level, meta))) ==> ResolveTags([t], level, meta) == []
    ensures t.Computed? && t.f(TagCtx(level, meta)).Str? && t.f(TagCtx(level, meta)).s != "" ==>
      ResolveTags([t], level, meta) == (if Template(t.f(TagCtx(level, meta)).s, level) == "" then []
                                        else [Template(t.f(TagCtx(level, meta)).s, level)])
    ensures t.Computed? && Truthy(t.f(TagCtx(level, meta))) && !t.f(TagCtx(level, meta)).Str? ==>
      ResolveTags([t], level, meta) == []
  {
    var r := ResolveAll([t], level, meta);
    assert r == [ResolveTag(t, level, meta)];
    assert r[1..] == [];
  }

  // ------------------------------------------------------------ output value

  function KeyOf(k: KeyName, default: string): string {
    if k.Named? then k.name else default
  }

  /** The level key the output object gets, if any (default `__level`). */
  function LevelKeys(opts: Options): set<string> {
    if opts.levelKey.Disabled? then {} else {KeyOf(opts.levelKey, "__level")}
  }

  /** The message key (default `msg`); it cannot be disabled. */
  function MessageKey(opts: Options): string {
    opts.messageKey.GetOr("msg")
  }

  /** The tags key the output object gets, if any (default `__tags`). */
  function TagsKeys(opts: Options): set<string> {
    if opts.tagsKey.Disabled? then {} else {KeyOf(opts.tagsKey, "__tags")}
  }

  function StrArray(tags: seq<string>): Value {
    Arr(seq(|tags|, i requires 0 <= i < |tags| => Str(tags[i])))
  }

  /** The output object without `onCompile`: the level key, then the message
      key, then the metadata spread over both, then the tags key, which
      always wins. */
  function Render(level: string, msg: Value, meta: map<string, Value>, tags: seq<string>, opts: Options): (r: map<string, Value>)
    ensures r.Keys == LevelKeys(opts) + {MessageKey(opts)} + meta.Keys + TagsKeys(opts)
    ensures forall k :: k in TagsKeys(opts) ==> r[k] == StrArray(tags)
    ensures forall k :: k in meta && k !in TagsKeys(opts) ==> r[k] == meta[k]
    ensures MessageKey(opts) !in meta && MessageKey(opts) !in TagsKeys(opts) ==> r[MessageKey(opts)] == msg
    ensures forall k :: k in LevelKeys(opts) && k != MessageKey(opts) && k !in meta && k !in TagsKeys(opts) ==>
              r[k] == Str(level)
  {
    var header := if opts.levelKey.Disabled? then map[] else map[KeyOf(opts.levelKey, "__level") := Str(level)];
    var withMsg := header[MessageKey(opts) := msg];
    var withMeta := withMsg + meta;
    if opts.tagsKey.Disabled? then withMeta else withMeta[KeyOf(opts.tagsKey, "__tags") := StrArray(tags)]
  }

  /** With `levelKey: false` the only keys are the message key, the metadata
      keys and the tags key; with `levelKey` unset the default `__level` key
      is present. */
  lemma LevelKeyNaming(level: string, msg: Value, meta: map<string, Value>, tags: seq<string>, opts: Options)
    ensures opts.levelKey.Disabled? ==>
      Render(level, msg, meta, tags, opts).Keys == {MessageKey(opts)} + meta.Keys + TagsKeys(opts)
    ensures opts.levelKey.DefaultKey? ==> "__level" in Render(level, msg, meta, tags, opts)
    ensures opts.messageKey.None? ==> "msg" in Render(level, msg, meta, tags, opts)
    ensures opts.tagsKey.DefaultKey? ==> Render(level, msg, meta, tags, opts)["__tags"] == StrArray(tags)
  {
  }

  // ----------------------------------------------------------------- record

  class LogMessage {
    const opts: Options
    const rt: Runtime
    const level: string
    var msg: Value
    var meta: map<string, Value>
    var tags: seq<Tag>
    var error: Value

    function Stored(): State
      reads this
    {
      State(msg, meta, tags, error)
    }

    constructor (log: LogObject, opts: Options, rt: Runtime)
      ensures this.opts == opts && this.rt == rt && level == log.level
      ensures Stored() == InitialState(log, opts, rt)
    {
      this.opts := opts;
      this.rt := rt;
      level := log.level;
      msg := Str("");
      meta := InitialMeta(log.meta);
      tags := log.tags.GetOr([]);
      error := Null;
      new;
      SetMessage(log.msg);
    }

    /** `setMessage`, run by the constructor and by the `msg` / `message` setters. */
    method SetMessage(message: Value)
      modifies this
      ensures Stored() == ApplyParsed(old(Stored()), ParseMessage(message, opts, rt))
    {
      var parsed := ParseMessage(message, opts, rt);
      msg := parsed.msg;
      if Truthy(parsed.meta) {
        meta := meta + OwnEnumerable(parsed.meta);
      }
      if Truthy(parsed.error) {
        error := parsed.error;
      }
      if parsed.tags.Some? {
        tags := tags + parsed.tags.value;
      }
    }

    /** The `meta` setter: merges, the new keys winning. */
    method SetMeta(obj: Value)
      modifies this
      ensures meta == old(meta) + OwnEnumerable(obj)
      ensures msg == old(msg) && tags == old(tags) && error == old(error)
    {
      meta := meta + OwnEnumerable(obj);
    }

    /** The `tags` setter: appends. */
    method AppendTags(more: seq<Tag>)
      modifies this
      ensures tags == old(tags) + more
      ensures msg == old(msg) && meta == old(meta) && error == old(error)
    {
      tags := tags + more;
    }

    /** What the `meta` getter returns. */
    function FullMeta(): map<string, Value>
      reads this
    {
      StubAll(MergedMeta(level, Stored(), opts))
    }

    /** The `meta` getter: spreads the stored metadata and `options.meta`,
        adds the dynamic metadata, then overwrites every error-like entry
        with its stubbed form. */
    method Meta() returns (m: map<string, Value>)
      ensures m.Keys == MergedMeta(level, Stored(), opts).Keys
      ensures forall k :: k in m ==> m[k] == StubIfError(MergedMeta(level, Stored(), opts)[k])
    {
      m := meta + opts.meta;
      if opts.dynamicMeta.Some? {
        var dyn := opts.dynamicMeta.value(HookCtx(level, msg, meta));
        if TypeOf(dyn) == "object" {
          m := m + OwnEnumerable(dyn);
        }
      }
      ghost var merged := m;
      assert merged == MergedMeta(level, Stored(), opts);
      var pending := m.Keys;
      while pending != {}
        invariant pending <= merged.Keys && m.Keys == merged.Keys
        invariant forall k :: k in m ==> m[k] == if k in pending then merged[k] else StubIfError(merged[k])
        decreases pending
      {
        var key :| key in pending;
        var val := m[key];
        if TypeOf(val) == "object" && Truthy(val) && Utils.IsError(val) {
          m := m[key := Utils.StubError(val)];
        }
        pending := pending - {key};
      }
    }

    /** The `tags` getter: global tags, then the record's tags, resolved and filtered. */
    function Tags(): seq<string>
      reads this
    {
      ResolveTags(opts.tags + tags, level, FullMeta())
    }

    /** The `value` getter (and its alias `log`). */
    function Compiled(): Value
      reads this
    {
      if opts.onCompile.Some? then opts.onCompile.value(CompileCtx(level, msg, FullMeta(), Tags()))
      else PlainObject(Render(level, msg, FullMeta(), Tags(), opts))
    }

    function View(): RecordView
      reads this
    {
      RecordView(level, msg, FullMeta(), Tags(), Compiled())
    }

    /** `toJSON(format)`: the compiled value through the cycle-safe
        serialiser, with the replacer, indented by 2 when `format` holds. */
    function ToJSON(format: bool): string
      reads this
    {
      rt.safeStringify(Compiled(), opts.replacer, if format then 2 else 0)
    }

    /** `formatMessage(formatter)`; anything that is not a function falls
        back to the JSON formatter. */
    function FormatMessage(formatter: FormatPlugin, stamp: string): string
      reads this
    {
      match formatter
      case JsonFmt => JsonFormatter.Format(View(), opts, rt.safeStringify)
      case NotAFunction => JsonFormatter.Format(View(), opts, rt.safeStringify)
      case MinimalFmt(cfg) => MinimalFormatter.Format(cfg, View(), stamp)
      case FullFmt(cfg) => FullFormatter.Format(cfg, View(), stamp, rt.inspect)
      case CustomFmt(f) => f(View(), rt.safeStringify)
    }

    /** `toString()`: the configured `onFormat`. */
    function ToString(stamp: string): string
      reads this
    {
      FormatMessage(opts.onFormat, stamp)
    }

    /** The `throw` getter: the stored error, or a new `Error(msg)` when none
        was stored, with `log` set to this record.  `stack` is the stack
        trace a new error would capture. */
    function Throw(stack: string): (t: Thrown)
      reads this
      ensures t.log == this
      ensures !(error.Null? || error.Undefined?) ==> t.error == error
      ensures (error.Null? || error.Undefined?) ==> Utils.IsError(t.error) && t.error == ErrorFor(msg, stack)
    {
      Thrown(if error.Null? || error.Undefined? then ErrorFor(msg, stack) else error, this)
    }
  }

  /** The tags getter lists the resolved global tags before the resolved record tags. */
  lemma GlobalTagsFirst(rec: LogMessage)
    ensures rec.Tags() == ResolveTags(rec.opts.tags, rec.level, rec.FullMeta()) + ResolveTags(rec.tags, rec.level, rec.FullMeta())
  {
    ResolveTagsConcat(rec.opts.tags, rec.tags, rec.level, rec.FullMeta());
  }

  /** `value` is the `onCompile` answer when the hook is set, otherwise the
      rendered object over the compiled metadata and the resolved tags. */
  lemma ValueRendering(rec: LogMessage)
    ensures rec.opts.onCompile.Some? ==>
      rec.Compiled() == rec.opts.onCompile.value(CompileCtx(rec.level, rec.msg, rec.FullMeta(), rec.Tags()))
    ensures rec.opts.onCompile.None? ==>
      rec.Compiled().Obj? && !rec.Compiled().errorInstance && rec.Compiled().hidden == {} &&
      rec.Compiled().own.Keys == LevelKeys(rec.opts) + {MessageKey(rec.opts)} + rec.FullMeta().Keys + TagsKeys(rec.opts) &&
      forall k :: k in TagsKeys(rec.opts) ==> rec.Compiled().own[k] == StrArray(rec.Tags())
  {
  }

  /** `toJSON(format)` indents by 2 exactly when `format` holds and always passes the replacer. */
  lemma ToJSONIndentation(rec: LogMessage)
    ensures rec.ToJSON(true) == rec.rt.safeStringify(rec.Compiled(), rec.opts.replacer, 2)
    ensures rec.ToJSON(false) == rec.rt.safeStringify(rec.Compiled(), rec.opts.replacer, 0)
  {
  }

  /** With no custom formatter the string form is the JSON text in the
      record's own dev setting. */
  lemma DefaultFormatIsToJSON(rec: LogMessage, stamp: string)
    requires rec.opts.onFormat.JsonFmt? || rec.opts.onFormat.NotAFunction?
    ensures rec.ToString(stamp) == rec.ToJSON(rec.opts.dev)
  {
  }

  /** A record built from an error rethrows that very error; one built from
      a string throws a new error carrying the message. */
  lemma ThrowAfterConstruction(log: LogObject, opts: Options, rt: Runtime, rec: LogMessage, stack: string)
    requires rec.Stored() == InitialState(log, opts, rt) && rec.opts == opts && rec.rt == rt
    requires !HookParses(log.msg, opts)
    ensures Utils.IsError(log.msg) ==> rec.Throw(stack).error == log.msg
    ensures log.msg.Str? ==> rec.Throw(stack).error == NewError(log.msg.s, stack)
  {
    if Utils.IsError(log.msg) {
      ErrorInputUnwrapped(log, opts, rt);
    }
  }
}
