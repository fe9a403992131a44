/**
 * The full formatter: a header line `[timestamp] LEVEL msg`, then an
 * optional `→ tags` line and an optional `→ metadata dump`, joined by
 * newlines.
 */
module FullFormatter {
  import opened JsValues
  import opened Typings

  /** The user's configuration: `None` is a key left out, `Some(None)` a key
      given as `undefined`, which the spread copies over the default. */
  datatype UserConfig = UserConfig(
    includeTimestamp: Option<Option<bool>>,
    includeTags: Option<Option<bool>>,
    includeMeta: Option<Option<bool>>,
    separator: Option<Option<string>>)

  const DefaultSeparator: string := "\t"

  /** The marker in front of the tags and metadata lines. */
  const Arrow: string := "\U{2192} "

  /** `fullFormatter(cfg)`: every flag defaults to true and the separator to
      a tab; each key the user gives wins, `undefined` included (it turns a
      flag off).  The result exposes the merged configuration as `_cfg`. */
  function Create(cfg: UserConfig): (p: FormatPlugin)
    ensures p.FullFmt?
    ensures p.full.includeTimestamp <==> cfg.includeTimestamp.None? || cfg.includeTimestamp.value == Some(true)
    ensures p.full.includeTags <==> cfg.includeTags.None? || cfg.includeTags.value == Some(true)
    ensures p.full.includeMeta <==> cfg.includeMeta.None? || cfg.includeMeta.value == Some(true)
    ensures cfg.separator.None? ==> p.full.separator == Some(DefaultSeparator)
    ensures cfg.separator.Some? ==> p.full.separator == cfg.separator.value
  {
    FullFmt(FullConfig(
      MergedFlag(cfg.includeTimestamp),
      MergedFlag(cfg.includeTags),
      MergedFlag(cfg.includeMeta),
      cfg.separator.GetOr(Some(DefaultSeparator))))
  }

  /** A flag after the spread: true when left out, false when `undefined`. */
  function MergedFlag(flag: Option<Option<bool>>): bool {
    flag.GetOr(Some(true)).GetOr(false)
  }

  /** `dump.replace(/\n/g, '\n  ')`: every newline gets two spaces after it. */
  function Indent(dump: string): string
    decreases |dump|
  {
    if dump == [] then []
    else (if dump[0] == '\n' then "\n  " else [dump[0]]) + Indent(dump[1..])
  }

  /** Removes two spaces after every newline that has them; undoes `Indent`. */
  function Dedent(s: string): string
    decreases |s|
  {
    if s == [] then []
    else if s[0] == '\n' && |s| >= 3 && s[1] == ' ' && s[2] == ' ' then "\n" + Dedent(s[3..])
    else [s[0]] + Dedent(s[1..])
  }

  lemma {:induction false} IndentRoundTrip(dump: string)
    ensures Dedent(Indent(dump)) == dump
    decreases |dump|
  {
    if dump != [] {
      IndentRoundTrip(dump[1..]);
      var rest := Indent(dump[1..]);
      if dump[0] == '\n' {
        assert Indent(dump) == "\n  " + rest;
        assert (("\n  " + rest)[3..]) == rest;
      } else {
        assert Indent(dump) == [dump[0]] + rest;
        assert ([dump[0]] + rest)[1..] == rest;
      }
      assert dump == [dump[0]] + dump[1..];
    }
  }

  /** In the indented dump every newline is followed by two spaces. */
  lemma {:induction false} IndentSpacesAfterNewline(dump: string, i: nat)
    requires i < |Indent(dump)| && Indent(dump)[i] == '\n'
    ensures i + 2 < |Indent(dump)| && Indent(dump)[i + 1] == ' ' && Indent(dump)[i + 2] == ' '
    decreases |dump|
  {
    var head := if dump[0] == '\n' then "\n  " else [dump[0]];
    var rest := Indent(dump[1..]);
    assert Indent(dump) == head + rest;
    if i >= |head| {
      assert rest[i - |head|] == '\n';
      IndentSpacesAfterNewline(dump[1..], i - |head|);
    }
  }

  function Header(cfg: FullConfig, ctx: RecordView, stamp: string): string {
    Join((if cfg.includeTimestamp then [stamp] else []) + [AsciiUpper(ctx.level), JoinText(ctx.msg)], JoinSeparator(cfg.separator))
  }

  /** Whether the tags line is written. */
  predicate ShowsTags(cfg: FullConfig, ctx: RecordView) {
    cfg.includeTags && |ctx.tags| > 0
  }

  /** Whether the metadata line is written. */
  predicate ShowsMeta(cfg: FullConfig, ctx: RecordView) {
    cfg.includeMeta && |ctx.meta| > 0
  }

  /** The formatter; `stamp` is the formatted current time, `inspect` the
      metadata dump routine. */
  function Format(cfg: FullConfig, ctx: RecordView, stamp: string, inspect: map<string, Value> -> string): string {
    var tagsPart := if ShowsTags(cfg, ctx) then [Arrow + Join(ctx.tags, ", ")] else [];
    var metaPart := if ShowsMeta(cfg, ctx) then [Arrow + Indent(inspect(ctx.meta))] else [];
    Join([Header(cfg, ctx, stamp)] + tagsPart + metaPart, "\n")
  }

  /** The output is the header, then the tags line exactly when tags are
      included and present, then the metadata line exactly when metadata
      is included and has a key. */
  lemma {:induction false} FormatSections(cfg: FullConfig, ctx: RecordView, stamp: string, inspect: map<string, Value> -> string)
    ensures Format(cfg, ctx, stamp, inspect) ==
            Header(cfg, ctx, stamp)
            + (if ShowsTags(cfg, ctx) then "\n" + Arrow + Join(ctx.tags, ", ") else "")
            + (if ShowsMeta(cfg, ctx) then "\n" + Arrow + Indent(inspect(ctx.meta)) else "")
  {
    var h := Header(cfg, ctx, stamp);
    var t := Arrow + Join(ctx.tags, ", ");
    var m := Arrow + Indent(inspect(ctx.meta));
    var tagsPart := if ShowsTags(cfg, ctx) then [t] else [];
    var metaPart := if ShowsMeta(cfg, ctx) then [m] else [];
    var withTags := [h] + tagsPart;
    assert Join(withTags, "\n") == h + (if ShowsTags(cfg, ctx) then "\n" + t else "") by {
      if ShowsTags(cfg, ctx) {
        JoinSnoc([h], t, "\n");
        assert [h] + [t] == [h] + tagsPart;
      } else {
        assert withTags == [h];
      }
    }
    if ShowsMeta(cfg, ctx) {
      JoinSnoc(withTags, m, "\n");
      assert withTags + [m] == [h] + tagsPart + metaPart;
    } else {
      assert [h] + tagsPart + metaPart == withTags;
    }
  }

  /** The header's parts: optional timestamp, upper-cased level, message. */
  lemma HeaderParts(cfg: FullConfig, ctx: RecordView, stamp: string)
    ensures var sep := JoinSeparator(cfg.separator);
      cfg.includeTimestamp ==>
      Header(cfg, ctx, stamp) == stamp + sep + AsciiUpper(ctx.level) + sep + JoinText(ctx.msg)
    ensures var sep := JoinSeparator(cfg.separator);
      !cfg.includeTimestamp ==>
      Header(cfg, ctx, stamp) == AsciiUpper(ctx.level) + sep + JoinText(ctx.msg)
  {
    var sep := JoinSeparator(cfg.separator);
    if cfg.includeTimestamp {
      assert [stamp] + [AsciiUpper(ctx.level), JoinText(ctx.msg)] == [stamp, AsciiUpper(ctx.level), JoinText(ctx.msg)];
      JoinThree(stamp, AsciiUpper(ctx.level), JoinText(ctx.msg), sep);
    } else {
      assert [] + [AsciiUpper(ctx.level), JoinText(ctx.msg)] == [AsciiUpper(ctx.level), JoinText(ctx.msg)];
      JoinTwo(AsciiUpper(ctx.level), JoinText(ctx.msg), sep);
    }
  }

  /** With the timestamp off and neither tags nor metadata to show, the
      output is the single line `LEVEL<sep>msg`. */
  lemma FormatBare(cfg: FullConfig, ctx: RecordView, stamp: string, inspect: map<string, Value> -> string)
    requires !cfg.includeTimestamp && !ShowsTags(cfg, ctx) && !ShowsMeta(cfg, ctx)
    ensures Format(cfg, ctx, stamp, inspect) == AsciiUpper(ctx.level) + JoinSeparator(cfg.separator) + JoinText(ctx.msg)
  {
    FormatSections(cfg, ctx, stamp, inspect);
    HeaderParts(cfg, ctx, stamp);
  }

  /** `fullFormatter({includeTimestamp: false})` on an `info` record without
      tags or metadata gives `INFO\t<msg>`. */
  lemma NoTimestampLine(ctx: RecordView, stamp: string, inspect: map<string, Value> -> string)
    requires ctx.level == "info" && ctx.tags == [] && ctx.meta == map[]
    ensures Format(Create(UserConfig(Some(Some(false)), None, None, None)).full, ctx, stamp, inspect) == "INFO\t" + JoinText(ctx.msg)
  {
    FormatBare(Create(UserConfig(Some(Some(false)), None, None, None)).full, ctx, stamp, inspect);
    assert AsciiUpper("info") == "INFO";
  }

  /** Every key given as `undefined`: the timestamp, tags and metadata are
      all off, whatever the record holds, and the parts are joined with a
      comma, so an `info` record reads `INFO,<msg>`. */
  lemma UndefinedConfigIsBare(ctx: RecordView, stamp: string, inspect: map<string, Value> -> string)
    requires ctx.level == "info"
    ensures Format(Create(UserConfig(Some(None), Some(None), Some(None), Some(None))).full, ctx, stamp, inspect) == "INFO," + JoinText(ctx.msg)
  {
    FormatBare(Create(UserConfig(Some(None), Some(None), Some(None), Some(None))).full, ctx, stamp, inspect);
    assert AsciiUpper("info") == "INFO";
  }
}
