/** The minimal formatter: `LEVEL | msg`, optionally after a timestamp. */
module MinimalFormatter {
  import opened JsValues
  import opened Typings

  /** The user's configuration: `None` is a key left out, `Some(None)` a key
      given as `undefined`, which the spread copies over the default. */
  datatype UserConfig = UserConfig(includeTimestamp: Option<Option<bool>>, separator: Option<Option<string>>)

  const DefaultSeparator: string := " | "

  /** `minimalFormatter(cfg)`: the defaults, overridden by every key the user
      gives, `undefined` included.  The returned formatter exposes this merged
      configuration as `_cfg`. */
  function Create(cfg: UserConfig): (p: FormatPlugin)
    ensures p.MinimalFmt?
    ensures p.minimal.includeTimestamp <==> cfg.includeTimestamp == Some(Some(true))
    ensures cfg.separator.None? ==> p.minimal.separator == Some(DefaultSeparator)
    ensures cfg.separator.Some? ==> p.minimal.separator == cfg.separator.value
  {
    MinimalFmt(MinimalConfig(cfg.includeTimestamp.GetOr(Some(false)).GetOr(false), cfg.separator.GetOr(Some(DefaultSeparator))))
  }

  /** The formatter; `stamp` is the formatted current time.  The message is
      written as `join` writes an element (null and undefined as empty). */
  function Format(cfg: MinimalConfig, ctx: RecordView, stamp: string): string {
    var parts := (if cfg.includeTimestamp then [stamp] else []) + [AsciiUpper(ctx.level), JoinText(ctx.msg)];
    Join(parts, JoinSeparator(cfg.separator))
  }

  /** Without a timestamp the line is exactly the upper-cased level, the separator and the message. */
  lemma FormatWithoutTimestamp(cfg: MinimalConfig, ctx: RecordView, stamp: string)
    requires !cfg.includeTimestamp
    ensures Format(cfg, ctx, stamp) == AsciiUpper(ctx.level) + JoinSeparator(cfg.separator) + JoinText(ctx.msg)
  {
    assert [] + [AsciiUpper(ctx.level), JoinText(ctx.msg)] == [AsciiUpper(ctx.level), JoinText(ctx.msg)];
    JoinTwo(AsciiUpper(ctx.level), JoinText(ctx.msg), JoinSeparator(cfg.separator));
  }

  /** With a timestamp there are three parts: timestamp, level, message. */
  lemma FormatWithTimestamp(cfg: MinimalConfig, ctx: RecordView, stamp: string)
    requires cfg.includeTimestamp
    ensures var sep := JoinSeparator(cfg.separator);
            Format(cfg, ctx, stamp) == stamp + sep + AsciiUpper(ctx.level) + sep + JoinText(ctx.msg)
  {
    assert [stamp] + [AsciiUpper(ctx.level), JoinText(ctx.msg)] == [stamp, AsciiUpper(ctx.level), JoinText(ctx.msg)];
    JoinThree(stamp, AsciiUpper(ctx.level), JoinText(ctx.msg), JoinSeparator(cfg.separator));
  }

  /** With the default configuration an `info` record reads `INFO | <msg>`. */
  lemma DefaultLine(ctx: RecordView, stamp: string)
    requires ctx.level == "info"
    ensures Format(Create(UserConfig(None, None)).minimal, ctx, stamp) == "INFO | " + JoinText(ctx.msg)
  {
    FormatWithoutTimestamp(Create(UserConfig(None, None)).minimal, ctx, stamp);
    assert AsciiUpper("info") == "INFO";
  }

  /** `minimalFormatter({separator: undefined})` joins with `join`'s own
      default, a comma: an `info` record reads `INFO,<msg>`. */
  lemma UndefinedSeparatorIsComma(ctx: RecordView, stamp: string)
    requires ctx.level == "info"
    ensures Format(Create(UserConfig(None, Some(None))).minimal, ctx, stamp) == "INFO," + JoinText(ctx.msg)
  {
    FormatWithoutTimestamp(Create(UserConfig(None, Some(None))).minimal, ctx, stamp);
    assert AsciiUpper("info") == "INFO";
  }
}
