/** The JSON formatter: the record's compiled value through the serialiser. */
module JsonFormatter {
  import opened JsValues
  import opened Typings

  /** The indentation the serialiser is asked for: 2 in development mode, 0 otherwise. */
  function Indentation(dev: bool): nat {
    if dev then 2 else 0
  }

  /** `jsonFormatter()(ctx, options, stringify)` */
  function Format(ctx: RecordView, options: Options, stringify: Serializer): string {
    stringify(ctx.value, options.replacer, Indentation(options.dev))
  }

  /** The output depends on the record only through its compiled value, and
      on the options only through the replacer and the dev flag. */
  lemma FormatReadsOnlyValueAndOptions(c1: RecordView, c2: RecordView, o1: Options, o2: Options, stringify: Serializer)
    requires c1.value == c2.value && o1.replacer == o2.replacer && o1.dev == o2.dev
    ensures Format(c1, o1, stringify) == Format(c2, o2, stringify)
  {
  }

  /** Development mode indents by two; the compact form by none. */
  lemma FormatIndentation(ctx: RecordView, options: Options, stringify: Serializer)
    ensures options.dev ==> Format(ctx, options, stringify) == stringify(ctx.value, options.replacer, 2)
    ensures !options.dev ==> Format(ctx, options, stringify) == stringify(ctx.value, options.replacer, 0)
  {
  }
}
