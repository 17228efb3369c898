/** Python's printf-style `template % arg` for a single string argument,
    restricted to the conversions `%s` and `%%`. */
module PercentFormat {
  import opened Wrappers

  /** The exceptions `template % arg` raises. */
  datatype FormatError =
    | IncompleteFormat                   // ValueError: a trailing '%'
    | UnsupportedConversion(c: char)     // a conversion other than 's' or '%'
    | NotEnoughArguments                 // TypeError: a second '%s'
    | NotAllArgumentsConverted           // TypeError: no '%s' consumed the argument

  /** `s` prepended to the string of `r`, errors passed through. */
  function Prepend(s: string, r: Result<string, FormatError>): (res: Result<string, FormatError>) {
    match r
    case Ok(v) => Ok(s + v)
    case Err(e) => Err(e)
  }

  /** Python's `template % arg` where `arg` is one string. */
  function Format(template: string, arg: string): (r: Result<string, FormatError>)
    ensures '%' !in template ==> r == Err(NotAllArgumentsConverted)
  {
    FormatFrom(template, arg, false)
  }

  /** Formats the rest `t` of a template; `consumed` says whether a `%s`
      before `t` has already used up the argument. */
  function FormatFrom(t: string, arg: string, consumed: bool): (r: Result<string, FormatError>)
    ensures '%' !in t ==> r == (if consumed then Ok(t) else Err(NotAllArgumentsConverted))
    decreases |t|
  {
    if t == [] then
      (if consumed then Ok([]) else Err(NotAllArgumentsConverted))
    else if t[0] != '%' then
      assert t == [t[0]] + t[1..];
      Prepend([t[0]], FormatFrom(t[1..], arg, consumed))
    else if |t| == 1 then
      Err(IncompleteFormat)
    else if t[1] == '%' then
      Prepend("%", FormatFrom(t[2..], arg, consumed))
    else if t[1] == 's' then
      (if consumed then Err(NotEnoughArguments)
       else Prepend(arg, FormatFrom(t[2..], arg, true)))
    else
      Err(UnsupportedConversion(t[1]))
  }

  /** A template with exactly one `%s` and no other `%` formats to the
      template with `arg` in place of the `%s`. */
  lemma FormatOneDirective(pre: string, post: string, arg: string)
    requires '%' !in pre && '%' !in post
    ensures Format(pre + "%s" + post, arg) == Ok(pre + arg + post)
  {
    FormatFromOneDirective(pre, post, arg);
  }

  /** The same, for the scan that has not yet consumed the argument; by
      induction on the text before the `%s`. */
  lemma {:induction false} FormatFromOneDirective(pre: string, post: string, arg: string)
    requires '%' !in pre && '%' !in post
    ensures FormatFrom(pre + "%s" + post, arg, false) == Ok(pre + arg + post)
  {
    var t := pre + "%s" + post;
    if pre == [] {
      assert t == "%s" + post;
      assert t[0] == '%' && t[1] == 's' && t[2..] == post;
      assert pre + arg + post == arg + post;
    } else {
      assert t[0] == pre[0];
      assert t[1..] == pre[1..] + "%s" + post;
      FormatFromOneDirective(pre[1..], post, arg);
      assert [pre[0]] + (pre[1..] + arg + post) == pre + arg + post;
    }
  }
}
