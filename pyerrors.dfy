/** The Python exceptions the bot raises or receives, as a tagged datatype, with the text
    `str(error)` gives for each. */
module PyErrors {
  import opened Wrappers

  datatype Error =
    | BareException               // `raise Exception`
    | TypeError(msg: string)      // `raise TypeError`, or an unhashable dict key
    | KeyError(arg: Option<string>)
    | ValueError(msg: string)
    | AttributeError(msg: string) // `.get` on something that is not a dict

  /** `str(error)`: the message, except that a `KeyError` shows its argument quoted
      (`repr` of a string without quotes in it) and a bare exception shows nothing. */
  function ErrText(e: Error): string {
    match e
    case BareException => ""
    case TypeError(m) => m
    case KeyError(a) => if a.Some? then "'" + a.value + "'" else ""
    case ValueError(m) => m
    case AttributeError(m) => m
  }
}
