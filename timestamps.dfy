/**
 * `format_ts`, identical in app.py and main.py. The clock reading and the
 * `strftime("%Y-%m-%d %H:%M:%S")` rendering are outside the model: a reading
 * is an abstract instant, and the renderer is a parameter that either gives
 * text or raises with a message.
 */
module Timestamps {

  /** A value stored as a timestamp: a `datetime`, or anything else. */
  datatype Stamp = DateTime(instant: int) | NotDateTime

  /** What `strftime` does with a `datetime`: it renders it, or it raises. */
  datatype Rendering = Rendered(text: string) | Raised(message: string)

  const NotAvailable: string := "[N/A]"
  const InvalidPrefix: string := "[Invalid timestamp: "

  /** `format_ts(ts)`, with `strftime` standing for the `datetime` method. */
  function FormatTs(ts: Stamp, strftime: int -> Rendering): (r: string)
    ensures ts.NotDateTime? ==> r == NotAvailable
    ensures ts.DateTime? && strftime(ts.instant).Rendered? ==> r == strftime(ts.instant).text
    ensures ts.DateTime? && strftime(ts.instant).Raised? ==>
      r == InvalidPrefix + strftime(ts.instant).message + "]"
  {
    match ts
    case NotDateTime => NotAvailable
    case DateTime(instant) =>
      match strftime(instant)
      case Rendered(text) => text
      case Raised(message) => InvalidPrefix + message + "]"
  }
}
