/** The progress record both servers keep per download, and the events the
    fetching engine reports to its progress hook. */
module Progress {
  import opened Wrappers
  import Text

  /** The record's `status` text: `""`, `'Initializing'`, `'Downloading'`,
      `'Downloaded'` or `'Error'`. */
  datatype Status = Unset | Initializing | Downloading | Downloaded | Error

  /** `{"percentage": …, "status": …, "error": …, "title": …}` */
  datatype Record = Record(percentage: real, status: Status, error: string, title: string)

  /** `{"percentage": 0, "status": "", "error": "", "title": ""}` */
  const Blank := Record(0.0, Unset, "", "")

  /** The dictionary handed to a progress hook, classified by its `status`
      entry: `'downloading'` (with `_percent_str` when the engine supplies
      it), `'finished'`, `'error'`, or any phase name other than these
      three (`OtherPhase`, whose name no hook reads). */
  datatype Event =
    | Progressing(percentStr: Option<string>)
    | Finished
    | Failed
    | OtherPhase

  /** Python's `float(text)`, which the model does not define: `None` stands
      for the `ValueError` it raises on text that is not a number. */
  type Parser = string -> Option<real>

  /** The text handed to `float`: `_percent_str` (by default `'0.0%'`) with
      every `%` removed. */
  function PercentText(percentStr: Option<string>): (t: string)
    ensures '%' !in t
    ensures percentStr.None? ==> t == "0.0"
    ensures percentStr.Some? ==> t == Text.RemoveChar(percentStr.value, '%')
  {
    Text.RemoveChar(percentStr.GetOr("0.0%"), '%')
  }

  predicate InRange(p: real) {
    0.0 <= p <= 100.0
  }

  /** A parser that only ever yields percentages between 0 and 100. */
  ghost predicate BoundedParser(parse: Parser) {
    forall t :: parse(t).Some? ==> InRange(parse(t).value)
  }
}
