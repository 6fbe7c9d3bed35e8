/**
 * What the client prints. A line is kept structured (a status change, the
 * log header, a log row, or any other message on one of the two streams) so
 * that properties can speak about it; `Rendered` is the text `println` writes.
 */
module Console {
  import opened Wrappers

  datatype Stream = Stdout | Stderr

  datatype Line =
    | StatusChange(from: Option<string>, to: string)
    | LogHeader
    | LogRow(row: string)
    | Notice(stream: Stream, text: string)

  /** Java's string conversion of a reference that may be null. */
  function Shown(s: Option<string>): string {
    if s.Some? then s.value else "null"
  }

  /** The argument of the `println` call that prints the line. */
  function Rendered(l: Line): string {
    match l
    case StatusChange(from, to) => "\n[Status] " + Shown(from) + " -> " + to
    case LogHeader => "\n=== Job Logs ==="
    case LogRow(row) => row
    case Notice(_, text) => text
  }

  /** Status changes, the header and log rows go to standard output. */
  function StreamOf(l: Line): Stream {
    if l.Notice? then l.stream else Stdout
  }

  function Out(text: string): Line {
    Notice(Stdout, text)
  }

  function Err(text: string): Line {
    Notice(Stderr, text)
  }

  /** The warning and failure marks that open several messages. */
  const WarningMark := "\U{26A0}\U{FE0F}"
  const FailureMark := "\U{274C}"
  const SuccessMark := "\U{2705}"

  /** Labels shared by the status query, the submission report and the closing report. */
  const AppIdLabel := "Application ID: "
  const AppUrlLabel := "Application URL: "
  const BatchIdLabel := "Batch ID: "

  /** The lines printing some log rows, in order. */
  function Rows(rows: seq<string>): (r: seq<Line>)
    ensures |r| == |rows|
  {
    if |rows| == 0 then [] else Rows(rows[..|rows| - 1]) + [LogRow(rows[|rows| - 1])]
  }

  /** One line per log row, in order: the `i`-th line prints the `i`-th row. */
  lemma {:induction false} RowsAt(rows: seq<string>)
    ensures forall i :: 0 <= i < |rows| ==> Rows(rows)[i] == LogRow(rows[i])
  {
    if |rows| > 0 {
      RowsAt(rows[..|rows| - 1]);
    }
  }

  /** Printing two batches of rows is printing their concatenation. */
  lemma RowsAppend(a: seq<string>, b: seq<string>)
    ensures Rows(a + b) == Rows(a) + Rows(b)
  {
    RowsAt(a);
    RowsAt(b);
    RowsAt(a + b);
  }
}
