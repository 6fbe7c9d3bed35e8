/**
 * The monitoring session that follows a submission (the polling loop of
 * `SparkSubmit.main`): every tick fetches the batch status, prints a line
 * when the state changes, drains the new log rows page by page, and ends
 * the session on a terminal state, after five consecutive failed status
 * fetches, or on an interrupt.
 *
 * The server is scripted: a tick carries the outcome of the status fetch,
 * the outcomes of the log fetches in the order they are made, and the
 * outcome of the final log fetch made after a terminal state. Log fetches
 * beyond the script find no rows.
 */
module Monitor {
  import opened Wrappers
  import opened Text
  import opened Kyuubi
  import opened Console
  import opened History

  const LogFetchSize := 100
  const MaxConsecutiveErrors := 5

  datatype Tick =
    | Interrupted
    | Polled(status: Result<BatchStatus>, logPages: seq<Result<LogPage>>, finalLogs: Result<LogPage>)

  /** The loop's local variables, what it has printed, and its exit code once it has one. */
  datatype Session = Session(
    logOffset: int,
    lastState: Option<string>,
    consecutiveErrors: int,
    firstLogOutput: bool,
    output: seq<Line>,
    exit: Option<int>)

  /** The state before the first tick: the state reported by the submission, nothing printed yet. */
  function Start(initialState: Option<string>): Session {
    Session(0, initialState, 0, true, [], None)
  }

  /** The rows of a page; a missing row set has none. */
  function RowsOf(p: LogPage): seq<string> {
    if p.logRowSet.Some? then p.logRowSet.value else []
  }

  /** The reply to the `k`-th log fetch of a tick. */
  function PageAt(pages: seq<Result<LogPage>>, k: nat): Result<LogPage> {
    if k < |pages| then pages[k] else Ok(LogPage(None))
  }

  function LogWarning(message: string): Line {
    Err(LogWarningLabel + message)
  }

  const InterruptedMessage := "\n" + WarningMark + "  Interrupted while waiting for job completion."
  const TooManyErrorsMessage := "\n" + FailureMark + " Too many consecutive errors fetching status. Exiting."
  const RetryMessage := "Retrying... (will exit after 5 consecutive errors)"
  const Separator := "\n------------------------------------------"
  const FailedMessage := "\n" + FailureMark + " Job failed or was canceled."
  const SucceededMessage := "\n" + SuccessMark + " Job completed successfully!"
  const LogWarningLabel := "\n" + WarningMark + "  Warning: Could not fetch logs: "
  const StatusErrorLabel := "\n" + WarningMark + "  Error fetching status: "
  const LastErrorLabel := "Last error: "
  const FinishedMessage := "Job finished!"
  const FinalStateLabel := "Final State: "
  const DiagnosticHeading := "\nDiagnostic Information:"

  function StatusErrorLine(message: string): Line {
    Err(StatusErrorLabel + message)
  }

  // One tick, piece by piece.

  /** A successful status fetch: report a new, non-null state and remember it. */
  function ReportState(s: Session, b: BatchStatus): Session {
    if b.state.Some? && Some(b.state.value) != s.lastState then
      s.(output := s.output + [StatusChange(s.lastState, b.state.value)], lastState := b.state)
    else s
  }

  /** A page with rows: the header before the very first rows, then the rows; the cursor moves past them. */
  function PrintPage(s: Session, rows: seq<string>): Session {
    s.(output := s.output + (if s.firstLogOutput then [LogHeader] else []) + Rows(rows),
       firstLogOutput := false,
       logOffset := s.logOffset + |rows|)
  }

  /** A failed log fetch: a warning when the error counter is zero, and nothing else. */
  function LogFetchFailed(s: Session, message: string): Session {
    if s.consecutiveErrors == 0 then s.(output := s.output + [LogWarning(message)]) else s
  }

  /**
   * The log fetches of a tick from the `k`-th on: a failure or a page
   * without rows ends them, a page with rows is printed, and only a full
   * page leads to another fetch.
   */
  function DrainFrom(pages: seq<Result<LogPage>>, k: nat, s: Session): Session
    decreases |pages| - k
  {
    if k >= |pages| then s
    else
      match pages[k]
      case Failed(m) => LogFetchFailed(s, m)
      case Ok(p) =>
        var rows := RowsOf(p);
        if rows == [] then s
        else if |rows| == LogFetchSize then DrainFrom(pages, k + 1, PrintPage(s, rows))
        else PrintPage(s, rows)
  }

  function RowsIn(r: Result<LogPage>): seq<string> {
    if r.Ok? then RowsOf(r.value) else []
  }

  predicate FailedState(state: Option<string>) {
    Some("ERROR") == state || Some("CANCELED") == state
  }

  /** The opening lines of the closing report. */
  function Closing(b: BatchStatus): seq<Line> {
    [Out(Separator), Out(FinishedMessage), Out(FinalStateLabel + Shown(b.state))]
  }

  /** The application id and its History Server link, each only when there is one. */
  function Identification(b: BatchStatus, historyUrl: Option<string>): seq<Line> {
    var appUrl := GetApplicationUrl(historyUrl, b.appId);
    (if NonEmpty(b.appId) then [Out(AppIdLabel + b.appId.value)] else [])
    + (if NonEmpty(appUrl) then [Out(AppUrlLabel + appUrl.value)] else [])
  }

  /** The diagnostic, only when it has more than white space. */
  function Diagnostics(b: BatchStatus): seq<Line> {
    if NonEmpty(b.appDiagnostic) && Trim(b.appDiagnostic.value) != "" then
      [Out(DiagnosticHeading), Out(b.appDiagnostic.value)]
    else []
  }

  function Verdict(b: BatchStatus): Line {
    Out(if FailedState(b.state) then FailedMessage else SucceededMessage)
  }

  /** Everything printed for a terminal status: the rows of the final fetch, then the closing report. */
  function Report(b: BatchStatus, finalLogs: Result<LogPage>, historyUrl: Option<string>): seq<Line> {
    Rows(RowsIn(finalLogs)) + Closing(b) + Identification(b, historyUrl) + Diagnostics(b) + [Verdict(b)]
  }

  /** A terminal status: the report (the log cursor stays where it is) and the exit code. */
  function Finish(s: Session, b: BatchStatus, finalLogs: Result<LogPage>, historyUrl: Option<string>): Session {
    s.(output := s.output + Report(b, finalLogs, historyUrl),
       exit := Some(if FailedState(b.state) then 1 else 0))
  }

  /** A failed status fetch: one more consecutive error; a warning at the first, the end at the fifth. */
  function StatusFetchFailed(s: Session, message: string): Session {
    var errors := s.consecutiveErrors + 1;
    if errors >= MaxConsecutiveErrors then
      s.(consecutiveErrors := errors,
         output := s.output + [Err(TooManyErrorsMessage), Err(LastErrorLabel + message)],
         exit := Some(1))
    else if errors == 1 then
      s.(consecutiveErrors := errors, output := s.output + [StatusErrorLine(message), Err(RetryMessage)])
    else
      s.(consecutiveErrors := errors)
  }

  /** One iteration of the polling loop. */
  function Step(s: Session, t: Tick, historyUrl: Option<string>): Session {
    match t
    case Interrupted => s.(output := s.output + [Err(InterruptedMessage)], exit := Some(130))
    case Polled(status, pages, finalLogs) =>
      match status
      case Failed(m) => StatusFetchFailed(s, m)
      case Ok(b) =>
        var reported := ReportState(s.(consecutiveErrors := 0), b);
        var drained := DrainFrom(pages, 0, reported);
        if IsFinished(b) then Finish(drained, b, finalLogs, historyUrl) else drained
  }

  /** The loop over a script of ticks, until an exit code is set or the script ends. */
  function Loop(s: Session, ticks: seq<Tick>, historyUrl: Option<string>): Session
    decreases |ticks|
  {
    if s.exit.Some? || |ticks| == 0 then s else Loop(Step(s, ticks[0], historyUrl), ticks[1..], historyUrl)
  }

  // The log requests, in the order they are made.

  /** The query of one `getBatchLogs` call: the first row wanted and the page size. */
  datatype LogRequest = LogRequest(from: int, size: int)

  /** The fetch that the cursor of `s` calls for. */
  function FetchAt(s: Session): LogRequest {
    LogRequest(s.logOffset, LogFetchSize)
  }

  /** The requests of the log fetches of a tick from the `k`-th on: another follows only a full page. */
  function DrainRequests(pages: seq<Result<LogPage>>, k: nat, s: Session): seq<LogRequest>
    decreases |pages| - k
  {
    [FetchAt(s)]
    + if k < |pages| && pages[k].Ok? && |RowsOf(pages[k].value)| == LogFetchSize
      then DrainRequests(pages, k + 1, PrintPage(s, RowsOf(pages[k].value)))
      else []
  }

  /** The URL a log request is sent to, for the batch being followed. */
  function RequestUrl(base: string, batchId: string, r: LogRequest): string {
    LogsUrl(base, batchId, r.from, r.size)
  }

  /** Appending in two steps is appending the two parts at once. */
  lemma Regroup(a: seq<LogRequest>, b: seq<LogRequest>, c: seq<LogRequest>)
    ensures a + b + c == a + (b + c)
  {
  }

  /** The drain's requests through the reply to the `k`-th fetch, past the script's end included. */
  lemma DrainRequestsAt(pages: seq<Result<LogPage>>, k: nat, s: Session)
    ensures DrainRequests(pages, k, s)
            == [FetchAt(s)]
               + if PageAt(pages, k).Ok? && |RowsOf(PageAt(pages, k).value)| == LogFetchSize
                 then DrainRequests(pages, k + 1, PrintPage(s, RowsOf(PageAt(pages, k).value)))
                 else []
  {
  }

  /** The requests of one tick: none without a status, the drain, and the final fetch on a terminal status. */
  function StepRequests(s: Session, t: Tick): seq<LogRequest> {
    if t.Interrupted? || t.status.Failed? then []
    else
      var reported := ReportState(s.(consecutiveErrors := 0), t.status.value);
      DrainRequests(t.logPages, 0, reported)
      + if IsFinished(t.status.value) then [FetchAt(DrainFrom(t.logPages, 0, reported))] else []
  }

  /** The requests of the whole loop. */
  function LoopRequests(s: Session, ticks: seq<Tick>, historyUrl: Option<string>): seq<LogRequest>
    decreases |ticks|
  {
    if s.exit.Some? || |ticks| == 0 then []
    else StepRequests(s, ticks[0]) + LoopRequests(Step(s, ticks[0], historyUrl), ticks[1..], historyUrl)
  }

  /** The polling loop's state, updated in place as `main` does with its local variables. */
  class MonitorSession {
    const historyServerUrl: Option<string>
    var logOffset: int
    var lastState: Option<string>
    var consecutiveErrors: int
    var firstLogOutput: bool
    var output: seq<Line>
    var exit: Option<int>
    /** The log requests sent so far. */
    var requests: seq<LogRequest>

    function State(): Session
      reads this
    {
      Session(logOffset, lastState, consecutiveErrors, firstLogOutput, output, exit)
    }

    constructor (initialState: Option<string>, historyServerUrl: Option<string>)
      ensures State() == Start(initialState)
      ensures this.historyServerUrl == historyServerUrl
      ensures requests == []
    {
      this.historyServerUrl := historyServerUrl;
      logOffset := 0;
      lastState := initialState;
      consecutiveErrors := 0;
      firstLogOutput := true;
      output := [];
      exit := None;
      requests := [];
    }

    method Print(line: Line)
      modifies this
      ensures State() == old(State()).(output := old(output) + [line])
      ensures requests == old(requests)
    {
      output := output + [line];
    }

    /** The `for` loop that prints a page's rows. */
    method PrintRows(rows: seq<string>)
      modifies this
      ensures State() == old(State()).(output := old(output) + Rows(rows))
      ensures requests == old(requests)
    {
      for i := 0 to |rows|
        invariant State() == old(State()).(output := old(output) + Rows(rows[..i]))
        invariant requests == old(requests)
      {
        assert rows[..i + 1][..i] == rows[..i];
        output := output + [LogRow(rows[i])];
      }
      assert rows[..|rows|] == rows;
    }

    /** A page with rows: the header if nothing has been printed yet, the rows, and the cursor moves. */
    method ShowPage(rows: seq<string>)
      modifies this
      ensures State() == PrintPage(old(State()), rows)
      ensures requests == old(requests)
    {
      if firstLogOutput {
        Print(LogHeader);
        firstLogOutput := false;
      }
      PrintRows(rows);
      logOffset := logOffset + |rows|;
    }

    /** A further page of the same fetch: its rows, with no header check, and the cursor moves. */
    method ShowMore(rows: seq<string>)
      requires !firstLogOutput
      modifies this
      ensures State() == PrintPage(old(State()), rows)
      ensures requests == old(requests)
    {
      PrintRows(rows);
      logOffset := logOffset + |rows|;
    }

    /** The handler of a failed log fetch. */
    method WarnLogFailure(message: string)
      modifies this
      ensures State() == LogFetchFailed(old(State()), message)
      ensures requests == old(requests)
    {
      if consecutiveErrors == 0 {
        Print(LogWarning(message));
      }
    }

    /** The `k`-th log fetch of a tick, from the cursor, one page long. */
    method Fetch(pages: seq<Result<LogPage>>, k: nat) returns (page: Result<LogPage>)
      modifies this
      ensures page == PageAt(pages, k)
      ensures State() == old(State())
      ensures requests == old(requests) + [FetchAt(State())]
    {
      requests := requests + [LogRequest(logOffset, LogFetchSize)];
      page := PageAt(pages, k);
    }

    /** The log part of a tick: the first fetch, then more while the last page was full. */
    method FetchLogs(pages: seq<Result<LogPage>>)
      modifies this
      ensures State() == DrainFrom(pages, 0, old(State()))
      ensures requests == old(requests) + DrainRequests(pages, 0, old(State()))
    {
      var k := 0;
      ghost var s := State();
      DrainRequestsAt(pages, k, s);
      var page := Fetch(pages, k);
      if page.Failed? {
        WarnLogFailure(page.message);
        return;
      }
      var rows := RowsOf(page.value);
      if rows != [] {
        ShowPage(rows);
        Regroup(old(requests), [FetchAt(s)], if |rows| == LogFetchSize then DrainRequests(pages, k + 1, State()) else []);
        while |rows| == LogFetchSize
          invariant 0 <= k < |pages|
          invariant !firstLogOutput
          invariant DrainFrom(pages, 0, old(State()))
                    == if |rows| == LogFetchSize then DrainFrom(pages, k + 1, State()) else State()
          invariant old(requests) + DrainRequests(pages, 0, old(State()))
                    == requests + if |rows| == LogFetchSize then DrainRequests(pages, k + 1, State()) else []
          decreases |pages| - k
        {
          k := k + 1;
          ghost var before := requests;
          s := State();
          DrainRequestsAt(pages, k, s);
          page := Fetch(pages, k);
          if page.Failed? {
            WarnLogFailure(page.message);
            return;
          }
          rows := RowsOf(page.value);
          if rows != [] {
            ShowMore(rows);
            Regroup(before, [FetchAt(s)], if |rows| == LogFetchSize then DrainRequests(pages, k + 1, State()) else []);
          } else {
            break;
          }
        }
      }
    }

    /** The end of the session on a terminal status. */
    method FinishJob(b: BatchStatus, finalLogs: Result<LogPage>)
      modifies this
      ensures State() == Finish(old(State()), b, finalLogs, historyServerUrl)
      ensures requests == old(requests) + [FetchAt(old(State()))]
    {
      requests := requests + [LogRequest(logOffset, LogFetchSize)];
      output := output + Report(b, finalLogs, historyServerUrl);
      exit := Some(if FailedState(b.state) then 1 else 0);
    }

    /** One iteration of the loop. */
    method Poll(t: Tick)
      modifies this
      ensures State() == Step(old(State()), t, historyServerUrl)
      ensures requests == old(requests) + StepRequests(old(State()), t)
    {
      match t
      case Interrupted =>
        Print(Err(InterruptedMessage));
        exit := Some(130);
      case Polled(status, pages, finalLogs) =>
        match status
        case Failed(m) =>
          consecutiveErrors := consecutiveErrors + 1;
          if consecutiveErrors >= MaxConsecutiveErrors {
            Print(Err(TooManyErrorsMessage));
            Print(Err(LastErrorLabel + m));
            exit := Some(1);
          } else if consecutiveErrors == 1 {
            Print(StatusErrorLine(m));
            Print(Err(RetryMessage));
          }
        case Ok(b) =>
          consecutiveErrors := 0;
          if b.state.Some? {
            var currentState := b.state.value;
            if Some(currentState) != lastState {
              Print(StatusChange(lastState, currentState));
              lastState := Some(currentState);
            }
          }
          ghost var before, reported := requests, State();
          FetchLogs(pages);
          if IsFinished(b) {
            Regroup(before, DrainRequests(pages, 0, reported), [FetchAt(State())]);
            FinishJob(b, finalLogs);
          }
    }

    /** The loop itself, over a script of ticks. */
    method Run(ticks: seq<Tick>)
      modifies this
      ensures State() == Loop(old(State()), ticks, historyServerUrl)
      ensures requests == old(requests) + LoopRequests(old(State()), ticks, historyServerUrl)
    {
      var i := 0;
      while i < |ticks| && exit.None?
        invariant 0 <= i <= |ticks|
        invariant Loop(old(State()), ticks, historyServerUrl) == Loop(State(), ticks[i..], historyServerUrl)
        invariant old(requests) + LoopRequests(old(State()), ticks, historyServerUrl)
                  == requests + LoopRequests(State(), ticks[i..], historyServerUrl)
      {
        assert ticks[i..][1..] == ticks[i + 1..];
        ghost var before, s := requests, State();
        Poll(ticks[i]);
        Regroup(before, StepRequests(s, ticks[i]), LoopRequests(State(), ticks[i + 1..], historyServerUrl));
        i := i + 1;
      }
    }
  }
}
