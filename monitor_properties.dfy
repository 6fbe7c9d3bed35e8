/**
 * What the polling loop promises: the log cursor moves by exactly the rows
 * printed, the header comes once, a status line appears exactly when the
 * state changes, errors are counted per streak and end the session at the
 * fifth, and the exit code reflects how the session ended.
 */
module MonitorProperties {
  import opened Wrappers
  import opened Kyuubi
  import opened Console
  import opened Monitor
  import opened History

  // Kinds of printed lines.

  /** Lines that are neither a status change nor the log header. */
  ghost predicate Plain(lines: seq<Line>) {
    forall i :: 0 <= i < |lines| ==> lines[i].LogRow? || lines[i].Notice?
  }

  ghost predicate NoStatusLines(lines: seq<Line>) {
    forall i :: 0 <= i < |lines| ==> !lines[i].StatusChange?
  }

  ghost predicate HeaderFree(lines: seq<Line>) {
    forall i :: 0 <= i < |lines| ==> lines[i] != LogHeader
  }

  ghost predicate AtMostOneHeader(lines: seq<Line>) {
    forall i, j :: 0 <= i < j < |lines| && lines[i] == LogHeader ==> lines[j] != LogHeader
  }

  /** `before` is where `after` starts. */
  ghost predicate Prefix(before: seq<Line>, after: seq<Line>) {
    |before| <= |after| && after[..|before|] == before
  }

  lemma RowsArePlain(rows: seq<string>)
    ensures Plain(Rows(rows)) && HeaderFree(Rows(rows)) && NoStatusLines(Rows(rows))
  {
    RowsAt(rows);
  }

  lemma SliceAfter(a: seq<Line>, b: seq<Line>, n: nat)
    requires n <= |b|
    ensures (a + b)[|a|..|a| + n] == b[..n]
  {
  }

  lemma PlainQuiet(lines: seq<Line>)
    requires Plain(lines)
    ensures HeaderFree(lines) && NoStatusLines(lines)
  {
  }

  lemma PlainConcat(a: seq<Line>, b: seq<Line>)
    requires Plain(a) && Plain(b)
    ensures Plain(a + b)
  {
    forall i | 0 <= i < |a + b|
      ensures (a + b)[i].LogRow? || (a + b)[i].Notice?
    {
      if i >= |a| {
        assert (a + b)[i] == b[i - |a|];
      }
    }
  }

  lemma HeaderFreeAppend(out: seq<Line>, lines: seq<Line>)
    requires HeaderFree(lines)
    ensures HeaderFree(out + lines) <==> HeaderFree(out)
    ensures AtMostOneHeader(out) ==> AtMostOneHeader(out + lines)
  {
    var all := out + lines;
    if HeaderFree(out) {
      forall i | 0 <= i < |all|
        ensures all[i] != LogHeader
      {
        if i >= |out| {
          assert all[i] == lines[i - |out|];
        }
      }
    }
    if HeaderFree(all) {
      forall i | 0 <= i < |out|
        ensures out[i] != LogHeader
      {
        assert all[i] == out[i];
      }
    }
  }

  /** The header printed once, before lines that carry none. */
  lemma HeaderOnce(out: seq<Line>, lines: seq<Line>)
    requires HeaderFree(out) && HeaderFree(lines)
    ensures AtMostOneHeader(out + [LogHeader] + lines)
    ensures !HeaderFree(out + [LogHeader] + lines)
  {
    var all := out + [LogHeader] + lines;
    assert all[|out|] == LogHeader;
    forall i | 0 <= i < |all| && i != |out|
      ensures all[i] != LogHeader
    {
      if i < |out| {
        assert all[i] == out[i];
      } else {
        assert all[i] == lines[i - |out| - 1];
      }
    }
  }

  lemma ReportIsPlain(b: BatchStatus, finalLogs: Result<LogPage>, historyUrl: Option<string>)
    ensures Plain(Report(b, finalLogs, historyUrl))
    ensures HeaderFree(Report(b, finalLogs, historyUrl)) && NoStatusLines(Report(b, finalLogs, historyUrl))
  {
    var rows := Rows(RowsIn(finalLogs));
    var closing := Closing(b);
    var identification := Identification(b, historyUrl);
    var diagnostics := Diagnostics(b);
    RowsArePlain(RowsIn(finalLogs));
    PiecesArePlain(b, historyUrl);
    PlainConcat(rows, closing);
    PlainConcat(rows + closing, identification);
    PlainConcat(rows + closing + identification, diagnostics);
    PlainConcat(rows + closing + identification + diagnostics, [Verdict(b)]);
    PlainQuiet(rows + closing + identification + diagnostics + [Verdict(b)]);
  }

  lemma PiecesArePlain(b: BatchStatus, historyUrl: Option<string>)
    ensures Plain(Closing(b)) && Plain(Identification(b, historyUrl)) && Plain(Diagnostics(b)) && Plain([Verdict(b)])
  {
    IdentificationIsPlain(b, historyUrl);
    assert Diagnostics(b) == [] || Diagnostics(b) == [Out(DiagnosticHeading), Out(b.appDiagnostic.value)];
  }

  lemma IdentificationIsPlain(b: BatchStatus, historyUrl: Option<string>)
    ensures Plain(Identification(b, historyUrl))
  {
    var appUrl := GetApplicationUrl(historyUrl, b.appId);
    var first: seq<Line> := if NonEmpty(b.appId) then [Out(AppIdLabel + b.appId.value)] else [];
    var second: seq<Line> := if NonEmpty(appUrl) then [Out(AppUrlLabel + appUrl.value)] else [];
    assert Identification(b, historyUrl) == first + second;
    PlainConcat(first, second);
  }

  /** The report opens with the rows of the final fetch. */
  lemma ReportStartsWithRows(b: BatchStatus, finalLogs: Result<LogPage>, historyUrl: Option<string>)
    ensures |Rows(RowsIn(finalLogs))| <= |Report(b, finalLogs, historyUrl)|
    ensures Report(b, finalLogs, historyUrl)[..|RowsIn(finalLogs)|] == Rows(RowsIn(finalLogs))
  {
    var rows := Rows(RowsIn(finalLogs));
    var n := |rows|;
    var x1 := rows + Closing(b);
    var x2 := x1 + Identification(b, historyUrl);
    var x3 := x2 + Diagnostics(b);
    var x4 := x3 + [Verdict(b)];
    assert x1[..n] == rows;
    assert x2[..n] == x1[..n];
    assert x3[..n] == x2[..n];
    assert x4[..n] == x3[..n];
  }

  // The log drain.

  /** The rows on pages `k` up to (not including) `j`, in order. */
  function PagesRows(pages: seq<Result<LogPage>>, k: nat, j: nat): seq<string>
    requires k <= j <= |pages|
    decreases j - k
  {
    if k == j then [] else RowsIn(pages[k]) + PagesRows(pages, k + 1, j)
  }

  /** Pages `k` up to `j` were all fetched and full. */
  ghost predicate FullPages(pages: seq<Result<LogPage>>, k: nat, j: nat) {
    j <= |pages| && forall i :: k <= i < j ==> pages[i].Ok? && |RowsOf(pages[i].value)| == LogFetchSize
  }

  /** The `j`-th fetch ends the drain: it failed, or its page was not full. */
  ghost predicate Stops(pages: seq<Result<LogPage>>, j: nat) {
    PageAt(pages, j).Failed? || |RowsOf(PageAt(pages, j).value)| != LogFetchSize
  }

  /** Printing some rows, if there are any. */
  function Printed(s: Session, rows: seq<string>): Session {
    if rows == [] then s else PrintPage(s, rows)
  }

  /** Printing two runs of rows one after the other is printing them in one go: the header stays single. */
  lemma PrintPageTwice(s: Session, a: seq<string>, b: seq<string>)
    requires a != []
    ensures Printed(PrintPage(s, a), b) == PrintPage(s, a + b)
  {
    if b != [] {
      RowsAppend(a, b);
      var h := if s.firstLogOutput then [LogHeader] else [];
      assert s.output + h + Rows(a) + Rows(b) == s.output + h + (Rows(a) + Rows(b));
    } else {
      assert a + b == a;
    }
  }

  /**
   * The drain in closed form: when pages `k` up to `j` are full and the
   * `j`-th fetch ends the drain, exactly the rows of those pages (and of
   * the `j`-th page, unless its fetch failed) are printed, as one run
   * with at most one header, and the cursor moves by their number.
   */
  lemma {:induction false} DrainClosedForm(pages: seq<Result<LogPage>>, k: nat, j: nat, s: Session)
    requires k <= j <= |pages| && FullPages(pages, k, j) && Stops(pages, j)
    ensures DrainFrom(pages, k, s)
            == if PageAt(pages, j).Failed? then LogFetchFailed(Printed(s, PagesRows(pages, k, j)), PageAt(pages, j).message)
               else Printed(s, PagesRows(pages, k, j) + RowsIn(PageAt(pages, j)))
    decreases j - k
  {
    if k == j {
      assert PagesRows(pages, k, j) == [];
      if !PageAt(pages, j).Failed? {
        assert [] + RowsIn(PageAt(pages, j)) == RowsIn(PageAt(pages, j));
      }
    } else {
      var rows := RowsOf(pages[k].value);
      var rest := PagesRows(pages, k + 1, j);
      assert DrainFrom(pages, k, s) == DrainFrom(pages, k + 1, PrintPage(s, rows));
      assert PagesRows(pages, k, j) == rows + rest;
      DrainClosedForm(pages, k + 1, j, PrintPage(s, rows));
      if PageAt(pages, j).Failed? {
        PrintPageTwice(s, rows, rest);
      } else {
        PrintFullThenLast(s, rows, rest, RowsIn(PageAt(pages, j)));
      }
    }
  }

  lemma PrintFullThenLast(s: Session, rows: seq<string>, rest: seq<string>, last: seq<string>)
    requires |rows| == LogFetchSize
    ensures Printed(PrintPage(s, rows), rest + last) == Printed(s, rows + rest + last)
  {
    PrintPageTwice(s, rows, rest + last);
    assert rows + (rest + last) == rows + rest + last;
  }

  /** A full page followed by a page of thirty rows moves the cursor by one hundred and thirty. */
  lemma DrainExample(full: seq<string>, short: seq<string>, s: Session)
    requires |full| == 100 && |short| == 30
    ensures var r := DrainFrom([Ok(LogPage(Some(full))), Ok(LogPage(Some(short)))], 0, s);
      && r.logOffset == s.logOffset + 130
      && r.output == s.output + (if s.firstLogOutput then [LogHeader] else []) + Rows(full + short)
  {
    var pages := [Ok(LogPage(Some(full))), Ok(LogPage(Some(short)))];
    assert RowsOf(pages[0].value) == full && RowsIn(PageAt(pages, 1)) == short;
    assert FullPages(pages, 0, 1) && Stops(pages, 1);
    assert PagesRows(pages, 0, 1) == full by {
      assert PagesRows(pages, 1, 1) == [];
      assert full + [] == full;
    }
    DrainClosedForm(pages, 0, 1, s);
    assert |full + short| == 130;
  }

  /** `after` is `before` followed by lines none of which is a status change. */
  ghost predicate AppendsNoStatus(before: seq<Line>, after: seq<Line>) {
    Prefix(before, after) && NoStatusLines(after[|before|..])
  }

  lemma AppendsConcat(before: seq<Line>, added: seq<Line>)
    requires NoStatusLines(added)
    ensures AppendsNoStatus(before, before + added)
  {
    assert (before + added)[|before|..] == added;
  }

  lemma AppendsTrans(a: seq<Line>, b: seq<Line>, c: seq<Line>)
    requires AppendsNoStatus(a, b) && AppendsNoStatus(b, c)
    ensures AppendsNoStatus(a, c)
  {
    assert c[..|b|] == b;
    assert c[..|a|] == b[..|a|];
    forall i | 0 <= i < |c| - |a|
      ensures !c[|a|..][i].StatusChange?
    {
      if |a| + i < |b| {
        assert c[|a|..][i] == b[|a|..][i];
      } else {
        assert c[|a|..][i] == c[|b|..][|a| + i - |b|];
      }
    }
  }

  /** The drain leaves the status, the error counter and the exit alone, and moves the cursor forward only. */
  lemma {:induction false} DrainKeeps(pages: seq<Result<LogPage>>, k: nat, s: Session)
    ensures var r := DrainFrom(pages, k, s);
      && r.lastState == s.lastState && r.consecutiveErrors == s.consecutiveErrors && r.exit == s.exit
      && s.logOffset <= r.logOffset
    decreases |pages| - k
  {
    if k < |pages| && pages[k].Ok? {
      var rows := RowsOf(pages[k].value);
      if rows != [] && |rows| == LogFetchSize {
        DrainKeeps(pages, k + 1, PrintPage(s, rows));
      }
    }
  }

  /** The drain only appends lines, and none of them is a status change. */
  lemma {:induction false} DrainAppends(pages: seq<Result<LogPage>>, k: nat, s: Session)
    ensures AppendsNoStatus(s.output, DrainFrom(pages, k, s).output)
    decreases |pages| - k
  {
    if k < |pages| && pages[k].Ok? {
      var rows := RowsOf(pages[k].value);
      if rows != [] {
        var p := PrintPage(s, rows);
        RowsArePlain(rows);
        AppendsConcat(s.output, (if s.firstLogOutput then [LogHeader] else []) + Rows(rows));
        assert p.output == s.output + ((if s.firstLogOutput then [LogHeader] else []) + Rows(rows));
        if |rows| == LogFetchSize {
          DrainAppends(pages, k + 1, p);
          AppendsTrans(s.output, p.output, DrainFrom(pages, k + 1, p).output);
        }
      } else {
        AppendsConcat(s.output, []);
        assert s.output + [] == s.output;
      }
    } else if k < |pages| {
      var m := pages[k].message;
      AppendsConcat(s.output, if s.consecutiveErrors == 0 then [LogWarning(m)] else []);
      assert LogFetchFailed(s, m).output == s.output + (if s.consecutiveErrors == 0 then [LogWarning(m)] else []);
    } else {
      AppendsConcat(s.output, []);
      assert s.output + [] == s.output;
    }
  }

  // One tick.

  /**
   * A successful status fetch clears the error counter and remembers the
   * reported state; a status line is printed exactly when a reported state
   * differs from the last one, and then it is the first line of the tick.
   */
  lemma SuccessfulPoll(s: Session, b: BatchStatus, pages: seq<Result<LogPage>>, finalLogs: Result<LogPage>, historyUrl: Option<string>)
    ensures var r := Step(s, Polled(Ok(b), pages, finalLogs), historyUrl);
      && r.consecutiveErrors == 0
      && r.lastState == (if b.state.Some? then b.state else s.lastState)
      && Prefix(s.output, r.output)
      && (NoStatusLines(r.output[|s.output|..]) <==> !(b.state.Some? && b.state != s.lastState))
      && (b.state.Some? && b.state != s.lastState ==>
            r.output[|s.output|] == StatusChange(s.lastState, b.state.value)
            && NoStatusLines(r.output[|s.output| + 1..]))
  {
    var reported := ReportState(s.(consecutiveErrors := 0), b);
    var r := Step(s, Polled(Ok(b), pages, finalLogs), historyUrl);
    AfterReport(s, b, pages, finalLogs, historyUrl);
    if b.state.Some? && b.state != s.lastState {
      var line := StatusChange(s.lastState, b.state.value);
      assert reported.output == s.output + [line];
      assert r.output[..|reported.output|] == reported.output;
      assert r.output[..|s.output|] == reported.output[..|s.output|];
      assert r.output[|s.output|] == reported.output[|s.output|];
      assert r.output[|s.output|..][0] == r.output[|s.output|];
    } else {
      assert reported.output == s.output;
    }
  }

  /** After the status line, a successful tick adds no status line and keeps the status and counter. */
  lemma AfterReport(s: Session, b: BatchStatus, pages: seq<Result<LogPage>>, finalLogs: Result<LogPage>, historyUrl: Option<string>)
    ensures var reported := ReportState(s.(consecutiveErrors := 0), b);
      var r := Step(s, Polled(Ok(b), pages, finalLogs), historyUrl);
      && r.consecutiveErrors == 0
      && r.lastState == reported.lastState
      && AppendsNoStatus(reported.output, r.output)
  {
    var reported := ReportState(s.(consecutiveErrors := 0), b);
    var drained := DrainFrom(pages, 0, reported);
    var r := Step(s, Polled(Ok(b), pages, finalLogs), historyUrl);
    DrainKeeps(pages, 0, reported);
    DrainAppends(pages, 0, reported);
    if IsFinished(b) {
      ReportIsPlain(b, finalLogs, historyUrl);
      AppendsConcat(drained.output, Report(b, finalLogs, historyUrl));
      AppendsTrans(reported.output, drained.output, r.output);
    }
  }

  /** The exit code of a tick: 130 on an interrupt, 0 when the job finished, 1 when it failed or the fifth error came. */
  lemma ExitCodes(s: Session, t: Tick, historyUrl: Option<string>)
    ensures var r := Step(s, t, historyUrl);
      && (r.exit == Some(130) <==> t.Interrupted?)
      && (r.exit == Some(0) <==> t.Polled? && t.status.Ok? && t.status.value.state == Some("FINISHED"))
      && (r.exit == Some(1) <==>
            t.Polled? && ((t.status.Ok? && FailedState(t.status.value.state))
                          || (t.status.Failed? && s.consecutiveErrors + 1 >= MaxConsecutiveErrors)))
      && (r.exit == s.exit <==>
            t.Polled? && (t.status.Ok? ==> !IsFinished(t.status.value))
            && (t.status.Failed? ==> s.consecutiveErrors + 1 < MaxConsecutiveErrors))
    requires s.exit.None?
  {
    if t.Polled? && t.status.Ok? {
      var b := t.status.value;
      DrainKeeps(t.logPages, 0, ReportState(s.(consecutiveErrors := 0), b));
    }
  }

  /** The final log fetch never moves the cursor: the tick ends with it where the drain left it. */
  lemma FinalFetchKeepsCursor(s: Session, b: BatchStatus, pages: seq<Result<LogPage>>,
                              finalLogs: Result<LogPage>, finalLogs': Result<LogPage>, historyUrl: Option<string>)
    ensures Step(s, Polled(Ok(b), pages, finalLogs), historyUrl).logOffset
            == Step(s, Polled(Ok(b), pages, finalLogs'), historyUrl).logOffset
            == DrainFrom(pages, 0, ReportState(s.(consecutiveErrors := 0), b)).logOffset
  {
  }

  /** A terminal tick with no new state and no log pages prints the report and nothing else. */
  lemma FinishedWithoutDrain(s: Session, b: BatchStatus, finalLogs: Result<LogPage>, historyUrl: Option<string>)
    requires IsFinished(b) && b.state == s.lastState
    ensures Step(s, Polled(Ok(b), [], finalLogs), historyUrl).output == s.output + Report(b, finalLogs, historyUrl)
  {
    var reported := ReportState(s.(consecutiveErrors := 0), b);
    assert reported.output == s.output;
    assert DrainFrom([], 0, reported) == reported;
  }

  /**
   * Rows that first appear in the final fetch are printed without the
   * "=== Job Logs ===" header: the header flag is only consulted by the
   * drain.
   */
  lemma FinalRowsWithoutHeader(s: Session, b: BatchStatus, rows: seq<string>, historyUrl: Option<string>)
    requires HeaderFree(s.output) && IsFinished(b) && b.state == s.lastState && rows != []
    ensures var r := Step(s, Polled(Ok(b), [], Ok(LogPage(Some(rows)))), historyUrl);
      && |s.output| + |rows| <= |r.output|
      && r.output[|s.output|..|s.output| + |rows|] == Rows(rows)
      && HeaderFree(r.output)
  {
    var finalLogs := Ok(LogPage(Some(rows)));
    assert RowsIn(finalLogs) == rows;
    FinishedWithoutDrain(s, b, finalLogs, historyUrl);
    ReportStartsWithRows(b, finalLogs, historyUrl);
    ReportIsPlain(b, finalLogs, historyUrl);
    AppendReport(s.output, Report(b, finalLogs, historyUrl), Rows(rows));
  }

  /** A header-free report that opens with `lines`, printed after a header-free output. */
  lemma AppendReport(out: seq<Line>, report: seq<Line>, lines: seq<Line>)
    requires HeaderFree(out) && HeaderFree(report) && |lines| <= |report| && report[..|lines|] == lines
    ensures |out| + |lines| <= |out + report|
    ensures (out + report)[|out|..|out| + |lines|] == lines
    ensures HeaderFree(out + report)
  {
    SliceAfter(out, report, |lines|);
    HeaderFreeAppend(out, report);
  }

  /**
   * A failed log fetch prints its warning on every tick whose status fetch
   * succeeded, whatever errors came before: the counter it consults has
   * just been cleared.
   */
  lemma LogWarningEveryTime(s: Session, b: BatchStatus, m: string, rest: seq<Result<LogPage>>,
                            finalLogs: Result<LogPage>, historyUrl: Option<string>)
    requires !IsFinished(b)
    ensures var r := Step(s, Polled(Ok(b), [Failed(m)] + rest, finalLogs), historyUrl);
      |r.output| > |s.output| && r.output[|r.output| - 1] == LogWarning(m)
  {
  }

  /** A failed log fetch changes nothing but the output. */
  lemma LogFailureHarmless(s: Session, m: string)
    ensures var r := LogFetchFailed(s, m);
      r == s.(output := r.output) && Prefix(s.output, r.output)
  {
  }

  /** In the middle of a streak a failed status fetch prints nothing; the first one warns. */
  lemma StatusWarningOncePerStreak(s: Session, m: string, pages: seq<Result<LogPage>>,
                                   finalLogs: Result<LogPage>, historyUrl: Option<string>)
    ensures var r := Step(s, Polled(Failed(m), pages, finalLogs), historyUrl);
      && (0 < s.consecutiveErrors && s.consecutiveErrors + 1 < MaxConsecutiveErrors ==> r.output == s.output)
      && (s.consecutiveErrors == 0 ==> r.output == s.output + [StatusErrorLine(m), Err(RetryMessage)])
      && r.consecutiveErrors == s.consecutiveErrors + 1
  {
  }

  // The loop.

  /** The condition the loop keeps on every tick. */
  ghost predicate Consistent(s: Session) {
    && 0 <= s.logOffset
    && 0 <= s.consecutiveErrors
    && (s.exit.None? ==> s.consecutiveErrors < MaxConsecutiveErrors)
    && (s.firstLogOutput <==> HeaderFree(s.output))
    && AtMostOneHeader(s.output)
  }

  lemma StartConsistent(initialState: Option<string>)
    ensures Consistent(Start(initialState))
  {
  }

  lemma PrintPageConsistent(s: Session, rows: seq<string>)
    requires Consistent(s) && rows != []
    ensures Consistent(PrintPage(s, rows))
  {
    RowsArePlain(rows);
    if s.firstLogOutput {
      HeaderOnce(s.output, Rows(rows));
    } else {
      assert PrintPage(s, rows).output == s.output + Rows(rows);
      HeaderFreeAppend(s.output, Rows(rows));
    }
  }

  lemma {:induction false} DrainConsistent(pages: seq<Result<LogPage>>, k: nat, s: Session)
    requires Consistent(s)
    ensures Consistent(DrainFrom(pages, k, s))
    decreases |pages| - k
  {
    if k < |pages| {
      match pages[k]
      case Failed(m) =>
        HeaderFreeAppend(s.output, [LogWarning(m)]);
      case Ok(p) =>
        var rows := RowsOf(p);
        if rows != [] {
          PrintPageConsistent(s, rows);
          if |rows| == LogFetchSize {
            DrainConsistent(pages, k + 1, PrintPage(s, rows));
          }
        }
    }
  }

  lemma StepConsistent(s: Session, t: Tick, historyUrl: Option<string>)
    requires Consistent(s) && s.exit.None?
    ensures Consistent(Step(s, t, historyUrl))
  {
    match t
    case Interrupted =>
      HeaderFreeAppend(s.output, [Err(InterruptedMessage)]);
    case Polled(status, pages, finalLogs) =>
      match status
      case Failed(m) =>
        HeaderFreeAppend(s.output, [Err(TooManyErrorsMessage), Err(LastErrorLabel + m)]);
        HeaderFreeAppend(s.output, [StatusErrorLine(m), Err(RetryMessage)]);
      case Ok(b) =>
        var cleared := s.(consecutiveErrors := 0);
        var reported := ReportState(cleared, b);
        if b.state.Some? {
          HeaderFreeAppend(s.output, [StatusChange(s.lastState, b.state.value)]);
        }
        DrainConsistent(pages, 0, reported);
        var drained := DrainFrom(pages, 0, reported);
        if IsFinished(b) {
          ReportIsPlain(b, finalLogs, historyUrl);
          HeaderFreeAppend(drained.output, Report(b, finalLogs, historyUrl));
        }
  }

  /** The loop keeps the condition from its start to its end, and only ever appends output. */
  lemma {:induction false} LoopConsistent(s: Session, ticks: seq<Tick>, historyUrl: Option<string>)
    requires Consistent(s)
    ensures Consistent(Loop(s, ticks, historyUrl))
    decreases |ticks|
  {
    if s.exit.None? && |ticks| > 0 {
      StepConsistent(s, ticks[0], historyUrl);
      LoopConsistent(Step(s, ticks[0], historyUrl), ticks[1..], historyUrl);
    }
  }

  /** Running two scripts one after the other is running their concatenation; after an exit nothing happens. */
  lemma {:induction false} LoopConcat(s: Session, a: seq<Tick>, b: seq<Tick>, historyUrl: Option<string>)
    ensures Loop(s, a + b, historyUrl) == Loop(Loop(s, a, historyUrl), b, historyUrl)
    decreases |a|
  {
    if s.exit.None? && |a| > 0 {
      assert (a + b)[0] == a[0];
      assert (a + b)[1..] == a[1..] + b;
      LoopConcat(Step(s, a[0], historyUrl), a[1..], b, historyUrl);
    } else if s.exit.None? {
      assert a + b == b;
    }
  }

  /** An ended session ignores every further tick. */
  lemma EndedStaysEnded(s: Session, ticks: seq<Tick>, historyUrl: Option<string>)
    requires s.exit.Some?
    ensures Loop(s, ticks, historyUrl) == s
  {
  }

  predicate StatusFailure(t: Tick) {
    t.Polled? && t.status.Failed?
  }

  /**
   * Consecutive failed status fetches are counted; the session survives
   * four in a row and ends with exit code 1 at the fifth.
   */
  lemma {:induction false} FailuresCount(s: Session, ticks: seq<Tick>, historyUrl: Option<string>)
    requires s.exit.None? && 0 <= s.consecutiveErrors < MaxConsecutiveErrors
    requires forall i :: 0 <= i < |ticks| ==> StatusFailure(ticks[i])
    ensures var r := Loop(s, ticks, historyUrl);
      && (s.consecutiveErrors + |ticks| < MaxConsecutiveErrors ==>
            r.exit.None? && r.consecutiveErrors == s.consecutiveErrors + |ticks|)
      && (s.consecutiveErrors + |ticks| >= MaxConsecutiveErrors ==>
            r.exit == Some(1) && r.consecutiveErrors == MaxConsecutiveErrors)
    decreases |ticks|
  {
    if |ticks| > 0 {
      var next := Step(s, ticks[0], historyUrl);
      assert next.consecutiveErrors == s.consecutiveErrors + 1;
      if next.exit.None? {
        FailuresCount(next, ticks[1..], historyUrl);
      }
    }
  }

  /** Four failures, a success, and four more failures: the streak was broken, so the session goes on. */
  lemma StreakBrokenBySuccess(s: Session, four: seq<Tick>, four': seq<Tick>, b: BatchStatus,
                              pages: seq<Result<LogPage>>, finalLogs: Result<LogPage>, historyUrl: Option<string>)
    requires s == Start(None) && !IsFinished(b)
    requires |four| == 4 && |four'| == 4
    requires forall i :: 0 <= i < 4 ==> StatusFailure(four[i]) && StatusFailure(four'[i])
    ensures Loop(s, four + [Polled(Ok(b), pages, finalLogs)] + four', historyUrl).exit.None?
  {
    var ok := Polled(Ok(b), pages, finalLogs);
    LoopConcat(s, four + [ok], four', historyUrl);
    LoopConcat(s, four, [ok], historyUrl);
    FailuresCount(s, four, historyUrl);
    var afterFour := Loop(s, four, historyUrl);
    ExitCodes(afterFour, ok, historyUrl);
    SuccessfulPoll(afterFour, b, pages, finalLogs, historyUrl);
    var afterOk := Step(afterFour, ok, historyUrl);
    assert Loop(afterFour, [ok], historyUrl) == afterOk;
    FailuresCount(afterOk, four', historyUrl);
  }

  /** Five failures in a row from the start end the session with exit code 1. */
  lemma FiveFailuresEnd(ticks: seq<Tick>, initialState: Option<string>, historyUrl: Option<string>)
    requires |ticks| == 5 && forall i :: 0 <= i < 5 ==> StatusFailure(ticks[i])
    ensures Loop(Start(initialState), ticks, historyUrl).exit == Some(1)
  {
    FailuresCount(Start(initialState), ticks, historyUrl);
  }

  lemma PrefixTrans(a: seq<Line>, b: seq<Line>, c: seq<Line>)
    requires Prefix(a, b) && Prefix(b, c)
    ensures Prefix(a, c)
  {
    assert c[..|a|] == c[..|b|][..|a|];
  }

  /** A tick never moves the cursor back and never takes back a printed line. */
  lemma StepGrows(s: Session, t: Tick, historyUrl: Option<string>)
    ensures s.logOffset <= Step(s, t, historyUrl).logOffset
    ensures Prefix(s.output, Step(s, t, historyUrl).output)
  {
    var r := Step(s, t, historyUrl);
    match t
    case Interrupted =>
      assert r.output[..|s.output|] == s.output;
    case Polled(status, pages, finalLogs) =>
      match status
      case Failed(m) =>
        assert r.output[..|s.output|] == s.output;
      case Ok(b) =>
        SuccessfulPoll(s, b, pages, finalLogs, historyUrl);
        DrainKeeps(pages, 0, ReportState(s.(consecutiveErrors := 0), b));
  }

  /** Over a whole session the cursor only moves forward and the output only grows. */
  lemma {:induction false} LoopGrows(s: Session, ticks: seq<Tick>, historyUrl: Option<string>)
    ensures s.logOffset <= Loop(s, ticks, historyUrl).logOffset
    ensures Prefix(s.output, Loop(s, ticks, historyUrl).output)
    decreases |ticks|
  {
    if s.exit.None? && |ticks| > 0 {
      var next := Step(s, ticks[0], historyUrl);
      StepGrows(s, ticks[0], historyUrl);
      LoopGrows(next, ticks[1..], historyUrl);
      PrefixTrans(s.output, next.output, Loop(next, ticks[1..], historyUrl).output);
    } else {
      assert s.output[..|s.output|] == s.output;
    }
  }

  // The log requests.

  /** Requests of one page each, from positions that never go back, all between two cursors. */
  ghost predicate Forward(rs: seq<LogRequest>, lo: int, hi: int) {
    && (forall i :: 0 <= i < |rs| ==> rs[i].size == LogFetchSize && lo <= rs[i].from <= hi)
    && (forall i, j :: 0 <= i < j < |rs| ==> rs[i].from <= rs[j].from)
  }

  lemma ForwardConcat(a: seq<LogRequest>, b: seq<LogRequest>, lo: int, mid: int, mid': int, hi: int)
    requires Forward(a, lo, mid) && Forward(b, mid', hi) && lo <= mid <= mid' <= hi
    ensures Forward(a + b, lo, hi)
  {
    forall i | 0 <= i < |a + b|
      ensures (a + b)[i].size == LogFetchSize && lo <= (a + b)[i].from <= hi
    {
      if i >= |a| {
        assert (a + b)[i] == b[i - |a|];
      }
    }
    forall i, j | 0 <= i < j < |a + b|
      ensures (a + b)[i].from <= (a + b)[j].from
    {
      if j < |a| {
      } else if i < |a| {
        assert (a + b)[i] == a[i] && (a + b)[j] == b[j - |a|];
      }
    }
  }

  /**
   * The `j`-th request of a drain asks for a full page from the cursor
   * moved past exactly the rows of the full pages before it: no row is
   * asked for twice and none is skipped.
   */
  lemma {:induction false} DrainRequestsChain(pages: seq<Result<LogPage>>, k: nat, j: nat, s: Session)
    requires k <= j <= |pages| && FullPages(pages, k, j)
    ensures j - k < |DrainRequests(pages, k, s)|
    ensures DrainRequests(pages, k, s)[j - k] == LogRequest(s.logOffset + |PagesRows(pages, k, j)|, LogFetchSize)
    decreases j - k
  {
    if k < j {
      var rows := RowsOf(pages[k].value);
      assert PagesRows(pages, k, j) == rows + PagesRows(pages, k + 1, j);
      DrainRequestsChain(pages, k + 1, j, PrintPage(s, rows));
    }
  }

  /** The drain asks for consecutive pages: its `i`-th request starts `i` full pages past the cursor. */
  lemma {:induction false} DrainRequestsSpaced(pages: seq<Result<LogPage>>, k: nat, s: Session)
    ensures forall i :: 0 <= i < |DrainRequests(pages, k, s)| ==>
              DrainRequests(pages, k, s)[i] == LogRequest(s.logOffset + i * LogFetchSize, LogFetchSize)
    decreases |pages| - k
  {
    if k < |pages| && pages[k].Ok? && |RowsOf(pages[k].value)| == LogFetchSize {
      var p := PrintPage(s, RowsOf(pages[k].value));
      DrainRequestsSpaced(pages, k + 1, p);
      var rs := DrainRequests(pages, k, s);
      forall i | 1 <= i < |rs|
        ensures rs[i] == LogRequest(s.logOffset + i * LogFetchSize, LogFetchSize)
      {
        assert rs[i] == DrainRequests(pages, k + 1, p)[i - 1];
      }
    }
  }

  /** No two log requests of one drain go to the same URL. */
  lemma DrainUrlsDistinct(pages: seq<Result<LogPage>>, k: nat, s: Session, base: string, batchId: string, i: nat, j: nat)
    requires i < j < |DrainRequests(pages, k, s)|
    ensures RequestUrl(base, batchId, DrainRequests(pages, k, s)[i]) != RequestUrl(base, batchId, DrainRequests(pages, k, s)[j])
  {
    var rs := DrainRequests(pages, k, s);
    DrainRequestsSpaced(pages, k, s);
    if RequestUrl(base, batchId, rs[i]) == RequestUrl(base, batchId, rs[j]) {
      LogsUrlInjective(base, batchId, rs[i].from, rs[i].size, rs[j].from, rs[j].size);
    }
  }

  /** A drain whose `j`-th fetch ends it makes exactly the requests `k` up to `j`. */
  lemma {:induction false} DrainRequestCount(pages: seq<Result<LogPage>>, k: nat, j: nat, s: Session)
    requires k <= j <= |pages| && FullPages(pages, k, j) && Stops(pages, j)
    ensures |DrainRequests(pages, k, s)| == j - k + 1
    decreases j - k
  {
    if k < j {
      DrainRequestCount(pages, k + 1, j, PrintPage(s, RowsOf(pages[k].value)));
    } else {
      DrainRequestsAt(pages, k, s);
    }
  }

  /** A drain's requests go forward from the cursor it starts at up to at most the cursor it leaves. */
  lemma {:induction false} DrainRequestsForward(pages: seq<Result<LogPage>>, k: nat, s: Session)
    ensures Forward(DrainRequests(pages, k, s), s.logOffset, DrainFrom(pages, k, s).logOffset)
    decreases |pages| - k
  {
    DrainKeeps(pages, k, s);
    if k < |pages| && pages[k].Ok? && |RowsOf(pages[k].value)| == LogFetchSize {
      var p := PrintPage(s, RowsOf(pages[k].value));
      DrainRequestsForward(pages, k + 1, p);
      DrainKeeps(pages, k + 1, p);
      ForwardConcat([FetchAt(s)], DrainRequests(pages, k + 1, p), s.logOffset, s.logOffset, p.logOffset,
                    DrainFrom(pages, k, s).logOffset);
    }
  }

  /**
   * A tick asks for logs only after a successful status fetch, and then
   * first from the cursor it starts at; on a terminal status its last
   * request is the final fetch, from the cursor the drain left, which the
   * tick keeps.
   */
  lemma StepRequestsShape(s: Session, t: Tick, historyUrl: Option<string>)
    ensures StepRequests(s, t) == [] <==> t.Interrupted? || t.status.Failed?
    ensures StepRequests(s, t) != [] ==> StepRequests(s, t)[0] == FetchAt(s)
    ensures t.Polled? && t.status.Ok? && IsFinished(t.status.value) ==>
              StepRequests(s, t)[|StepRequests(s, t)| - 1] == FetchAt(Step(s, t, historyUrl))
  {
  }

  lemma StepRequestsForward(s: Session, t: Tick, historyUrl: Option<string>)
    ensures Forward(StepRequests(s, t), s.logOffset, Step(s, t, historyUrl).logOffset)
  {
    if t.Polled? && t.status.Ok? {
      var reported := ReportState(s.(consecutiveErrors := 0), t.status.value);
      var drained := DrainFrom(t.logPages, 0, reported);
      DrainRequestsForward(t.logPages, 0, reported);
      DrainKeeps(t.logPages, 0, reported);
      if IsFinished(t.status.value) {
        ForwardConcat(DrainRequests(t.logPages, 0, reported), [FetchAt(drained)],
                      s.logOffset, drained.logOffset, drained.logOffset, drained.logOffset);
      }
    }
  }

  /** Over a whole session the log requests only go forward, from the first cursor to the last. */
  lemma {:induction false} LoopRequestsForward(s: Session, ticks: seq<Tick>, historyUrl: Option<string>)
    ensures Forward(LoopRequests(s, ticks, historyUrl), s.logOffset, Loop(s, ticks, historyUrl).logOffset)
    decreases |ticks|
  {
    if s.exit.None? && |ticks| > 0 {
      var next := Step(s, ticks[0], historyUrl);
      StepRequestsForward(s, ticks[0], historyUrl);
      StepGrows(s, ticks[0], historyUrl);
      LoopRequestsForward(next, ticks[1..], historyUrl);
      LoopGrows(next, ticks[1..], historyUrl);
      ForwardConcat(StepRequests(s, ticks[0]), LoopRequests(next, ticks[1..], historyUrl),
                    s.logOffset, next.logOffset, next.logOffset, Loop(next, ticks[1..], historyUrl).logOffset);
    }
  }
}
