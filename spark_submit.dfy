/**
 * The command itself (`SparkSubmit.main`): a help request, then the parsed
 * arguments decide between a status query, a kill request and a
 * submission; a submission is validated, put in cluster mode, sent, and
 * followed by the monitoring session until the job ends.
 *
 * The server is scripted by `Replies`; the History Server URL comes from
 * the loaded configuration.
 */
module SparkSubmit {
  import opened Wrappers
  import opened Text
  import opened SubmitArgs
  import opened Parser
  import opened Kyuubi
  import opened Console
  import opened History
  import opened Monitor

  /** No arguments, or `--help` or `-h` alone. */
  predicate IsHelpRequest(argv: seq<string>) {
    |argv| == 0 || (|argv| == 1 && (argv[0] == "--help" || argv[0] == "-h"))
  }

  datatype Command =
    | Usage
    | Conflict
    | QueryStatus(batchId: string)
    | KillRequest(batchId: string)
    | MissingResource
    | MissingClass
    | Submit(job: Snapshot)

  /** What `main` goes on to do with its arguments, in the order of its checks. */
  function Decide(argv: seq<string>): Command {
    if IsHelpRequest(argv) then Usage
    else Decided(ParseSpec(argv))
  }

  /** The checks `main` makes on the parsed arguments, in its order. */
  function Decided(a: Snapshot): Command {
    if a.statusBatchId.Some? && a.killBatchId.Some? then Conflict
    else if a.statusBatchId.Some? then QueryStatus(a.statusBatchId.value)
    else if a.killBatchId.Some? then KillRequest(a.killBatchId.value)
    else if !NonEmpty(a.resource) then MissingResource
    else if Some("PYSPARK") != a.batchType && !NonEmpty(a.className) then MissingClass
    else Submit(a)
  }

  // Deploy mode.

  const DeployModeKey := "spark.submit.deployMode"
  const ClusterMode := "cluster"

  /** The warning for `--deploy-mode client`. */
  const ClientModeWarning: seq<Line> :=
    [Err("\n" + WarningMark + "  Warning: --deploy-mode client is not supported in this environment."),
     Err("   Client mode requires the driver to run on the local machine,"),
     Err("   which is not compatible with remote Kyuubi server submission."),
     Err("   Deploy mode will be automatically changed to 'cluster'.\n")]

  const InvalidModeLabel := "\n" + WarningMark + "  Warning: Invalid --deploy-mode value: "
  const OnlyClusterNote := "   Only 'cluster' mode is supported. Using 'cluster' mode.\n"

  /** The warning for any other mode that is not cluster. */
  function InvalidModeWarning(deployMode: string): seq<Line> {
    [Err(InvalidModeLabel + deployMode),
     Err(OnlyClusterNote)]
  }

  /** The warning printed for a deploy mode other than cluster. */
  function DeployModeWarning(deployMode: Option<string>): seq<Line> {
    if !NonEmpty(deployMode) then []
    else if EqualsIgnoreCase("client", deployMode.value) then ClientModeWarning
    else if !EqualsIgnoreCase("cluster", deployMode.value) then InvalidModeWarning(deployMode.value)
    else []
  }

  /** Every branch ends the same way: the mode and the configuration entry say cluster. */
  function WithClusterMode(a: Snapshot): Snapshot {
    a.(deployMode := Some(ClusterMode), conf := a.conf[DeployModeKey := ClusterMode])
  }

  /** The deploy-mode check, on the parsed arguments in place. */
  method NormalizeDeployMode(submitArgs: SparkSubmitArgs) returns (warning: seq<Line>, deployMode: string)
    modifies submitArgs
    ensures submitArgs.Value() == WithClusterMode(old(submitArgs.Value()))
    ensures warning == DeployModeWarning(old(submitArgs.deployMode))
    ensures deployMode == ClusterMode
  {
    warning := DeployModeWarning(submitArgs.deployMode);
    deployMode := ClusterMode;
    submitArgs.SetDeployMode(Some(deployMode));
    submitArgs.PutConf(DeployModeKey, deployMode);
  }

  // Reports.

  const UseHelp := "\nUse --help for usage information."
  const ConflictMessage := "Error: --status and --kill cannot be used together"
  const MissingResourceMessage := "Error: Resource (jar or python file) is required"
  const MissingClassMessage := "Error: --class is required for Spark (non-PySpark) jobs"

  const ErrorLabel := "\n" + FailureMark + " Error: "
  const StateLabel := "State: "
  const DiagnosticLabel := "Diagnostic: "
  const SubmittedMessage := SuccessMark + " Batch submitted successfully!"
  const WaitingMessage := "Waiting for job to complete..."
  const Rule := "------------------------------------------"
  const KillSentLabel := "Kill request sent for Batch ID: "

  /** The outer handler: the message, then the hint to use `--help`. */
  function FatalError(message: string): seq<Line> {
    [Err(ErrorLabel + message), Err(UseHelp)]
  }

  function AppUrlLines(historyUrl: Option<string>, appId: Option<string>): seq<Line> {
    var appUrl := GetApplicationUrl(historyUrl, appId);
    if NonEmpty(appUrl) then [Out(AppUrlLabel + appUrl.value)] else []
  }

  /** The answer to `--status`: the application id is printed whenever it is not null, even when empty. */
  function StatusReport(b: BatchStatus, historyUrl: Option<string>): seq<Line> {
    [Out(BatchIdLabel + Shown(b.id)), Out(StateLabel + Shown(b.state))]
    + (if b.appId.Some? then [Out(AppIdLabel + b.appId.value)] else [])
    + AppUrlLines(historyUrl, b.appId)
    + (if NonEmpty(b.appDiagnostic) then [Out(DiagnosticLabel + b.appDiagnostic.value)] else [])
  }

  /** What a successful submission prints before the polling starts. */
  function SubmittedReport(resp: BatchStatus, historyUrl: Option<string>): seq<Line> {
    [Out(SubmittedMessage), Out(BatchIdLabel + Shown(resp.id))]
    + (if NonEmpty(resp.appId) then [Out(AppIdLabel + resp.appId.value)] else [])
    + AppUrlLines(historyUrl, resp.appId)
    + [Out(""), Out(WaitingMessage), Out(Rule)]
  }

  // The whole invocation.

  /** The server's answers: to the status query, the kill request, the submission, and the polling ticks. */
  datatype Replies = Replies(status: Result<BatchStatus>, kill: Result<()>, submit: Result<BatchStatus>, ticks: seq<Tick>)

  /** What the process printed, its exit code (none while the job is still followed), and the job it sent. */
  datatype Outcome = Outcome(output: seq<Line>, exit: Option<int>, submitted: Option<Snapshot>)

  function Invocation(argv: seq<string>, historyUrl: Option<string>, replies: Replies): Outcome {
    Perform(Decide(argv), historyUrl, replies)
  }

  /** What each command prints and exits with. */
  function Perform(command: Command, historyUrl: Option<string>, replies: Replies): Outcome {
    match command
    case Usage => Outcome([], Some(0), None)
    case Conflict => Outcome([Err(ConflictMessage)], Some(1), None)
    case QueryStatus(_) =>
      if replies.status.Ok? then Outcome(StatusReport(replies.status.value, historyUrl), Some(0), None)
      else Outcome(FatalError(replies.status.message), Some(1), None)
    case KillRequest(id) =>
      if replies.kill.Ok? then Outcome([Out(KillSentLabel + id)], Some(0), None)
      else Outcome(FatalError(replies.kill.message), Some(1), None)
    case MissingResource => Outcome([Err(MissingResourceMessage), Err(UseHelp)], Some(1), None)
    case MissingClass => Outcome([Err(MissingClassMessage), Err(UseHelp)], Some(1), None)
    case Submit(a) => Submission(a, historyUrl, replies)
  }

  /** A validated job: the warning, the job in cluster mode, then the failure or the report and the session. */
  function Submission(a: Snapshot, historyUrl: Option<string>, replies: Replies): Outcome {
    var job := WithClusterMode(a);
    var warning := DeployModeWarning(a.deployMode);
    match replies.submit
    case Failed(m) => Outcome(warning + FatalError(m), Some(1), Some(job))
    case Ok(resp) =>
      var session := Loop(Start(resp.state), replies.ticks, historyUrl);
      Outcome(warning + SubmittedReport(resp, historyUrl) + session.output, session.exit, Some(job))
  }

  /** `main`, step by step on the parsed arguments object; `request` is the JSON body it posts, if any. */
  method Execute(argv: seq<string>, historyUrl: Option<string>, replies: Replies)
    returns (outcome: Outcome, request: Option<map<Field, JsonValue>>)
    ensures outcome == Invocation(argv, historyUrl, replies)
    ensures request.Some? <==> outcome.submitted.Some?
    ensures request.Some? ==> RequestFor(request.value, outcome.submitted.value)
  {
    request := None;
    if IsHelpRequest(argv) {
      outcome := Outcome([], Some(0), None);
      return;
    }
    var submitArgs := Parse(argv);
    outcome, request := Dispatch(submitArgs, historyUrl, replies);
  }

  /** The rest of `main`, on the parsed arguments: its checks in order, then the submission. */
  method Dispatch(submitArgs: SparkSubmitArgs, historyUrl: Option<string>, replies: Replies)
    returns (outcome: Outcome, request: Option<map<Field, JsonValue>>)
    modifies submitArgs
    ensures outcome == Perform(Decided(old(submitArgs.Value())), historyUrl, replies)
    ensures request.Some? <==> outcome.submitted.Some?
    ensures request.Some? ==> RequestFor(request.value, outcome.submitted.value)
  {
    request := None;
    var a := submitArgs.Value();
    if a.statusBatchId.Some? && a.killBatchId.Some? {
      outcome := Outcome([Err(ConflictMessage)], Some(1), None);
      return;
    }
    if a.statusBatchId.Some? {
      match replies.status {
        case Ok(status) =>
          outcome := Outcome(StatusReport(status, historyUrl), Some(0), None);
        case Failed(m) =>
          outcome := Outcome(FatalError(m), Some(1), None);
      }
      return;
    }
    if a.killBatchId.Some? {
      match replies.kill {
        case Ok(_) =>
          outcome := Outcome([Out(KillSentLabel + a.killBatchId.value)], Some(0), None);
        case Failed(m) =>
          outcome := Outcome(FatalError(m), Some(1), None);
      }
      return;
    }
    if a.resource.None? || a.resource.value == "" {
      outcome := Outcome([Err(MissingResourceMessage), Err(UseHelp)], Some(1), None);
      return;
    }
    if Some("PYSPARK") != a.batchType {
      if a.className.None? || a.className.value == "" {
        outcome := Outcome([Err(MissingClassMessage), Err(UseHelp)], Some(1), None);
        return;
      }
    }
    outcome, request := SubmitAndFollow(submitArgs, historyUrl, replies);
  }

  /** The submission part of `main`: the deploy-mode check, the request, and the monitoring session. */
  method SubmitAndFollow(submitArgs: SparkSubmitArgs, historyUrl: Option<string>, replies: Replies)
    returns (outcome: Outcome, request: Option<map<Field, JsonValue>>)
    modifies submitArgs
    ensures outcome == Submission(old(submitArgs.Value()), historyUrl, replies)
    ensures request.Some? && outcome.submitted.Some?
    ensures RequestFor(request.value, outcome.submitted.value)
  {
    var warning, deployMode := NormalizeDeployMode(submitArgs);
    var job := submitArgs.Value();
    var body := BuildRequest(job);
    request := Some(body);
    match replies.submit
    case Failed(m) =>
      outcome := Outcome(warning + FatalError(m), Some(1), Some(job));
    case Ok(response) =>
      var session := new MonitorSession(response.state, historyUrl);
      session.Run(replies.ticks);
      outcome := Outcome(warning + SubmittedReport(response, historyUrl) + session.output, session.exit, Some(job));
  }

  // What the command promises.

  /** `--status` and `--kill` together are refused, and that is the only combination refused as such. */
  lemma ConflictIff(argv: seq<string>, historyUrl: Option<string>, replies: Replies)
    ensures Decide(argv) == Conflict
            <==> !IsHelpRequest(argv) && ParseSpec(argv).statusBatchId.Some? && ParseSpec(argv).killBatchId.Some?
    ensures Decide(argv) == Conflict ==>
              Invocation(argv, historyUrl, replies) == Outcome([Err(ConflictMessage)], Some(1), None)
  {
  }

  /**
   * A job is sent exactly when the command is a submission, and then it is
   * the parsed job in cluster mode, with a resource the parser recognised,
   * and with a class unless it is a PySpark script (a ".py" resource).
   */
  lemma SubmittedJobIsComplete(argv: seq<string>, historyUrl: Option<string>, replies: Replies)
    ensures var o := Invocation(argv, historyUrl, replies);
      && (o.submitted.Some? <==> Decide(argv).Submit?)
      && (o.submitted.Some? ==>
            var a := ParseSpec(argv);
            && !IsHelpRequest(argv) && a.statusBatchId.None? && a.killBatchId.None?
            && o.submitted.value == WithClusterMode(a)
            && NonEmpty(a.resource) && a.resource.value in argv && IsResourceLike(a.resource.value)
            && (a.batchType == Some("PYSPARK") <==> EndsWith(a.resource.value, ".py"))
            && (a.batchType == Some("PYSPARK") || NonEmpty(a.className)))
  {
    ParsedShape(argv);
  }

  /** The job sent says cluster mode twice: in its deploy mode and in its configuration. */
  lemma ClusterModeSent(a: Snapshot, c: map<string, string>)
    requires SentConf(c, WithClusterMode(a))
    ensures DeployModeKey in c && c[DeployModeKey] == ClusterMode
    ensures WithClusterMode(a).deployMode == Some(ClusterMode)
  {
    var job := WithClusterMode(a);
    assert DeployModeKey in job.conf;
    assert !(DeployModeKey == ProxyUserKey && NonEmpty(job.proxyUser));
  }

  /** A warning is printed exactly for a non-empty mode other than cluster, in any case. */
  lemma DeployModeWarnedIff(deployMode: Option<string>)
    ensures DeployModeWarning(deployMode) != [] <==> NonEmpty(deployMode) && !EqualsIgnoreCase("cluster", deployMode.value)
  {
    if NonEmpty(deployMode) && EqualsIgnoreCase("client", deployMode.value) {
      assert |deployMode.value| == 6;
    }
  }

  /** Putting a job in cluster mode twice changes nothing, and a job in cluster mode draws no warning. */
  lemma ClusterModeIdempotent(a: Snapshot)
    ensures WithClusterMode(WithClusterMode(a)) == WithClusterMode(a)
    ensures DeployModeWarning(WithClusterMode(a).deployMode) == []
  {
    assert EqualsIgnoreCase("cluster", ClusterMode);
  }

  /** Nothing but the deploy mode and its configuration entry changes. */
  lemma ClusterModeKeepsTheRest(a: Snapshot)
    ensures WithClusterMode(a).(deployMode := a.deployMode, conf := a.conf) == a
    ensures forall k :: k in a.conf && k != DeployModeKey ==> WithClusterMode(a).conf[k] == a.conf[k]
    ensures WithClusterMode(a).conf.Keys == a.conf.Keys + {DeployModeKey}
  {
  }

  /**
   * Exit code 0 means help, an answered query or kill, or a job that
   * finished; an unanswered query or kill, a refused command line and a
   * failed submission give 1.
   */
  lemma InvocationExitCodes(argv: seq<string>, historyUrl: Option<string>, replies: Replies)
    ensures var o := Invocation(argv, historyUrl, replies);
      && (o.exit == Some(0) <==>
            || Decide(argv).Usage?
            || (Decide(argv).QueryStatus? && replies.status.Ok?)
            || (Decide(argv).KillRequest? && replies.kill.Ok?)
            || (Decide(argv).Submit? && replies.submit.Ok?
                && Loop(Start(replies.submit.value.state), replies.ticks, historyUrl).exit == Some(0)))
      && (Decide(argv).Conflict? || Decide(argv).MissingResource? || Decide(argv).MissingClass? ==> o.exit == Some(1))
      && ((|| (Decide(argv).QueryStatus? && replies.status.Failed?)
           || (Decide(argv).KillRequest? && replies.kill.Failed?)
           || (Decide(argv).Submit? && replies.submit.Failed?))
          ==> o.exit == Some(1))
  {
  }

  /** A successful submission prints the deploy-mode warning, the submission report, then the session. */
  lemma SubmissionOutput(argv: seq<string>, historyUrl: Option<string>, replies: Replies)
    requires Decide(argv).Submit? && replies.submit.Ok?
    ensures var o := Invocation(argv, historyUrl, replies);
      var warning := DeployModeWarning(ParseSpec(argv).deployMode);
      var report := SubmittedReport(replies.submit.value, historyUrl);
      && |warning| + |report| <= |o.output|
      && o.output[..|warning|] == warning
      && o.output[|warning|..|warning| + |report|] == report
      && o.output[|warning| + |report|..] == Loop(Start(replies.submit.value.state), replies.ticks, historyUrl).output
  {
    var warning := DeployModeWarning(ParseSpec(argv).deployMode);
    var report := SubmittedReport(replies.submit.value, historyUrl);
    var session := Loop(Start(replies.submit.value.state), replies.ticks, historyUrl).output;
    var all := warning + report + session;
    assert all[..|warning|] == warning;
    assert all[|warning|..|warning| + |report|] == report;
    assert all[|warning| + |report|..] == session;
  }

  /**
   * The status query prints an empty application id as AppIdLabel
   * where the submission report leaves the line out: the two use
   * different guards.
   */
  lemma EmptyAppIdShownOnlyByQuery(b: BatchStatus, historyUrl: Option<string>)
    requires b.appId == Some("")
    ensures Out(AppIdLabel) in StatusReport(b, historyUrl)
    ensures Out(AppIdLabel) !in SubmittedReport(b, historyUrl)
  {
    assert StatusReport(b, historyUrl)[2] == Out(AppIdLabel);
    assert AppUrlLines(historyUrl, b.appId) == [];
    var r := SubmittedReport(b, historyUrl);
    assert r == [Out(SubmittedMessage), Out(BatchIdLabel + Shown(b.id)),
                 Out(""), Out(WaitingMessage), Out(Rule)];
    assert (BatchIdLabel + Shown(b.id))[6] != (AppIdLabel)[6];
  }

  /** A PySpark script needs no class. */
  lemma ScriptNeedsNoClass()
    ensures Decide(["oss://bucket/jobs/main.py", "--arg1"]).Submit?
    ensures Decide(["oss://bucket/jobs/main.py", "--arg1"]).job.batchType == Some("PYSPARK")
  {
    var py := ["oss://bucket/jobs/main.py", "--arg1"];
    assert EndsWith(py[0], ".py");
    assert !StartsWith(py[0], "--") && StartsWith(py[1], "--") by {
      assert py[0][0] == 'o' && py[1][..2] == "--";
    }
    assert Recognize(py[0]).None? && Recognize(py[1]).None?;
    var afterPy := Defaults.(resource := Some(py[0]));
    assert ScanStep(py, 0, Defaults) == (1, afterPy);
    assert ScanStep(py, 1, afterPy) == (2, afterPy);
  }

  /** A jar without a class is refused. */
  lemma JarNeedsClass()
    ensures Decide(["oss://bucket/app.jar"]) == MissingClass
  {
    var jar := ["oss://bucket/app.jar"];
    assert EndsWith(jar[0], ".jar") && !EndsWith(jar[0], ".py");
    assert !StartsWith(jar[0], "--") by {
      assert jar[0][0] == 'o';
    }
    assert Recognize(jar[0]).None?;
    assert ScanStep(jar, 0, Defaults) == (1, Defaults.(resource := Some(jar[0])));
  }

  /** Both alternate operations at once are refused before either is attempted. */
  lemma StatusAndKillExample()
    ensures Decide(["--status", "batch-1", "--kill", "batch-2"]) == Conflict
  {
    var argv := ["--status", "batch-1", "--kill", "batch-2"];
    var st := Defaults.(statusBatchId := Some("batch-1"));
    assert ScanStep(argv, 0, Defaults) == (2, st);
    assert ScanStep(argv, 2, st) == (4, st.(killBatchId := Some("batch-2")));
  }
}
