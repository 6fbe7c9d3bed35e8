/**
 * The command-line scanner (SparkSubmitParser.java). `ScanFrom` is the
 * specification of the scanning loop, one argument position at a time;
 * `Parse` is the loop itself, filling a fresh record and seven local lists.
 */
module Parser {
  import opened Wrappers
  import opened Text
  import opened SubmitArgs

  /** The options that take a value. */
  datatype Flag =
    | Name | Status | Kill | Class | Conf | PropertiesFile
    | Jars | Packages | Repositories | PyFiles | Files | Archives
    | DriverMemory | DriverCores | DriverClassPath | DriverJavaOptions | DriverLibraryPath
    | ExecutorMemory | ExecutorCores | NumExecutors | TotalExecutorCores
    | Queue | ProxyUser | DeployMode

  /** The option names, as the loop body spells them. */
  const NameOption := "--name"
  const StatusOption := "--status"
  const KillOption := "--kill"
  const ClassOption := "--class"
  const ShortClassOption := "-c"
  const ConfOption := "--conf"
  const PropertiesFileOption := "--properties-file"
  const JarsOption := "--jars"
  const PackagesOption := "--packages"
  const RepositoriesOption := "--repositories"
  const PyFilesOption := "--py-files"
  const FilesOption := "--files"
  const ArchivesOption := "--archives"
  const DriverMemoryOption := "--driver-memory"
  const DriverCoresOption := "--driver-cores"
  const DriverClassPathOption := "--driver-class-path"
  const DriverJavaOptionsOption := "--driver-java-options"
  const DriverLibraryPathOption := "--driver-library-path"
  const ExecutorMemoryOption := "--executor-memory"
  const ExecutorCoresOption := "--executor-cores"
  const NumExecutorsOption := "--num-executors"
  const TotalExecutorCoresOption := "--total-executor-cores"
  const QueueOption := "--queue"
  const ProxyUserOption := "--proxy-user"
  const DeployModeOption := "--deploy-mode"

  /** The chain of `equals` tests at the head of the loop body. */
  function Recognize(arg: string): Option<Flag> {
    if arg == NameOption then Some(Name)
    else if arg == StatusOption then Some(Status)
    else if arg == KillOption then Some(Kill)
    else if arg == ClassOption || arg == ShortClassOption then Some(Class)
    else if arg == ConfOption then Some(Conf)
    else if arg == PropertiesFileOption then Some(PropertiesFile)
    else if arg == JarsOption then Some(Jars)
    else if arg == PackagesOption then Some(Packages)
    else if arg == RepositoriesOption then Some(Repositories)
    else if arg == PyFilesOption then Some(PyFiles)
    else if arg == FilesOption then Some(Files)
    else if arg == ArchivesOption then Some(Archives)
    else if arg == DriverMemoryOption then Some(DriverMemory)
    else if arg == DriverCoresOption then Some(DriverCores)
    else if arg == DriverClassPathOption then Some(DriverClassPath)
    else if arg == DriverJavaOptionsOption then Some(DriverJavaOptions)
    else if arg == DriverLibraryPathOption then Some(DriverLibraryPath)
    else if arg == ExecutorMemoryOption then Some(ExecutorMemory)
    else if arg == ExecutorCoresOption then Some(ExecutorCores)
    else if arg == NumExecutorsOption then Some(NumExecutors)
    else if arg == TotalExecutorCoresOption then Some(TotalExecutorCores)
    else if arg == QueueOption then Some(Queue)
    else if arg == ProxyUserOption then Some(ProxyUser)
    else if arg == DeployModeOption then Some(DeployMode)
    else None
  }

  /** Every recognised option starts with "--", except the short form "-c" of "--class". */
  lemma RecognizedAreOptions(arg: string)
    requires Recognize(arg).Some?
    ensures StartsWith(arg, "--") || arg == "-c"
  {
  }

  /** `--conf` splits its value at the first '='; no '=', or one in front, gives no entry. */
  function ConfEntry(v: string): Option<(string, string)> {
    var eq := IndexOf(v, '=');
    if eq > 0 then Some((v[..eq], v[eq + 1..])) else None
  }

  lemma ConfEntrySplitsAtFirstEquals(v: string)
    ensures ConfEntry(v).Some? <==> '=' in v && v[0] != '='
    ensures ConfEntry(v).Some? ==>
              var (k, w) := ConfEntry(v).value;
              k != "" && '=' !in k && v == k + "=" + w
  {
    var eq := IndexOf(v, '=');
    if eq > 0 {
      assert v == v[..eq] + "=" + v[eq + 1..];
    }
  }

  /** A key without '=' and any value survive `key=value` unchanged. */
  lemma ConfEntryRoundTrip(k: string, w: string)
    requires k != "" && '=' !in k
    ensures ConfEntry(k + "=" + w) == Some((k, w))
  {
    var v := k + "=" + w;
    assert v[..|k|] == k && v[|k|] == '=';
    assert v[..|k|] == k;
    var eq := IndexOf(v, '=');
    assert eq == |k|;
    assert v[eq + 1..] == w;
  }

  /** The trimmed, non-empty pieces, in order. */
  function Kept(pieces: seq<string>): seq<string> {
    if |pieces| == 0 then []
    else
      var last := Trim(pieces[|pieces| - 1]);
      Kept(pieces[..|pieces| - 1]) + (if last != "" then [last] else [])
  }

  /** The items a comma-list option contributes: `value.split(",")`, trimmed, empty pieces dropped. */
  function CommaList(value: string): seq<string> {
    Kept(Split(value, ','))
  }

  lemma {:induction false} KeptItems(pieces: seq<string>)
    requires forall k :: 0 <= k < |pieces| ==> ',' !in pieces[k]
    ensures forall k :: 0 <= k < |Kept(pieces)| ==>
              var x := Kept(pieces)[k]; x != "" && Trim(x) == x && ',' !in x
  {
    if |pieces| > 0 {
      var last := pieces[|pieces| - 1];
      KeptItems(pieces[..|pieces| - 1]);
      TrimIdempotent(last);
      TrimKeepsAbsent(last, ',');
    }
  }

  /** Every item of a comma list is non-empty, already trimmed and free of commas. */
  lemma CommaListItems(value: string)
    ensures forall k :: 0 <= k < |CommaList(value)| ==>
              var x := CommaList(value)[k]; x != "" && Trim(x) == x && ',' !in x
  {
    KeptItems(Split(value, ','));
  }

  /** A positional argument that names the application resource. */
  predicate IsResourceLike(arg: string) {
    EndsWith(arg, ".jar") || EndsWith(arg, ".py") || StartsWith(arg, "local://") || StartsWith(arg, "oss://")
  }

  /** The configuration keys the sizing and placement options write. */
  const DriverMemoryKey := "spark.driver.memory"
  const DriverCoresKey := "spark.driver.cores"
  const DriverClassPathKey := "spark.driver.extraClassPath"
  const DriverJavaOptionsKey := "spark.driver.extraJavaOptions"
  const DriverLibraryPathKey := "spark.driver.extraLibraryPath"
  const ExecutorMemoryKey := "spark.executor.memory"
  const ExecutorCoresKey := "spark.executor.cores"
  const ExecutorInstancesKey := "spark.executor.instances"
  const CoresMaxKey := "spark.cores.max"
  const QueueKey := "spark.yarn.queue"

  /** The effect of a value-taking option with its value. */
  function Apply(f: Flag, v: string, st: Snapshot): Snapshot {
    match f
    case Name => st.(name := Some(v))
    case Status => st.(statusBatchId := Some(v))
    case Kill => st.(killBatchId := Some(v))
    case Class => st.(className := Some(v))
    case Conf =>
      (match ConfEntry(v)
       case Some((key, value)) => st.(conf := st.conf[key := value])
       case None => st)
    case PropertiesFile => st
    case Jars => st.(jars := st.jars + CommaList(v))
    case Packages => st.(packages := st.packages + CommaList(v))
    case Repositories => st.(repositories := st.repositories + CommaList(v))
    case PyFiles => st.(pyFiles := st.pyFiles + CommaList(v))
    case Files => st.(files := st.files + CommaList(v))
    case Archives => st.(archives := st.archives + CommaList(v))
    case DriverMemory => st.(conf := st.conf[DriverMemoryKey := v])
    case DriverCores => st.(driverCores := Some(v), conf := st.conf[DriverCoresKey := v])
    case DriverClassPath => st.(conf := st.conf[DriverClassPathKey := v])
    case DriverJavaOptions => st.(conf := st.conf[DriverJavaOptionsKey := v])
    case DriverLibraryPath => st.(conf := st.conf[DriverLibraryPathKey := v])
    case ExecutorMemory => st.(conf := st.conf[ExecutorMemoryKey := v])
    case ExecutorCores => st.(conf := st.conf[ExecutorCoresKey := v])
    case NumExecutors => st.(conf := st.conf[ExecutorInstancesKey := v])
    case TotalExecutorCores => st.(conf := st.conf[CoresMaxKey := v])
    case Queue => st.(queue := Some(v), conf := st.conf[QueueKey := v])
    case ProxyUser => st.(proxyUser := Some(v))
    case DeployMode => st.(deployMode := Some(v))
  }

  /**
   * One pass of the loop body at position `i`: the next position and the
   * new state. The position always moves forward and never past the end.
   */
  function ScanStep(args: seq<string>, i: nat, st: Snapshot): (r: (nat, Snapshot))
    requires i < |args|
    ensures i < r.0 <= |args| && r.0 <= i + 2
  {
    var arg := args[i];
    match Recognize(arg)
    case Some(f) =>
      if i + 1 < |args| then (i + 2, Apply(f, args[i + 1], st)) else (i + 1, st)
    case None =>
      if StartsWith(arg, "--") then
        (if i + 1 < |args| && !StartsWith(args[i + 1], "-") then i + 2 else i + 1, st)
      else if st.resource.None? && IsResourceLike(arg) then
        (i + 1, st.(resource := Some(arg)))
      else
        (i + 1, st.(args := st.args + [arg]))
  }

  /** The loop from position `i` to the end. */
  function ScanFrom(args: seq<string>, i: nat, st: Snapshot): Snapshot
    requires i <= |args|
    decreases |args| - i
  {
    if i == |args| then st
    else
      var (j, st') := ScanStep(args, i, st);
      ScanFrom(args, j, st')
  }

  /** `parse(args)`: the scan from the defaults, then batch-type inference. */
  function ParseSpec(args: seq<string>): Snapshot {
    var st := ScanFrom(args, 0, Defaults);
    st.(batchType := Some(if st.resource.Some? && EndsWith(st.resource.value, ".py") then "PYSPARK" else "SPARK"))
  }

  /** A value-taking option consumes the next argument only if there is one; otherwise it does nothing. */
  lemma ValueFlagTakesNext(args: seq<string>, i: nat, st: Snapshot)
    requires i < |args| && Recognize(args[i]).Some?
    ensures i + 1 < |args| ==> ScanStep(args, i, st) == (i + 2, Apply(Recognize(args[i]).value, args[i + 1], st))
    ensures i + 1 == |args| ==> ScanStep(args, i, st) == (i + 1, st)
  {
  }

  /** An unknown `--x` changes nothing and swallows the next argument unless that one starts with '-'. */
  lemma UnknownOptionSkipped(args: seq<string>, i: nat, st: Snapshot)
    requires i < |args| && Recognize(args[i]).None? && StartsWith(args[i], "--")
    ensures ScanStep(args, i, st).1 == st
    ensures ScanStep(args, i, st).0 == if i + 1 < |args| && !StartsWith(args[i + 1], "-") then i + 2 else i + 1
  {
  }

  /** An argument that is not an option is the resource, if none was found yet and it looks like one, or an application argument. */
  lemma PositionalStep(args: seq<string>, i: nat, st: Snapshot)
    requires i < |args| && Recognize(args[i]).None? && !StartsWith(args[i], "--")
    ensures ScanStep(args, i, st)
            == if st.resource.None? && IsResourceLike(args[i]) then (i + 1, st.(resource := Some(args[i])))
               else (i + 1, st.(args := st.args + [args[i]]))
  {
  }

  /** `--conf key=value` overwrites whatever an earlier option put under `key`. */
  lemma LaterConfWins(args: seq<string>, i: nat, st: Snapshot, key: string, value: string)
    requires i + 1 < |args| && args[i] == ConfOption && ConfEntry(args[i + 1]) == Some((key, value))
    ensures ScanStep(args, i, st) == (i + 2, st.(conf := st.conf[key := value]))
    ensures ScanStep(args, i, st).1.conf[key] == value
  {
  }

  /** Repeated comma-list options accumulate, each adding its items after the earlier ones. */
  lemma CommaListAccumulates(args: seq<string>, i: nat, st: Snapshot)
    requires i + 1 < |args| && args[i] == JarsOption
    ensures ScanStep(args, i, st) == (i + 2, st.(jars := st.jars + CommaList(args[i + 1])))
  {
  }

  /** The configuration key a sizing or placement option writes, if it writes a fixed one. */
  function ConfKey(f: Flag): Option<string> {
    match f
    case DriverMemory => Some(DriverMemoryKey)
    case DriverCores => Some(DriverCoresKey)
    case DriverClassPath => Some(DriverClassPathKey)
    case DriverJavaOptions => Some(DriverJavaOptionsKey)
    case DriverLibraryPath => Some(DriverLibraryPathKey)
    case ExecutorMemory => Some(ExecutorMemoryKey)
    case ExecutorCores => Some(ExecutorCoresKey)
    case NumExecutors => Some(ExecutorInstancesKey)
    case TotalExecutorCores => Some(CoresMaxKey)
    case Queue => Some(QueueKey)
    case _ => None
  }

  /** Each sizing or placement option writes its own key: no two share one. */
  lemma ConfKeysDistinct(f: Flag, g: Flag)
    requires ConfKey(f).Some? && ConfKey(g).Some? && f != g
    ensures ConfKey(f) != ConfKey(g)
  {
  }

  /**
   * A sizing or placement option sets its key to its value, keeps every other
   * key, and changes nothing else apart from the field `--queue` and
   * `--driver-cores` also set.
   */
  lemma SizingOptionWritesItsKey(f: Flag, v: string, st: Snapshot)
    requires ConfKey(f).Some?
    ensures var st' := Apply(f, v, st);
      && st'.conf == st.conf[ConfKey(f).value := v]
      && st'.(conf := st.conf, queue := st.queue, driverCores := st.driverCores) == st
      && (f == Queue ==> st'.queue == Some(v))
      && (f == DriverCores ==> st'.driverCores == Some(v))
  {
  }

  /** Two different sizing or placement options give the same state in either order. */
  lemma SizingOptionsCommute(f: Flag, g: Flag, v: string, w: string, st: Snapshot)
    requires ConfKey(f).Some? && ConfKey(g).Some? && f != g
    ensures Apply(f, v, Apply(g, w, st)) == Apply(g, w, Apply(f, v, st))
  {
    ConfKeysDistinct(f, g);
    SizingOptionWritesItsKey(f, v, st);
    SizingOptionWritesItsKey(g, w, st);
    SizingOptionWritesItsKey(f, v, Apply(g, w, st));
    SizingOptionWritesItsKey(g, w, Apply(f, v, st));
  }

  /** What the parsed positional state holds: only input arguments, none of them an option; a resource-like resource. */
  ghost predicate Positional(args: seq<string>, st: Snapshot) {
    && (forall k :: 0 <= k < |st.args| ==> st.args[k] in args && !StartsWith(st.args[k], "--"))
    && (st.resource.Some? ==> st.resource.value in args && IsResourceLike(st.resource.value))
  }

  /** How a scan changes the state: lists only grow at the end, and a resource, once found, stays. */
  ghost predicate Extends(st: Snapshot, st': Snapshot) {
    && st.args <= st'.args
    && st.pyFiles <= st'.pyFiles && st.files <= st'.files && st.jars <= st'.jars
    && st.archives <= st'.archives && st.packages <= st'.packages && st.repositories <= st'.repositories
    && (st.resource.Some? ==> st'.resource == st.resource)
    && st'.batchType == st.batchType
  }

  /** A value-taking option leaves the positional state alone and only extends the lists. */
  lemma ApplyKeepsPositional(f: Flag, v: string, st: Snapshot)
    ensures Apply(f, v, st).args == st.args && Apply(f, v, st).resource == st.resource
    ensures Extends(st, Apply(f, v, st))
  {
    match f
    case Conf =>
    case _ =>
  }

  lemma StepKeepsPositional(args: seq<string>, i: nat, st: Snapshot)
    requires i < |args| && Positional(args, st)
    ensures Positional(args, ScanStep(args, i, st).1)
    ensures Extends(st, ScanStep(args, i, st).1)
  {
    var arg := args[i];
    if Recognize(arg).Some? && i + 1 < |args| {
      ApplyKeepsPositional(Recognize(arg).value, args[i + 1], st);
    }
  }

  lemma {:induction false} ScanKeepsPositional(args: seq<string>, i: nat, st: Snapshot)
    requires i <= |args| && Positional(args, st)
    ensures Positional(args, ScanFrom(args, i, st))
    ensures Extends(st, ScanFrom(args, i, st))
    decreases |args| - i
  {
    if i < |args| {
      var (j, st') := ScanStep(args, i, st);
      StepKeepsPositional(args, i, st);
      ScanKeepsPositional(args, j, st');
    }
  }

  /**
   * The parsed record: no positional argument starts with "--", every one
   * is an input argument, the resource is an input argument that looks like
   * one, and the batch type is "PYSPARK" exactly for a ".py" resource.
   */
  lemma ParsedShape(args: seq<string>)
    ensures var p := ParseSpec(args);
      && (forall k :: 0 <= k < |p.args| ==> p.args[k] in args && !StartsWith(p.args[k], "--"))
      && (p.resource.Some? ==> p.resource.value in args && IsResourceLike(p.resource.value))
      && (p.batchType == Some("PYSPARK") <==> p.resource.Some? && EndsWith(p.resource.value, ".py"))
      && (p.batchType != Some("PYSPARK") ==> p.batchType == Some("SPARK"))
  {
    ScanKeepsPositional(args, 0, Defaults);
  }

  lemma KeptSnoc(pieces: seq<string>, k: nat)
    requires k < |pieces|
    ensures Kept(pieces[..k + 1]) == Kept(pieces[..k]) + (if Trim(pieces[k]) != "" then [Trim(pieces[k])] else [])
  {
    assert pieces[..k + 1][..k] == pieces[..k];
  }

  /** The loop over the pieces of `value.split(",")`: each trimmed, non-empty piece is added at the end. */
  method AppendKept(list: seq<string>, pieces: seq<string>) returns (r: seq<string>)
    ensures r == list + Kept(pieces)
  {
    r := list;
    assert pieces[..0] == [];
    for k := 0 to |pieces|
      invariant r == list + Kept(pieces[..k])
    {
      var trimmed := Trim(pieces[k]);
      KeptSnoc(pieces, k);
      if trimmed != "" {
        SnocAssoc(list, Kept(pieces[..k]), trimmed);
        r := r + [trimmed];
      } else {
        assert Kept(pieces[..k + 1]) == Kept(pieces[..k]);
      }
    }
    assert pieces[..|pieces|] == pieces;
  }

  lemma SnocAssoc(a: seq<string>, b: seq<string>, x: string)
    ensures (a + b) + [x] == a + (b + [x])
  {
  }

  /** A comma-list option adds its value's items to the end of its list. */
  method AppendListValue(list: seq<string>, value: string) returns (r: seq<string>)
    ensures r == list + CommaList(value)
  {
    var pieces := Split(value, ',');
    r := AppendKept(list, pieces);
  }

  /**
   * The branch of the loop body for a value-taking option, on the record
   * and the local lists; `appArgs` is not touched by any option.
   */
  method TakeValue(f: Flag, value: string, result: SparkSubmitArgs, appArgs: seq<string>, conf: map<string, string>,
                   pyFiles: seq<string>, files: seq<string>, jars: seq<string>, archives: seq<string>,
                   packages: seq<string>, repositories: seq<string>)
    returns (conf': map<string, string>, pyFiles': seq<string>, files': seq<string>, jars': seq<string>,
             archives': seq<string>, packages': seq<string>, repositories': seq<string>)
    modifies result
    ensures result.Value().(args := appArgs, conf := conf', pyFiles := pyFiles', files := files', jars := jars',
                            archives := archives', packages := packages', repositories := repositories')
            == Apply(f, value, old(result.Value()).(args := appArgs, conf := conf, pyFiles := pyFiles, files := files,
                                                    jars := jars, archives := archives, packages := packages,
                                                    repositories := repositories))
  {
    conf', pyFiles', files', jars', archives', packages', repositories' :=
      conf, pyFiles, files, jars, archives, packages, repositories;
    match f
    case Name => result.SetName(Some(value));
    case Status => result.SetStatusBatchId(Some(value));
    case Kill => result.SetKillBatchId(Some(value));
    case Class => result.SetClassName(Some(value));
    case Conf =>
      var eqIndex := IndexOf(value, '=');
      if eqIndex > 0 {
        conf' := conf[value[..eqIndex] := value[eqIndex + 1..]];
      }
    case PropertiesFile =>
    case Jars => jars' := AppendListValue(jars, value);
    case Packages => packages' := AppendListValue(packages, value);
    case Repositories => repositories' := AppendListValue(repositories, value);
    case PyFiles => pyFiles' := AppendListValue(pyFiles, value);
    case Files => files' := AppendListValue(files, value);
    case Archives => archives' := AppendListValue(archives, value);
    case DriverMemory => conf' := conf[DriverMemoryKey := value];
    case DriverCores =>
      result.SetDriverCores(Some(value));
      conf' := conf[DriverCoresKey := value];
    case DriverClassPath => conf' := conf[DriverClassPathKey := value];
    case DriverJavaOptions => conf' := conf[DriverJavaOptionsKey := value];
    case DriverLibraryPath => conf' := conf[DriverLibraryPathKey := value];
    case ExecutorMemory => conf' := conf[ExecutorMemoryKey := value];
    case ExecutorCores => conf' := conf[ExecutorCoresKey := value];
    case NumExecutors => conf' := conf[ExecutorInstancesKey := value];
    case TotalExecutorCores => conf' := conf[CoresMaxKey := value];
    case Queue =>
      result.SetQueue(Some(value));
      conf' := conf[QueueKey := value];
    case ProxyUser => result.SetProxyUser(Some(value));
    case DeployMode => result.SetDeployMode(Some(value));
  }

  /** `SparkSubmitParser.parse(args)`. */
  method Parse(args: seq<string>) returns (result: SparkSubmitArgs)
    ensures fresh(result)
    ensures result.Value() == ParseSpec(args)
  {
    result := new SparkSubmitArgs();
    var appArgs: seq<string> := [];
    var conf: map<string, string> := map[];
    var pyFiles: seq<string> := [];
    var files: seq<string> := [];
    var jars: seq<string> := [];
    var archives: seq<string> := [];
    var packages: seq<string> := [];
    var repositories: seq<string> := [];

    var i := 0;
    while i < |args|
      invariant 0 <= i <= |args|
      invariant ScanFrom(args, i, result.Value().(args := appArgs, conf := conf, pyFiles := pyFiles, files := files,
                                                  jars := jars, archives := archives, packages := packages,
                                                  repositories := repositories))
                == ScanFrom(args, 0, Defaults)
    {
      ghost var before := result.Value().(args := appArgs, conf := conf, pyFiles := pyFiles, files := files,
                                          jars := jars, archives := archives, packages := packages,
                                          repositories := repositories);
      ghost var step := ScanStep(args, i, before);
      var arg := args[i];
      var flag := Recognize(arg);
      if flag.Some? {
        ValueFlagTakesNext(args, i, before);
        if i + 1 < |args| {
          i := i + 1;
          var value := args[i];
          conf, pyFiles, files, jars, archives, packages, repositories :=
            TakeValue(flag.value, value, result, appArgs, conf, pyFiles, files, jars, archives, packages, repositories);
        }
      } else if StartsWith(arg, "--") {
        // unknown option: skip it, and its value if the next argument is not an option
        UnknownOptionSkipped(args, i, before);
        if i + 1 < |args| && !StartsWith(args[i + 1], "-") {
          i := i + 1;
        }
      } else {
        PositionalStep(args, i, before);
        if result.resource.None? && IsResourceLike(arg) {
          result.SetResource(Some(arg));
        } else {
          appArgs := appArgs + [arg];
        }
      }
      i := i + 1;
      assert step == (i, result.Value().(args := appArgs, conf := conf, pyFiles := pyFiles, files := files,
                                         jars := jars, archives := archives, packages := packages,
                                         repositories := repositories));
    }

    result.SetConf(conf);
    result.SetArgs(appArgs);
    result.SetPyFiles(pyFiles);
    result.SetFiles(files);
    result.SetJars(jars);
    result.SetArchives(archives);
    result.SetPackages(packages);
    result.SetRepositories(repositories);

    if result.resource.Some? && EndsWith(result.resource.value, ".py") {
      result.SetBatchType(Some("PYSPARK"));
    } else {
      result.SetBatchType(Some("SPARK"));
    }
  }
}
