# A verified model of the Kyuubi spark-submit client

The client is a `spark-submit` replacement for a Kyuubi REST server. It
parses a spark-submit command line into a job descriptor and validates the
job. It puts the job in cluster mode, loads the connection settings, and
posts the job as a batch. It then polls the batch until it is finished,
printing status changes and the batch's local log as it goes. It can
also query or kill an existing batch.

The model covers five parts of the client:

- **Monitoring session** (`monitor.dfy`, `monitor_properties.dfy`).
  - `Monitor.Step` and `Monitor.Loop` specify one tick of the polling loop and the whole loop.
  - `Monitor.MonitorSession` is the loop itself. It is a class with the loop's variables as fields, and its methods update them in place.
  - `MonitorProperties` proves what the loop promises. The log cursor moves by exactly the rows of each page printed before a terminal status, and the final fetch prints its rows but leaves the cursor unchanged (`DrainClosedForm`, `FinalFetchKeepsCursor`). The header comes at most once. Within one drain each request asks for the 100 rows after the previous one, so none is asked for twice or skipped (`DrainRequestsChain`, `DrainRequestsSpaced`). Across ticks every request starts at the cursor, which never moves back (`LoopRequestsForward`). So a tick after a short page or a failed fetch asks again for rows already asked for. A status line is printed exactly when the state changes. Consecutive status errors are counted, and the fifth ends the session. The exit code follows from how the session ends.
- **The command** (`spark_submit.dfy`, `history.dfy`, `console.dfy`).
  - `SparkSubmit.Invocation` specifies `main` from the arguments to the printed lines, the exit code and the job it sends.
  - `SparkSubmit.Execute` is `main`, step by step, on the parsed record. It covers the exclusivity of `--status` and `--kill`, resource and class validation, deploy-mode coercion, and the History Server link.
- **Request construction** (`kyuubi_client.dfy`).
  - The JSON body of `submitBatch` is a map from field names to values, built by methods in the order the source adds the fields.
  - The file also has the 2xx test, `isFinished` and the endpoint URLs.
- **Argument parser** (`parser.dfy`). `Parser.Parse` is the index loop over the arguments. It fills a fresh record and seven local lists, and it is proved against `Parser.ParseSpec`, a position-by-position scan.
- **Configuration** (`config.dfy`) and **job descriptor** (`submit_args.dfy`).
  - Precedence resolution and the default-configuration flag are functions of what loading reads.
  - `getBaseUrl` is modelled as written.
  - `SparkSubmitArgs` is a class with one setter method per field.

The server, the file system and the environment are inputs:

- A client call's reply is a value: a network error, or a status code with a body and the decoded response.
- A polling tick carries the result of the status fetch, the results of its log fetches in order, and the result of the final log fetch.
- An interrupt is a tick of its own.
- System properties, environment variables and the config file's properties are maps passed to `Config.Load`. The History Server URL is a parameter of the command.
- Java `null` is `None`, and a Java `String` is a Dafny `string`.

## Behaviour worth noting

- The "Could not fetch logs" warning is printed at every failed log fetch. The code tests the status-error counter, and the same tick's successful status fetch has just cleared it (`MonitorProperties.LogWarningEveryTime`).
- Rows that first appear in the final log fetch after a terminal status are printed with no log header, even when no header was printed before (`MonitorProperties.FinalRowsWithoutHeader`).
- The status query prints the application id whenever it is not null, even when it is empty. The submission report and the closing report print it only when it is non-empty (`SparkSubmit.EmptyAppIdShownOnlyByQuery`).

## Model

| member | source | states |
|---|---|---|
| Text.EqualsIgnoreCase | spark-submit/src/main/java/com/aliyun/emr/ack/SparkSubmit.java:123-131 | `equalsIgnoreCase` as the deploy-mode check uses it, folding ASCII letters (see Left out); `SparkSubmit.DeployModeWarnedIff` carries its use |
| Text.IndexOf | spark-submit/src/main/java/com/aliyun/emr/ack/SparkSubmitParser.java:47 | the first position of the character, or -1 exactly when it does not occur |
| Text.Trim | spark-submit/src/main/java/com/aliyun/emr/ack/SparkSubmitParser.java:63 | the result is no longer than the input, and a non-empty result neither starts nor ends with a code unit up to the space |
| Text.TrimIsSlice | spark-submit/src/main/java/com/aliyun/emr/ack/SparkSubmitParser.java:63 | the trimmed string is a slice of the input and everything cut off on either side is a code unit up to the space |
| Text.TrimIdempotent | spark-submit/src/main/java/com/aliyun/emr/ack/SparkSubmit.java:27 | trimming twice is trimming once |
| Text.TrimKeepsAbsent | spark-submit/src/main/java/com/aliyun/emr/ack/SparkSubmitParser.java:62-63 | trimming a piece of a split cannot bring back the separator |
| Text.Split | spark-submit/src/main/java/com/aliyun/emr/ack/SparkSubmitParser.java:62 | at least one piece, no piece contains the separator, and the pieces joined with it give back the input |
| Text.Decimal | spark-submit/src/main/java/com/aliyun/emr/ack/KyuubiClient.java:154 | `String.valueOf(int)`: digits, with a leading '-' only in front |
| Text.DigitsRoundTrip | spark-submit/src/main/java/com/aliyun/emr/ack/KyuubiClient.java:154 | reading back the digits of a number gives the number |
| Text.DecimalInjective | spark-submit/src/main/java/com/aliyun/emr/ack/KyuubiClient.java:154 | different numbers print differently |
| Config.Load | spark-submit/src/main/java/com/aliyun/emr/ack/Config.java:54-103 | the settings the constructor loads: each connection setting by precedence with its default, the History Server URL without one, and the default-configuration flag; `Config.LoadPrecedence`, `Config.SettingsIndependent`, `Config.DefaultConfigUsesDefaults` and `Config.DefaultFlagIgnoresHistory` carry its properties |
| Config.FirstPresent | spark-submit/src/main/java/com/aliyun/emr/ack/Config.java:72-73 | reference definition of precedence: none exactly when no candidate is set, otherwise one of the candidates |
| Config.ResolveIsFirstPresent | spark-submit/src/main/java/com/aliyun/emr/ack/Config.java:72-73 | the nested conditional property / environment / file is the first candidate that is set |
| Config.LoadPrecedence | spark-submit/src/main/java/com/aliyun/emr/ack/Config.java:54-97 | server URL, username and password are each the first of property, variable and file key that is set, else the built-in default; the History Server URL has no default |
| Config.SettingsIndependent | spark-submit/src/main/java/com/aliyun/emr/ack/Config.java:54-73 | the server URL depends only on its own property, variable and file key |
| Config.DefaultConfigUsesDefaults | spark-submit/src/main/java/com/aliyun/emr/ack/Config.java:100-103 | when the flag is set, all three connection settings are the built-in defaults |
| Config.DefaultFlagIgnoresHistory | spark-submit/src/main/java/com/aliyun/emr/ack/Config.java:100-103 | the History Server property and variable have no part in the flag |
| Config.ApiPathNotCreatedBySlash | spark-submit/src/main/java/com/aliyun/emr/ack/Config.java:132-135 | appending "/" neither creates nor removes an occurrence of "/api/v1" |
| Config.BaseUrl | spark-submit/src/main/java/com/aliyun/emr/ack/Config.java:130-139 | `getBaseUrl`: starts with the server URL and always contains "/api/v1"; exactly one "/" is added when the URL does not end in one, and exactly "api/v1" more when the URL lacks the path, in which case the result ends in "/api/v1" |
| SubmitArgs.SparkSubmitArgs.constructor | spark-submit/src/main/java/com/aliyun/emr/ack/SparkSubmitArgs.java:12-29 | a fresh record: batch type "SPARK", every collection empty, every other field null |
| SubmitArgs.SparkSubmitArgs.SetName | spark-submit/src/main/java/com/aliyun/emr/ack/SparkSubmitArgs.java:35-37 | sets the name and changes no other field |
| SubmitArgs.SparkSubmitArgs.SetClassName | spark-submit/src/main/java/com/aliyun/emr/ack/SparkSubmitArgs.java:43-45 | sets the class name and changes no other field |
| SubmitArgs.SparkSubmitArgs.SetResource | spark-submit/src/main/java/com/aliyun/emr/ack/SparkSubmitArgs.java:51-53 | sets the resource and changes no other field |
| SubmitArgs.SparkSubmitArgs.SetArgs | spark-submit/src/main/java/com/aliyun/emr/ack/SparkSubmitArgs.java:59-61 | sets the application arguments and changes no other field |
| SubmitArgs.SparkSubmitArgs.SetConf | spark-submit/src/main/java/com/aliyun/emr/ack/SparkSubmitArgs.java:67-69 | sets the configuration and changes no other field |
| SubmitArgs.SparkSubmitArgs.PutConf | spark-submit/src/main/java/com/aliyun/emr/ack/SparkSubmitArgs.java:63-65 | a `put` through `getConf()` adds the entry to the stored map, so later readers see it, and changes no other field |
| SubmitArgs.SparkSubmitArgs.SetPyFiles | spark-submit/src/main/java/com/aliyun/emr/ack/SparkSubmitArgs.java:75-77 | sets the Python files and changes no other field |
| SubmitArgs.SparkSubmitArgs.SetFiles | spark-submit/src/main/java/com/aliyun/emr/ack/SparkSubmitArgs.java:83-85 | sets the files and changes no other field |
| SubmitArgs.SparkSubmitArgs.SetJars | spark-submit/src/main/java/com/aliyun/emr/ack/SparkSubmitArgs.java:91-93 | sets the jars and changes no other field |
| SubmitArgs.SparkSubmitArgs.SetArchives | spark-submit/src/main/java/com/aliyun/emr/ack/SparkSubmitArgs.java:99-101 | sets the archives and changes no other field |
| SubmitArgs.SparkSubmitArgs.SetPackages | spark-submit/src/main/java/com/aliyun/emr/ack/SparkSubmitArgs.java:107-109 | sets the packages and changes no other field |
| SubmitArgs.SparkSubmitArgs.SetRepositories | spark-submit/src/main/java/com/aliyun/emr/ack/SparkSubmitArgs.java:115-117 | sets the repositories and changes no other field |
| SubmitArgs.SparkSubmitArgs.SetBatchType | spark-submit/src/main/java/com/aliyun/emr/ack/SparkSubmitArgs.java:123-125 | sets the batch type and changes no other field |
| SubmitArgs.SparkSubmitArgs.SetProxyUser | spark-submit/src/main/java/com/aliyun/emr/ack/SparkSubmitArgs.java:131-133 | sets the proxy user and changes no other field |
| SubmitArgs.SparkSubmitArgs.SetQueue | spark-submit/src/main/java/com/aliyun/emr/ack/SparkSubmitArgs.java:139-141 | sets the queue and changes no other field |
| SubmitArgs.SparkSubmitArgs.SetDriverCores | spark-submit/src/main/java/com/aliyun/emr/ack/SparkSubmitArgs.java:147-149 | sets the driver cores and changes no other field |
| SubmitArgs.SparkSubmitArgs.SetStatusBatchId | spark-submit/src/main/java/com/aliyun/emr/ack/SparkSubmitArgs.java:155-157 | sets the batch id to query and changes no other field |
| SubmitArgs.SparkSubmitArgs.SetKillBatchId | spark-submit/src/main/java/com/aliyun/emr/ack/SparkSubmitArgs.java:163-165 | sets the batch id to kill and changes no other field |
| SubmitArgs.SparkSubmitArgs.SetDeployMode | spark-submit/src/main/java/com/aliyun/emr/ack/SparkSubmitArgs.java:171-173 | sets the deploy mode and changes no other field |
| Parser.Recognize | spark-submit/src/main/java/com/aliyun/emr/ack/SparkSubmitParser.java:28-170 | which value-taking option an argument names, by the equals chain; `Parser.RecognizedAreOptions` and `Parser.ValueFlagTakesNext` |
| Parser.ConfEntry | spark-submit/src/main/java/com/aliyun/emr/ack/SparkSubmitParser.java:46-52 | the key and value of a `--conf` argument, split at the first '=' past index 0, or none; `Parser.ConfEntrySplitsAtFirstEquals` and `Parser.ConfEntryRoundTrip` |
| Parser.CommaList | spark-submit/src/main/java/com/aliyun/emr/ack/SparkSubmitParser.java:61-67 | the items of a comma-list value: the trimmed non-empty pieces in order; `Parser.CommaListItems` |
| Parser.Apply | spark-submit/src/main/java/com/aliyun/emr/ack/SparkSubmitParser.java:28-170 | the effect of a value-taking option on the record; `Parser.SizingOptionWritesItsKey`, `Parser.SizingOptionsCommute`, `Parser.ApplyKeepsPositional`, `Parser.LaterConfWins` and `Parser.CommaListAccumulates` |
| Parser.ScanFrom | spark-submit/src/main/java/com/aliyun/emr/ack/SparkSubmitParser.java:24-186 | the loop over the arguments from a position on; `Parser.ScanKeepsPositional` |
| Parser.ParseSpec | spark-submit/src/main/java/com/aliyun/emr/ack/SparkSubmitParser.java:13-205 | `parse`: the scan from the defaults, then batch-type inference; `Parser.Parse` is proved equal to it and `Parser.ParsedShape` carries its properties |
| Parser.RecognizedAreOptions | spark-submit/src/main/java/com/aliyun/emr/ack/SparkSubmitParser.java:28-170 | every option the chain of tests recognises starts with "--", except "-c" |
| Parser.ConfEntrySplitsAtFirstEquals | spark-submit/src/main/java/com/aliyun/emr/ack/SparkSubmitParser.java:46-52 | `--conf` gives an entry exactly when the value has an '=' not at its start; the key is non-empty, has no '=', and key "=" value is the whole argument |
| Parser.ConfEntryRoundTrip | spark-submit/src/main/java/com/aliyun/emr/ack/SparkSubmitParser.java:46-52 | a non-empty key without '=' and any value come back unchanged from `key=value` |
| Parser.KeptItems | spark-submit/src/main/java/com/aliyun/emr/ack/SparkSubmitParser.java:62-67 | every kept piece is non-empty, already trimmed and free of commas |
| Parser.CommaListItems | spark-submit/src/main/java/com/aliyun/emr/ack/SparkSubmitParser.java:59-118 | every item a comma-list option contributes is non-empty, trimmed and free of commas |
| Parser.ScanStep | spark-submit/src/main/java/com/aliyun/emr/ack/SparkSubmitParser.java:25-185 | one pass of the loop body moves the position forward by one or two and never past the end, so the scan ends |
| Parser.ValueFlagTakesNext | spark-submit/src/main/java/com/aliyun/emr/ack/SparkSubmitParser.java:28-31 | a value-taking option applies to the next argument and moves past both when there is one; alone at the end it has no effect |
| Parser.UnknownOptionSkipped | spark-submit/src/main/java/com/aliyun/emr/ack/SparkSubmitParser.java:171-175 | an unknown "--" option changes nothing and also skips the next argument exactly when that one does not start with '-' |
| Parser.PositionalStep | spark-submit/src/main/java/com/aliyun/emr/ack/SparkSubmitParser.java:176-184 | the first resource-like positional argument becomes the resource; every other one is appended to the application arguments |
| Parser.LaterConfWins | spark-submit/src/main/java/com/aliyun/emr/ack/SparkSubmitParser.java:44-53 | a later `--conf` entry overwrites an earlier one with the same key |
| Parser.CommaListAccumulates | spark-submit/src/main/java/com/aliyun/emr/ack/SparkSubmitParser.java:59-68 | each `--jars` appends its items after those of earlier ones |
| Parser.ConfKeysDistinct | spark-submit/src/main/java/com/aliyun/emr/ack/SparkSubmitParser.java:119-162 | no two sizing or placement options write the same configuration key |
| Parser.SizingOptionWritesItsKey | spark-submit/src/main/java/com/aliyun/emr/ack/SparkSubmitParser.java:119-162 | a sizing or placement option sets its own key to its value, keeps every other key, and changes no field except the queue or driver cores that `--queue` and `--driver-cores` also set |
| Parser.SizingOptionsCommute | spark-submit/src/main/java/com/aliyun/emr/ack/SparkSubmitParser.java:119-162 | two different sizing or placement options give the same record in either order |
| Parser.ApplyKeepsPositional | spark-submit/src/main/java/com/aliyun/emr/ack/SparkSubmitParser.java:28-170 | no value-taking option touches the resource or the application arguments |
| Parser.StepKeepsPositional | spark-submit/src/main/java/com/aliyun/emr/ack/SparkSubmitParser.java:25-185 | one pass of the loop keeps the parsed positional state well formed |
| Parser.ScanKeepsPositional | spark-submit/src/main/java/com/aliyun/emr/ack/SparkSubmitParser.java:25-186 | the whole scan keeps the parsed positional state well formed |
| Parser.ParsedShape | spark-submit/src/main/java/com/aliyun/emr/ack/SparkSubmitParser.java:13-205 | no application argument starts with "--" and each is an input argument; the resource is a resource-like input argument; the batch type is "PYSPARK" exactly for a ".py" resource and "SPARK" otherwise |
| Parser.AppendKept | spark-submit/src/main/java/com/aliyun/emr/ack/SparkSubmitParser.java:62-67 | the loop over the pieces appends exactly the trimmed, non-empty pieces, in order |
| Parser.AppendListValue | spark-submit/src/main/java/com/aliyun/emr/ack/SparkSubmitParser.java:59-68 | a comma-list option appends its value's items to its list |
| Parser.TakeValue | spark-submit/src/main/java/com/aliyun/emr/ack/SparkSubmitParser.java:28-170 | the branch for a value-taking option leaves the record and the local lists as the option's effect prescribes |
| Parser.Parse | spark-submit/src/main/java/com/aliyun/emr/ack/SparkSubmitParser.java:13-205 | `parse(args)` returns a fresh record whose value is the scan of the arguments from the defaults, followed by batch-type inference |
| Kyuubi.IsFinished | spark-submit/src/main/java/com/aliyun/emr/ack/KyuubiClient.java:243-245 | `isFinished`; `Kyuubi.FinishedExactlyTerminal` |
| Kyuubi.IsSuccess | spark-submit/src/main/java/com/aliyun/emr/ack/KyuubiClient.java:117-118 | the 2xx test of the client calls; `Kyuubi.Complete` and `Kyuubi.KillTestIsComplement` |
| Kyuubi.KillFailed | spark-submit/src/main/java/com/aliyun/emr/ack/KyuubiClient.java:183-184 | the failure test of `killBatch`; `Kyuubi.KillTestIsComplement` |
| Kyuubi.SubmitUrl | spark-submit/src/main/java/com/aliyun/emr/ack/KyuubiClient.java:45 | the submit endpoint under a base URL; `Kyuubi.ApiPathGivesEmptySegment` and `Kyuubi.SubmitUrlSingleSlash` |
| Kyuubi.BatchUrl | spark-submit/src/main/java/com/aliyun/emr/ack/KyuubiClient.java:131 | the status endpoint, also the kill endpoint of line 177; `Kyuubi.BatchUrlExtendsSubmitUrl` |
| Kyuubi.LogsUrl | spark-submit/src/main/java/com/aliyun/emr/ack/KyuubiClient.java:154 | the log endpoint with its `from` and `size` query; `Kyuubi.LogsUrlInjective` and `MonitorProperties.DrainUrlsDistinct` |
| Kyuubi.FinishedExactlyTerminal | spark-submit/src/main/java/com/aliyun/emr/ack/KyuubiClient.java:243-245 | `isFinished` holds exactly for FINISHED, ERROR and CANCELED; a null state is never finished |
| Kyuubi.KillTestIsComplement | spark-submit/src/main/java/com/aliyun/emr/ack/KyuubiClient.java:183-184 | the kill call's failure test is the negation of the other calls' success test, which is 200 to 299 |
| Kyuubi.Complete | spark-submit/src/main/java/com/aliyun/emr/ack/KyuubiClient.java:113-124 | a call succeeds exactly on a 2xx response and then returns the decoded body; otherwise the error names the operation and ends with the response body, and a network error passes through |
| Kyuubi.BatchUrlExtendsSubmitUrl | spark-submit/src/main/java/com/aliyun/emr/ack/KyuubiClient.java:131 | the status and kill URL is the submit URL followed by "/" and the batch id |
| Kyuubi.LogsUrlInjective | spark-submit/src/main/java/com/aliyun/emr/ack/KyuubiClient.java:154 | the log URL determines the requested first row and size |
| Kyuubi.FieldNamesDistinct | spark-submit/src/main/java/com/aliyun/emr/ack/KyuubiClient.java:47-104 | distinct request fields have distinct JSON names |
| Kyuubi.CopyConf | spark-submit/src/main/java/com/aliyun/emr/ack/KyuubiClient.java:68-72 | the copy loop copies every user entry and nothing else |
| Kyuubi.BuildConf | spark-submit/src/main/java/com/aliyun/emr/ack/KyuubiClient.java:67-79 | the configuration sent holds every user entry, the submitted-by label as "spark-submit" unless the user gave one, and the proxy user (over any user value) exactly when one is given |
| Kyuubi.AddFileLists | spark-submit/src/main/java/com/aliyun/emr/ack/KyuubiClient.java:82-93 | `pyFiles`, `files`, `jars` and `archives` are present exactly when non-empty, with their items in order; nothing else changes |
| Kyuubi.AddOtherLists | spark-submit/src/main/java/com/aliyun/emr/ack/KyuubiClient.java:94-104 | `packages`, `repositories` and `args` are present exactly when non-empty, with their items in order; nothing else changes |
| Kyuubi.AddLists | spark-submit/src/main/java/com/aliyun/emr/ack/KyuubiClient.java:82-104 | all seven list fields, present exactly when non-empty and in order; nothing else changes |
| Kyuubi.ScalarFields | spark-submit/src/main/java/com/aliyun/emr/ack/KyuubiClient.java:47-64 | `batchType`, `resource` and `name` always present, the name defaulting to "spark-submit-job"; `className`, `proxyUser` and `queue` present exactly when non-empty |
| Kyuubi.BuildRequest | spark-submit/src/main/java/com/aliyun/emr/ack/KyuubiClient.java:44-104 | the whole request body (`Kyuubi.RequestFor`): `batchType`, `resource` and the name with its default; `className`, `proxyUser` and `queue` exactly when non-empty; the `conf` object with the label and proxy-user rules; and each of the seven lists exactly when non-empty, with its items in order |
| Kyuubi.ApiPathGivesEmptySegment | spark-submit/src/main/java/com/aliyun/emr/ack/KyuubiClient.java:45 | with "/api/v1" already in the server URL, the submit URL as written contains "//batches" |
| Kyuubi.ApiPathExample | spark-submit/src/main/java/com/aliyun/emr/ack/KyuubiClient.java:45 | "http://kyuubi:10099/api/v1" gives a submit URL containing "//batches" |
| Kyuubi.ApiBaseUrl | spark-submit/src/main/java/com/aliyun/emr/ack/Config.java:130-139 | the corrected base: contains "/api/v1", ends in no "/", and is a prefix of `getBaseUrl()` |
| Kyuubi.SubmitUrlSingleSlash | spark-submit/src/main/java/com/aliyun/emr/ack/KyuubiClient.java:45 | over the corrected base the "/" before "batches" follows a character that is not a slash, for every server URL; the corrected submit URL differs from `getBaseUrl() + "/batches"` exactly when the server URL already contains "/api/v1" |
| Console.Rows | spark-submit/src/main/java/com/aliyun/emr/ack/SparkSubmit.java:246-248 | one line per row |
| Console.RowsAt | spark-submit/src/main/java/com/aliyun/emr/ack/SparkSubmit.java:246-248 | the i-th line prints the i-th row |
| Console.RowsAppend | spark-submit/src/main/java/com/aliyun/emr/ack/SparkSubmit.java:246-259 | printing two batches of rows is printing their concatenation |
| History.GetApplicationUrl | spark-submit/src/main/java/com/aliyun/emr/ack/SparkSubmit.java:41-49 | `getApplicationUrl`; `History.ApplicationUrlIsHistoryUrl` |
| History.HistoryBase | spark-submit/src/main/java/com/aliyun/emr/ack/SparkSubmit.java:27-30 | the trimmed base with at most one trailing "/" removed, and one removed exactly when it ends in "/" |
| History.BuildHistoryServerUrl | spark-submit/src/main/java/com/aliyun/emr/ack/SparkSubmit.java:20-35 | no link exactly when the base or the application id is null or empty |
| History.LinkShape | spark-submit/src/main/java/com/aliyun/emr/ack/SparkSubmit.java:34 | a link starts with the base and "/history/", ends with the id and "/1/", and has nothing else |
| History.HistoryUrlShape | spark-submit/src/main/java/com/aliyun/emr/ack/SparkSubmit.java:20-35 | with both inputs non-empty, the link is the adjusted base, "/history/", the id and "/1/" |
| History.HistoryUrlDeterminesApp | spark-submit/src/main/java/com/aliyun/emr/ack/SparkSubmit.java:34 | different application ids give different links |
| History.HistoryUrlTrimInvariant | spark-submit/src/main/java/com/aliyun/emr/ack/SparkSubmit.java:27-30 | white space around a configured URL that is not blank makes no difference |
| History.SameTrimSameBase | spark-submit/src/main/java/com/aliyun/emr/ack/SparkSubmit.java:27-30 | the base depends on the configured URL only through its trimmed form |
| History.OnlyOneSlashRemoved | spark-submit/src/main/java/com/aliyun/emr/ack/SparkSubmit.java:28-30 | a base ending in "//" keeps one of its slashes |
| History.ApplicationUrlIsHistoryUrl | spark-submit/src/main/java/com/aliyun/emr/ack/SparkSubmit.java:41-49 | `getApplicationUrl` equals `buildHistoryServerUrl` on every input and gives a link exactly under the same guard; the server's own URL is never used |
| Monitor.ReportState | spark-submit/src/main/java/com/aliyun/emr/ack/SparkSubmit.java:226-236 | a successful status fetch: the counter cleared and a changed non-null state reported; `MonitorProperties.SuccessfulPoll` |
| Monitor.PrintPage | spark-submit/src/main/java/com/aliyun/emr/ack/SparkSubmit.java:241-249 | a page with rows printed, with the header before the session's first rows; `MonitorProperties.PrintPageTwice` and `MonitorProperties.PrintPageConsistent` |
| Monitor.LogFetchFailed | spark-submit/src/main/java/com/aliyun/emr/ack/SparkSubmit.java:265-270 | the handler of a failed log fetch; `MonitorProperties.LogFailureHarmless` and `MonitorProperties.LogWarningEveryTime` |
| Monitor.DrainFrom | spark-submit/src/main/java/com/aliyun/emr/ack/SparkSubmit.java:239-270 | the log fetches of a tick; `Monitor.MonitorSession.FetchLogs` is proved against it, and `MonitorProperties.DrainClosedForm`, `MonitorProperties.DrainKeeps`, `MonitorProperties.DrainAppends` and `MonitorProperties.DrainConsistent` carry its properties |
| Monitor.Report | spark-submit/src/main/java/com/aliyun/emr/ack/SparkSubmit.java:274-314 | what a terminal status prints; `MonitorProperties.ReportIsPlain` and `MonitorProperties.ReportStartsWithRows` |
| Monitor.Finish | spark-submit/src/main/java/com/aliyun/emr/ack/SparkSubmit.java:273-315 | a terminal status: the report and the exit code; `MonitorProperties.ExitCodes`, `MonitorProperties.FinalFetchKeepsCursor` and `MonitorProperties.FinishedWithoutDrain` |
| Monitor.StatusFetchFailed | spark-submit/src/main/java/com/aliyun/emr/ack/SparkSubmit.java:322-334 | a failed status fetch; `MonitorProperties.StatusWarningOncePerStreak` and `MonitorProperties.FailuresCount` |
| Monitor.Step | spark-submit/src/main/java/com/aliyun/emr/ack/SparkSubmit.java:222-334 | one iteration of the polling loop; `Monitor.MonitorSession.Poll` is proved against it, and `MonitorProperties.SuccessfulPoll`, `MonitorProperties.ExitCodes`, `MonitorProperties.StepConsistent` and `MonitorProperties.StepGrows` carry its properties |
| Monitor.Loop | spark-submit/src/main/java/com/aliyun/emr/ack/SparkSubmit.java:221-335 | the polling loop over a script of ticks; `Monitor.MonitorSession.Run` is proved against it, and `MonitorProperties.LoopConsistent`, `MonitorProperties.LoopConcat`, `MonitorProperties.EndedStaysEnded`, `MonitorProperties.FiveFailuresEnd` and `MonitorProperties.LoopGrows` carry its properties |
| Monitor.DrainRequests | spark-submit/src/main/java/com/aliyun/emr/ack/SparkSubmit.java:240-254 | the log requests of a tick's drain; `MonitorProperties.DrainRequestsChain`, `MonitorProperties.DrainRequestsSpaced` and `MonitorProperties.DrainRequestCount` |
| Monitor.StepRequests | spark-submit/src/main/java/com/aliyun/emr/ack/SparkSubmit.java:222-276 | the log requests of one tick; `MonitorProperties.StepRequestsShape` and `MonitorProperties.StepRequestsForward` |
| Monitor.LoopRequests | spark-submit/src/main/java/com/aliyun/emr/ack/SparkSubmit.java:221-335 | the log requests of the whole loop; `MonitorProperties.LoopRequestsForward` |
| Monitor.MonitorSession.constructor | spark-submit/src/main/java/com/aliyun/emr/ack/SparkSubmit.java:215-218 | cursor 0, the submission's state as last state, no errors, header not yet printed, nothing printed |
| Monitor.MonitorSession.Print | spark-submit/src/main/java/com/aliyun/emr/ack/SparkSubmit.java:233 | one line appended to the output and nothing else changed |
| Monitor.MonitorSession.PrintRows | spark-submit/src/main/java/com/aliyun/emr/ack/SparkSubmit.java:246-248 | the `for` loop prints the rows in order and changes nothing else |
| Monitor.MonitorSession.ShowPage | spark-submit/src/main/java/com/aliyun/emr/ack/SparkSubmit.java:241-249 | the first page of a tick: header before the very first rows of the session, the rows, cursor moved by their number |
| Monitor.MonitorSession.ShowMore | spark-submit/src/main/java/com/aliyun/emr/ack/SparkSubmit.java:255-259 | a further page: the rows, cursor moved by their number |
| Monitor.MonitorSession.WarnLogFailure | spark-submit/src/main/java/com/aliyun/emr/ack/SparkSubmit.java:265-270 | a failed log fetch prints the warning when the counter is zero and changes nothing else |
| Monitor.MonitorSession.Fetch | spark-submit/src/main/java/com/aliyun/emr/ack/SparkSubmit.java:240-254 | one `getBatchLogs` call: the request asks for a page of 100 rows from the cursor, and the reply is the scripted one |
| Monitor.MonitorSession.FetchLogs | spark-submit/src/main/java/com/aliyun/emr/ack/SparkSubmit.java:239-270 | the first fetch and the drain loop leave the session as the drain specification prescribes, and send exactly the drain's log requests |
| Monitor.MonitorSession.FinishJob | spark-submit/src/main/java/com/aliyun/emr/ack/SparkSubmit.java:273-315 | a terminal status sends the final log request from the cursor, appends the report and sets the exit code |
| Monitor.MonitorSession.Poll | spark-submit/src/main/java/com/aliyun/emr/ack/SparkSubmit.java:222-334 | one iteration of the loop leaves the session as one step of the specification and sends that step's log requests |
| Monitor.MonitorSession.Run | spark-submit/src/main/java/com/aliyun/emr/ack/SparkSubmit.java:221-335 | the loop over the ticks leaves the session as the loop specification and sends the loop's log requests in order |
| MonitorProperties.RowsArePlain | spark-submit/src/main/java/com/aliyun/emr/ack/SparkSubmit.java:246-248 | printed log rows contain no header and no status line |
| MonitorProperties.HeaderOnce | spark-submit/src/main/java/com/aliyun/emr/ack/SparkSubmit.java:242-245 | printing the header once before header-free lines leaves exactly one header |
| MonitorProperties.ReportIsPlain | spark-submit/src/main/java/com/aliyun/emr/ack/SparkSubmit.java:276-314 | the terminal report contains no header and no status line |
| MonitorProperties.ReportStartsWithRows | spark-submit/src/main/java/com/aliyun/emr/ack/SparkSubmit.java:276-281 | the terminal report opens with the rows of the final fetch |
| MonitorProperties.PrintPageTwice | spark-submit/src/main/java/com/aliyun/emr/ack/SparkSubmit.java:252-259 | printing two runs of rows in turn is printing them as one, with the header at most once |
| MonitorProperties.DrainClosedForm | spark-submit/src/main/java/com/aliyun/emr/ack/SparkSubmit.java:239-264 | after full pages up to the first failed or short page, exactly their rows (and the last page's) are printed as one run, with at most one header, and the cursor moves by their number |
| MonitorProperties.DrainExample | spark-submit/src/main/java/com/aliyun/emr/ack/SparkSubmit.java:252-263 | a full page followed by thirty rows moves the cursor by 130 and prints the 130 rows in order |
| MonitorProperties.DrainKeeps | spark-submit/src/main/java/com/aliyun/emr/ack/SparkSubmit.java:239-264 | the drain leaves state, counter and exit alone and never moves the cursor back |
| MonitorProperties.DrainAppends | spark-submit/src/main/java/com/aliyun/emr/ack/SparkSubmit.java:239-270 | the drain only appends lines, none of them a status line |
| MonitorProperties.SuccessfulPoll | spark-submit/src/main/java/com/aliyun/emr/ack/SparkSubmit.java:226-236 | a successful status fetch clears the counter and remembers a non-null state; a status line is printed exactly when the state is non-null and differs, and then as the first line of the tick |
| MonitorProperties.AfterReport | spark-submit/src/main/java/com/aliyun/emr/ack/SparkSubmit.java:238-315 | after the status line, a successful tick adds no status line |
| MonitorProperties.ExitCodes | spark-submit/src/main/java/com/aliyun/emr/ack/SparkSubmit.java:304-334 | exit 130 exactly on an interrupt, 0 exactly on FINISHED, 1 exactly on ERROR or CANCELED or the fifth consecutive status error; otherwise the session goes on |
| MonitorProperties.FinalFetchKeepsCursor | spark-submit/src/main/java/com/aliyun/emr/ack/SparkSubmit.java:275-284 | the final log fetch never moves the cursor |
| MonitorProperties.FinishedWithoutDrain | spark-submit/src/main/java/com/aliyun/emr/ack/SparkSubmit.java:273-315 | a terminal tick with no new state and no log pages prints the report and nothing else |
| MonitorProperties.FinalRowsWithoutHeader | spark-submit/src/main/java/com/aliyun/emr/ack/SparkSubmit.java:276-281 | rows first seen in the final fetch are printed without the log header |
| MonitorProperties.LogWarningEveryTime | spark-submit/src/main/java/com/aliyun/emr/ack/SparkSubmit.java:265-270 | a failed log fetch warns on every tick whose status fetch succeeded |
| MonitorProperties.LogFailureHarmless | spark-submit/src/main/java/com/aliyun/emr/ack/SparkSubmit.java:265-270 | a failed log fetch changes nothing but the output, which it only extends |
| MonitorProperties.StatusWarningOncePerStreak | spark-submit/src/main/java/com/aliyun/emr/ack/SparkSubmit.java:322-332 | a failed status fetch counts one more error; the first of a streak warns, later ones print nothing until the fifth |
| MonitorProperties.StartConsistent | spark-submit/src/main/java/com/aliyun/emr/ack/SparkSubmit.java:215-218 | the session starts consistent: cursor and counter non-negative, header flag set exactly while no header is printed |
| MonitorProperties.PrintPageConsistent | spark-submit/src/main/java/com/aliyun/emr/ack/SparkSubmit.java:241-249 | printing a page keeps the session consistent |
| MonitorProperties.DrainConsistent | spark-submit/src/main/java/com/aliyun/emr/ack/SparkSubmit.java:239-264 | the drain keeps the session consistent |
| MonitorProperties.StepConsistent | spark-submit/src/main/java/com/aliyun/emr/ack/SparkSubmit.java:222-334 | every tick keeps the session consistent: at most one header, counter below five while running |
| MonitorProperties.LoopConsistent | spark-submit/src/main/java/com/aliyun/emr/ack/SparkSubmit.java:221-335 | the whole loop keeps the session consistent |
| MonitorProperties.LoopConcat | spark-submit/src/main/java/com/aliyun/emr/ack/SparkSubmit.java:221-335 | running two scripts in turn is running their concatenation |
| MonitorProperties.EndedStaysEnded | spark-submit/src/main/java/com/aliyun/emr/ack/SparkSubmit.java:221-335 | once an exit code is set no tick changes anything |
| MonitorProperties.FailuresCount | spark-submit/src/main/java/com/aliyun/emr/ack/SparkSubmit.java:322-334 | consecutive failed status fetches are counted; four in a row leave the session running, the fifth ends it with exit 1 |
| MonitorProperties.StreakBrokenBySuccess | spark-submit/src/main/java/com/aliyun/emr/ack/SparkSubmit.java:226-227 | four failures, a success and four more failures leave the session running |
| MonitorProperties.FiveFailuresEnd | spark-submit/src/main/java/com/aliyun/emr/ack/SparkSubmit.java:323-328 | five failures in a row from the start end the session with exit 1 |
| MonitorProperties.StepGrows | spark-submit/src/main/java/com/aliyun/emr/ack/SparkSubmit.java:222-334 | a tick never moves the cursor back and never takes back a printed line |
| MonitorProperties.LoopGrows | spark-submit/src/main/java/com/aliyun/emr/ack/SparkSubmit.java:221-335 | over a whole session the cursor only moves forward and the output only grows |
| MonitorProperties.DrainRequestsChain | spark-submit/src/main/java/com/aliyun/emr/ack/SparkSubmit.java:240-254 | the `j`-th log request of a drain asks for 100 rows from the cursor moved past exactly the rows of the full pages before it |
| MonitorProperties.DrainRequestsSpaced | spark-submit/src/main/java/com/aliyun/emr/ack/SparkSubmit.java:240-254 | the drain asks for consecutive pages: its `i`-th request starts `i` pages of 100 past the cursor |
| MonitorProperties.DrainUrlsDistinct | spark-submit/src/main/java/com/aliyun/emr/ack/KyuubiClient.java:154 | no two log requests of one drain go to the same URL |
| MonitorProperties.DrainRequestCount | spark-submit/src/main/java/com/aliyun/emr/ack/SparkSubmit.java:251-262 | a drain whose `j`-th fetch fails or returns a short page makes exactly the requests up to that one |
| MonitorProperties.DrainRequestsForward | spark-submit/src/main/java/com/aliyun/emr/ack/SparkSubmit.java:240-263 | a drain's requests ask for pages of 100, in non-decreasing order, from between the cursor it starts at and the cursor it leaves |
| MonitorProperties.StepRequestsShape | spark-submit/src/main/java/com/aliyun/emr/ack/SparkSubmit.java:226-276 | a tick sends log requests exactly when its status fetch succeeded; the first asks from the tick's cursor, and on a terminal status the last is the final fetch from the cursor the tick leaves |
| MonitorProperties.StepRequestsForward | spark-submit/src/main/java/com/aliyun/emr/ack/SparkSubmit.java:222-276 | a tick's log requests go forward, between its starting and ending cursors |
| MonitorProperties.LoopRequestsForward | spark-submit/src/main/java/com/aliyun/emr/ack/SparkSubmit.java:221-335 | over a whole session the log requests go forward, from the first cursor to the last |
| SparkSubmit.Decide | spark-submit/src/main/java/com/aliyun/emr/ack/SparkSubmit.java:53-118 | what `main` goes on to do with its arguments, in the order of its checks; `SparkSubmit.ConflictIff` and `SparkSubmit.SubmittedJobIsComplete` |
| SparkSubmit.Decided | spark-submit/src/main/java/com/aliyun/emr/ack/SparkSubmit.java:64-118 | the checks of `main` on the parsed record, in order; `SparkSubmit.Dispatch` is proved against it |
| SparkSubmit.DeployModeWarning | spark-submit/src/main/java/com/aliyun/emr/ack/SparkSubmit.java:121-141 | the warning of the deploy-mode check; `SparkSubmit.DeployModeWarnedIff` |
| SparkSubmit.WithClusterMode | spark-submit/src/main/java/com/aliyun/emr/ack/SparkSubmit.java:121-147 | the record after the deploy-mode check; `SparkSubmit.ClusterModeIdempotent`, `SparkSubmit.ClusterModeKeepsTheRest` and `SparkSubmit.ClusterModeSent` |
| SparkSubmit.StatusReport | spark-submit/src/main/java/com/aliyun/emr/ack/SparkSubmit.java:79-92 | the answer to `--status`; `SparkSubmit.EmptyAppIdShownOnlyByQuery` |
| SparkSubmit.SubmittedReport | spark-submit/src/main/java/com/aliyun/emr/ack/SparkSubmit.java:201-212 | what a successful submission prints before polling; `SparkSubmit.EmptyAppIdShownOnlyByQuery` and `SparkSubmit.SubmissionOutput` |
| SparkSubmit.Invocation | spark-submit/src/main/java/com/aliyun/emr/ack/SparkSubmit.java:51-354 | `main` from the arguments to the output, the exit code and the job sent; `SparkSubmit.Execute` is proved against it, and `SparkSubmit.InvocationExitCodes` and `SparkSubmit.SubmittedJobIsComplete` carry its properties |
| SparkSubmit.Perform | spark-submit/src/main/java/com/aliyun/emr/ack/SparkSubmit.java:63-118 | what each command prints and exits with; `SparkSubmit.InvocationExitCodes` |
| SparkSubmit.Submission | spark-submit/src/main/java/com/aliyun/emr/ack/SparkSubmit.java:120-335 | a validated job: the warning, the submission and the session; `SparkSubmit.SubmitAndFollow` is proved against it, and `SparkSubmit.SubmissionOutput` carries its properties |
| SparkSubmit.NormalizeDeployMode | spark-submit/src/main/java/com/aliyun/emr/ack/SparkSubmit.java:121-147 | afterwards the deploy mode and `spark.submit.deployMode` say cluster whatever the input, nothing else changes, and the warning is the one for the given mode |
| SparkSubmit.Execute | spark-submit/src/main/java/com/aliyun/emr/ack/SparkSubmit.java:51-354 | `main`: what is printed, the exit code and the job sent are those of the invocation; a request is posted exactly when a job is sent, and it is the whole body `submitBatch` builds for that job |
| SparkSubmit.Dispatch | spark-submit/src/main/java/com/aliyun/emr/ack/SparkSubmit.java:64-118 | the checks of `main` on the parsed record, in order, then the submission; a request is posted exactly when a job is sent, and it is the whole body built for that job |
| SparkSubmit.SubmitAndFollow | spark-submit/src/main/java/com/aliyun/emr/ack/SparkSubmit.java:120-335 | the deploy-mode check, then the whole request body built from the adjusted record, and the monitoring session |
| SparkSubmit.ConflictIff | spark-submit/src/main/java/com/aliyun/emr/ack/SparkSubmit.java:64-67 | `--status` with `--kill` is refused with exit 1 exactly when both are parsed |
| SparkSubmit.SubmittedJobIsComplete | spark-submit/src/main/java/com/aliyun/emr/ack/SparkSubmit.java:105-147 | a job is sent exactly for a submission, and then it is the parsed job in cluster mode, with a resource-like resource from the arguments and a class unless it is a ".py" script |
| SparkSubmit.ClusterModeSent | spark-submit/src/main/java/com/aliyun/emr/ack/SparkSubmit.java:128-146 | the configuration sent for an adjusted job says cluster under `spark.submit.deployMode` |
| SparkSubmit.DeployModeWarnedIff | spark-submit/src/main/java/com/aliyun/emr/ack/SparkSubmit.java:121-136 | a warning is printed exactly for a non-empty mode that is not "cluster" in any case |
| SparkSubmit.ClusterModeIdempotent | spark-submit/src/main/java/com/aliyun/emr/ack/SparkSubmit.java:121-147 | adjusting twice is adjusting once, and an adjusted job draws no warning |
| SparkSubmit.ClusterModeKeepsTheRest | spark-submit/src/main/java/com/aliyun/emr/ack/SparkSubmit.java:121-147 | the adjustment changes only the deploy mode and one configuration entry |
| SparkSubmit.InvocationExitCodes | spark-submit/src/main/java/com/aliyun/emr/ack/SparkSubmit.java:51-354 | exit 0 exactly for help, an answered query or kill, or a session that ends with 0; a refused command line or a failed call gives 1 |
| SparkSubmit.SubmissionOutput | spark-submit/src/main/java/com/aliyun/emr/ack/SparkSubmit.java:197-212 | a successful submission prints the deploy-mode warning, the submission report, then the session's output |
| SparkSubmit.EmptyAppIdShownOnlyByQuery | spark-submit/src/main/java/com/aliyun/emr/ack/SparkSubmit.java:83-85 | the status query prints an empty application id, the submission report does not |
| SparkSubmit.ScriptNeedsNoClass | spark-submit/src/main/java/com/aliyun/emr/ack/SparkSubmit.java:112-118 | a ".py" resource is submitted as PYSPARK without a class |
| SparkSubmit.JarNeedsClass | spark-submit/src/main/java/com/aliyun/emr/ack/SparkSubmit.java:112-118 | a jar without `--class` is refused |
| SparkSubmit.StatusAndKillExample | spark-submit/src/main/java/com/aliyun/emr/ack/SparkSubmit.java:64-67 | `--status` and `--kill` together are refused |

## Left out

- The HTTP transport, the `Authorization: Basic` header with its Base64 encoding, and Gson encoding and decoding. A reply is an input, and a decoded body is never null.
- `Thread.sleep` and the poll interval. A tick stands for one iteration, and an interrupt (delivered during the sleep in the source) is a tick of its own.
- Reading the config file, `System.getenv` and `System.getProperty`. Their results are the maps of `Config.Sources`. A read error leaves whatever properties were loaded, which is also a map.
- SparkSubmit.Execute: its output leaves out everything printed to inform rather than decide. That covers the configuration diagnostics of `loadConfig` and `validateAndPrintWarning`, the submission banner (SparkSubmit.java lines 149-195, whose configuration listing follows `HashMap` order), the usage text, the "Cause:" line and the stack trace of the outer handler.
- The iteration order of the configuration map. The configuration is a `map`, and the order in which entries are copied or printed is not modelled.
- `client.close()` and the exceptions it may throw.
- Java `int` overflow of the log cursor and the error counter. Both are unbounded integers here.
- Text.EqualsIgnoreCase: folds ASCII letters only. Java's `equalsIgnoreCase` also matches a non-ASCII character whose upper or lower case is an ASCII letter: U+017F (long s) upper-cases to 'S', U+0131 (dotless i) to 'I', and U+0130 (dotted capital I) lower-cases to 'i'. So for a `--deploy-mode` such as "clu\u017Fter" the source prints no warning, and for "cl\u0131ent" it prints the client-mode warning, while `SparkSubmit.DeployModeWarning` prints the invalid-mode warning for both. The two differ only on values that contain such characters. Full Unicode case tables are not modelled.
- Text.Split: keeps trailing empty pieces, which Java's `split(",")` drops. Every caller discards empty pieces after trimming, so the items of a comma list are the same.
- Monitor.Loop: a script of ticks is finite. When the script ends before an exit code is set, the session is left unfinished, where the source would keep polling. Log fetches beyond a tick's script find no rows, so an endless run of full pages is not representable.
- The response fields the client never reads (user, times, Kyuubi instance, the row count of a log page).
- `Config.getConfigFile` and the other getters. The model reads the record's fields directly.

## Findings

| source | as written | input that shows it | evidently intended | confidence | as-written member | corrected member |
|---|---|---|---|---|---|---|
| spark-submit/src/main/java/com/aliyun/emr/ack/Config.java:130-139 | `getBaseUrl` first makes sure the URL ends in "/" and only then checks for "/api/v1". A server URL that already names the API path keeps the added "/", and `submitBatch` then appends "/batches" after it | server URL `http://kyuubi:10099/api/v1` gives the submit URL `http://kyuubi:10099/api/v1//batches` | a base URL without a trailing "/", so that the endpoints get a single "/" before "batches" | not executed | Kyuubi.ApiPathExample | Kyuubi.SubmitUrlSingleSlash |

`Kyuubi.ApiPathGivesEmptySegment` proves the general case: every server URL containing "/api/v1" gives a submit URL containing "//batches". `Kyuubi.ApiBaseUrl` is the corrected base, which is `getBaseUrl()` without its trailing slashes. It coincides with `getBaseUrl()` for every server URL that does not already name the API path. The endpoint functions of the model (`Kyuubi.SubmitUrl`, `Kyuubi.BatchUrl`, `Kyuubi.LogsUrl`) take the base as a parameter, and `Kyuubi.SubmitUrlSingleSlash` instantiates it with the corrected base.
