/**
 * The REST client (KyuubiClient.java): the request body of a batch
 * submission, the endpoint URLs, the 2xx test every call applies to its
 * response, and the terminal-state test of a batch.
 *
 * The transport is an oracle: a call's `Reply` is either a network error or
 * a response with a status code, a status line, a body, and the value the
 * body decodes to.
 */
module Kyuubi {
  import opened Wrappers
  import opened Text
  import opened SubmitArgs
  import Config

  /** The fields of a batch response the client reads. */
  datatype BatchStatus = BatchStatus(
    id: Option<string>,
    state: Option<string>,
    appId: Option<string>,
    appUrl: Option<string>,
    appDiagnostic: Option<string>)

  /** A page of the batch's local log; `logRowSet` is null when the field is missing. */
  datatype LogPage = LogPage(logRowSet: Option<seq<string>>)

  const TerminalStates: set<string> := {"FINISHED", "ERROR", "CANCELED"}

  /** `BatchResponse.isFinished()` */
  predicate IsFinished(b: BatchStatus) {
    Some("FINISHED") == b.state || Some("ERROR") == b.state || Some("CANCELED") == b.state
  }

  /** Exactly the three terminal states finish a batch; a missing state never does. */
  lemma FinishedExactlyTerminal(b: BatchStatus)
    ensures IsFinished(b) <==> b.state.Some? && b.state.value in TerminalStates
  {
  }

  /** The test of `submitBatch`, `getBatch` and `getBatchLogs`. */
  predicate IsSuccess(code: int) {
    code >= 200 && code < 300
  }

  /** The test of `killBatch`, written the other way round. */
  predicate KillFailed(code: int) {
    code < 200 || code >= 300
  }

  /** All four calls agree on what a successful response is. */
  lemma KillTestIsComplement(code: int)
    ensures KillFailed(code) <==> !IsSuccess(code)
    ensures IsSuccess(code) <==> 200 <= code <= 299
  {
  }

  datatype Reply<T> =
    | NetworkError(message: string)
    | Response(code: int, statusLine: string, body: string, decoded: T)

  datatype Result<T> = Ok(value: T) | Failed(message: string)

  /**
   * What a call makes of its reply: the decoded body on a 2xx status, and
   * otherwise an error naming the operation, the status line and the body.
   */
  function Complete<T>(operation: string, r: Reply<T>): (res: Result<T>)
    ensures res.Ok? <==> r.Response? && IsSuccess(r.code)
    ensures res.Ok? ==> res.value == r.decoded
    ensures r.NetworkError? ==> res == Failed(r.message)
    ensures r.Response? && !IsSuccess(r.code) ==>
              StartsWith(res.message, "Failed to " + operation + ": ") && EndsWith(res.message, r.body)
  {
    match r
    case NetworkError(m) => Failed(m)
    case Response(code, line, body, v) =>
      if code >= 200 && code < 300 then Ok(v)
      else
        var m := "Failed to " + operation + ": " + line + ", response: " + body;
        assert m[..|"Failed to " + operation + ": "|] == "Failed to " + operation + ": ";
        Failed(m)
  }

  function SubmitBatch(r: Reply<BatchStatus>): Result<BatchStatus> { Complete("submit batch", r) }
  function GetBatch(r: Reply<BatchStatus>): Result<BatchStatus> { Complete("get batch", r) }
  function GetBatchLogs(r: Reply<LogPage>): Result<LogPage> { Complete("get batch logs", r) }
  function KillBatch(r: Reply<()>): Result<()> { Complete("kill batch", r) }

  // Endpoint URLs, over the base URL of `Config.getBaseUrl()`.

  function SubmitUrl(base: string): string {
    base + "/batches"
  }

  function BatchUrl(base: string, batchId: string): string {
    base + "/batches/" + batchId
  }

  /** The query of a log request: the window's first row and its size. */
  function LogsQuery(from: int, size: int): string {
    "from=" + Decimal(from) + "&size=" + Decimal(size)
  }

  function LogsUrl(base: string, batchId: string, from: int, size: int): string {
    BatchUrl(base, batchId) + "/localLog?" + LogsQuery(from, size)
  }

  /** Status and kill share one URL, the submit URL followed by "/" and the batch id. */
  lemma BatchUrlExtendsSubmitUrl(base: string, batchId: string)
    ensures BatchUrl(base, batchId) == SubmitUrl(base) + "/" + batchId
    ensures StartsWith(BatchUrl(base, batchId), SubmitUrl(base))
  {
    assert BatchUrl(base, batchId)[..|SubmitUrl(base)|] == SubmitUrl(base);
  }

  /** Two strings joined around a separator that starts with '&', which neither contains, split back uniquely. */
  lemma {:induction false} SplitAtAmpersand(a: string, b: string, c: string, d: string, sep: string)
    requires |sep| > 0 && sep[0] == '&'
    requires '&' !in a && '&' !in c
    requires a + sep + b == c + sep + d
    ensures a == c && b == d
  {
    var x := a + sep + b;
    assert x[..|a|] == a && x[|a|] == '&';
    assert x[..|c|] == c && x[|c|] == '&';
    assert |a| == |c|;
    assert x[|a| + |sep|..] == b;
    assert x[|c| + |sep|..] == d;
  }

  lemma DecimalHasNoAmpersand(n: int)
    ensures '&' !in Decimal(n)
  {
    var s := Decimal(n);
    forall k | 0 <= k < |s| ensures s[k] != '&' {
    }
  }

  lemma CancelPrefix(p: string, x: string, y: string)
    requires p + x == p + y
    ensures x == y
  {
    assert x == (p + x)[|p|..];
    assert y == (p + y)[|p|..];
  }

  /** The log URL determines the requested window: different windows give different URLs. */
  lemma {:induction false} LogsUrlInjective(base: string, batchId: string, from: int, size: int, from': int, size': int)
    requires LogsUrl(base, batchId, from, size) == LogsUrl(base, batchId, from', size')
    ensures from == from' && size == size'
  {
    CancelPrefix(BatchUrl(base, batchId) + "/localLog?", LogsQuery(from, size), LogsQuery(from', size'));
    DecimalHasNoAmpersand(from);
    DecimalHasNoAmpersand(from');
    SplitAtAmpersand("from=" + Decimal(from), Decimal(size), "from=" + Decimal(from'), Decimal(size'), "&size=");
    CancelPrefix("from=", Decimal(from), Decimal(from'));
    DecimalInjective(from, from');
    DecimalInjective(size, size');
  }

  // The submission body, as a map from JSON field names to values.

  datatype JsonValue =
    | JNull
    | JString(s: string)
    | JArray(items: seq<string>)
    | JObject(fields: map<string, string>)

  const SubmittedByLabel := "spark.kubernetes.driver.label.submitted-by"
  const ProxyUserKey := "hive.server2.proxy.user"
  const DefaultJobName := "spark-submit-job"

  /** `addProperty(key, s)`: a null string is a JSON null. */
  function JsonOf(s: Option<string>): JsonValue {
    if s.Some? then JString(s.value) else JNull
  }

  /** The top-level fields of the request; `FieldName` is each one's JSON name. */
  datatype Field =
    | BatchType | ClassName | Resource | ProxyUser | Queue | JobName | ConfField
    | PyFiles | Files | Jars | Archives | Packages | Repositories | Args

  function FieldName(f: Field): string {
    match f
    case BatchType => "batchType"
    case ClassName => "className"
    case Resource => "resource"
    case ProxyUser => "proxyUser"
    case Queue => "queue"
    case JobName => "name"
    case ConfField => "conf"
    case PyFiles => "pyFiles"
    case Files => "files"
    case Jars => "jars"
    case Archives => "archives"
    case Packages => "packages"
    case Repositories => "repositories"
    case Args => "args"
  }

  /** Distinct fields have distinct JSON names. */
  lemma FieldNamesDistinct(f: Field, g: Field)
    requires f != g
    ensures FieldName(f) != FieldName(g)
  {
  }

  /** A field added only for a non-empty string. */
  ghost predicate OptionalField(body: map<Field, JsonValue>, key: Field, v: Option<string>) {
    && (key in body <==> NonEmpty(v))
    && (key in body ==> body[key] == JString(v.value))
  }

  /** A field added only for a non-empty list, with the list's items in order. */
  ghost predicate ListField(body: map<Field, JsonValue>, key: Field, items: seq<string>) {
    && (key in body <==> items != [])
    && (key in body ==> body[key] == JArray(items))
  }

  /** The configuration sent: the user's entries, the submitted-by label unless given, the proxy user if any. */
  ghost predicate SentConf(c: map<string, string>, a: Snapshot) {
    && c.Keys == a.conf.Keys + {SubmittedByLabel} + (if NonEmpty(a.proxyUser) then {ProxyUserKey} else {})
    && (forall k :: k in a.conf && !(k == ProxyUserKey && NonEmpty(a.proxyUser)) ==> c[k] == a.conf[k])
    && c[SubmittedByLabel] == (if SubmittedByLabel in a.conf then a.conf[SubmittedByLabel] else "spark-submit")
    && (NonEmpty(a.proxyUser) ==> c[ProxyUserKey] == a.proxyUser.value)
  }

  /** The copy loop over the user's configuration entries. */
  method CopyConf(source: map<string, string>) returns (conf: map<string, string>)
    ensures conf == source
  {
    conf := map[];
    var remaining := source.Keys;
    while remaining != {}
      invariant remaining <= source.Keys
      invariant conf.Keys == source.Keys - remaining
      invariant forall k :: k in conf ==> conf[k] == source[k]
      decreases remaining
    {
      var k :| k in remaining;
      conf := conf[k := source[k]];
      remaining := remaining - {k};
    }
  }

  /** The "conf" object of the request. */
  method BuildConf(a: Snapshot) returns (conf: map<string, string>)
    ensures SentConf(conf, a)
  {
    conf := CopyConf(a.conf);
    if SubmittedByLabel !in conf {
      conf := conf[SubmittedByLabel := "spark-submit"];
    }
    if NonEmpty(a.proxyUser) {
      conf := conf[ProxyUserKey := a.proxyUser.value];
    }
  }

  const FileLists: set<Field> := {PyFiles, Files, Jars, Archives}
  const OtherLists: set<Field> := {Packages, Repositories, Args}

  /** The list fields naming files shipped with the job. */
  method AddFileLists(body: map<Field, JsonValue>, a: Snapshot) returns (r: map<Field, JsonValue>)
    requires forall k :: k in FileLists ==> k !in body
    ensures ListField(r, PyFiles, a.pyFiles) && ListField(r, Files, a.files)
    ensures ListField(r, Jars, a.jars) && ListField(r, Archives, a.archives)
    ensures forall k :: k !in FileLists ==> (k in r <==> k in body)
    ensures forall k :: k !in FileLists && k in body ==> r[k] == body[k]
  {
    r := body;
    if a.pyFiles != [] {
      r := r[PyFiles := JArray(a.pyFiles)];
    }
    if a.files != [] {
      r := r[Files := JArray(a.files)];
    }
    if a.jars != [] {
      r := r[Jars := JArray(a.jars)];
    }
    if a.archives != [] {
      r := r[Archives := JArray(a.archives)];
    }
  }

  /** The remaining list fields: packages, repositories and the application arguments. */
  method AddOtherLists(body: map<Field, JsonValue>, a: Snapshot) returns (r: map<Field, JsonValue>)
    requires forall k :: k in OtherLists ==> k !in body
    ensures ListField(r, Packages, a.packages) && ListField(r, Repositories, a.repositories)
    ensures ListField(r, Args, a.args)
    ensures forall k :: k !in OtherLists ==> (k in r <==> k in body)
    ensures forall k :: k !in OtherLists && k in body ==> r[k] == body[k]
  {
    r := body;
    if a.packages != [] {
      r := r[Packages := JArray(a.packages)];
    }
    if a.repositories != [] {
      r := r[Repositories := JArray(a.repositories)];
    }
    if a.args != [] {
      r := r[Args := JArray(a.args)];
    }
  }

  const ListFields: set<Field> := FileLists + OtherLists

  /** The seven list fields, in the order they are added. */
  method AddLists(body: map<Field, JsonValue>, a: Snapshot) returns (r: map<Field, JsonValue>)
    requires forall k :: k in ListFields ==> k !in body
    ensures ListField(r, PyFiles, a.pyFiles) && ListField(r, Files, a.files)
    ensures ListField(r, Jars, a.jars) && ListField(r, Archives, a.archives)
    ensures ListField(r, Packages, a.packages) && ListField(r, Repositories, a.repositories)
    ensures ListField(r, Args, a.args)
    ensures forall k :: k !in ListFields ==> (k in r <==> k in body)
    ensures forall k :: k !in ListFields && k in body ==> r[k] == body[k]
  {
    r := AddFileLists(body, a);
    r := AddOtherLists(r, a);
  }

  /** The fields added before the configuration: the scalar ones and the name. */
  method ScalarFields(a: Snapshot) returns (body: map<Field, JsonValue>)
    ensures ConfField !in body
    ensures forall k :: k in ListFields ==> k !in body
    ensures BatchType in body && body[BatchType] == JsonOf(a.batchType)
    ensures Resource in body && body[Resource] == JsonOf(a.resource)
    ensures JobName in body && body[JobName] == JString(if NonEmpty(a.name) then a.name.value else DefaultJobName)
    ensures OptionalField(body, ClassName, a.className)
    ensures OptionalField(body, ProxyUser, a.proxyUser)
    ensures OptionalField(body, Queue, a.queue)
  {
    body := map[BatchType := JsonOf(a.batchType)];
    if NonEmpty(a.className) {
      body := body[ClassName := JString(a.className.value)];
    }
    body := body[Resource := JsonOf(a.resource)];
    if NonEmpty(a.proxyUser) {
      body := body[ProxyUser := JString(a.proxyUser.value)];
    }
    if NonEmpty(a.queue) {
      body := body[Queue := JString(a.queue.value)];
    }
    if NonEmpty(a.name) {
      body := body[JobName := JString(a.name.value)];
    } else {
      body := body[JobName := JString(DefaultJobName)];
    }
  }

  /**
   * The JSON object `submitBatch` posts for the job descriptor with value
   * `a`: the scalar fields, the configuration object and the seven lists,
   * each present and valued as the source sets it.
   */
  ghost predicate RequestFor(body: map<Field, JsonValue>, a: Snapshot) {
    && BatchType in body && body[BatchType] == JsonOf(a.batchType)
    && Resource in body && body[Resource] == JsonOf(a.resource)
    && JobName in body && body[JobName] == JString(if NonEmpty(a.name) then a.name.value else DefaultJobName)
    && OptionalField(body, ClassName, a.className)
    && OptionalField(body, ProxyUser, a.proxyUser)
    && OptionalField(body, Queue, a.queue)
    && ConfField in body && body[ConfField].JObject? && SentConf(body[ConfField].fields, a)
    && ListField(body, PyFiles, a.pyFiles)
    && ListField(body, Files, a.files)
    && ListField(body, Jars, a.jars)
    && ListField(body, Archives, a.archives)
    && ListField(body, Packages, a.packages)
    && ListField(body, Repositories, a.repositories)
    && ListField(body, Args, a.args)
  }

  /** The body `submitBatch` builds, field by field in the source's order. */
  method BuildRequest(a: Snapshot) returns (body: map<Field, JsonValue>)
    ensures RequestFor(body, a)
  {
    body := ScalarFields(a);
    var conf := BuildConf(a);
    body := body[ConfField := JObject(conf)];
    ghost var before := body;
    assert ConfField !in ListFields && BatchType !in ListFields && Resource !in ListFields && JobName !in ListFields;
    assert ClassName !in ListFields && ProxyUser !in ListFields && Queue !in ListFields;
    body := AddLists(body, a);
    assert body[ConfField] == before[ConfField];
  }

  // The submit URL for a configured server URL.

  /** The submit URL as written: `getBaseUrl() + "/batches"`. */
  function SubmitUrlAsWritten(serverUrl: string): string {
    SubmitUrl(Config.BaseUrl(serverUrl))
  }

  /**
   * A server URL that already names the API path leaves `getBaseUrl()` with
   * a trailing "/", so the submit URL has an empty path segment before "batches".
   */
  lemma ApiPathGivesEmptySegment(serverUrl: string)
    requires Contains(serverUrl, "/api/v1")
    ensures Contains(SubmitUrlAsWritten(serverUrl), "//batches")
  {
    var b := Config.BaseUrl(serverUrl);
    var r := SubmitUrl(b);
    assert r[|b| - 1..|b| - 1 + 9] == "//batches";
    assert OccursAt(r, "//batches", |b| - 1);
  }

  /** A sample server URL that already contains the API path. */
  lemma ApiPathExample()
    ensures Contains(SubmitUrlAsWritten("http://kyuubi:10099/api/v1"), "//batches")
  {
    assert OccursAt("http://kyuubi:10099/api/v1", "/api/v1", 19);
    ApiPathGivesEmptySegment("http://kyuubi:10099/api/v1");
  }

  function StripTrailingSlashes(s: string): (r: string)
    ensures |r| <= |s| && r == s[..|r|]
    ensures forall k :: |r| <= k < |s| ==> s[k] == '/'
    ensures !EndsWith(r, "/")
  {
    if |s| > 0 && s[|s| - 1] == '/' then StripTrailingSlashes(s[..|s| - 1]) else s
  }

  /** An occurrence of "/api/v1" ends in '1', so stripping slashes keeps it. */
  lemma {:induction false} StripKeepsApiPath(s: string)
    requires Contains(s, "/api/v1")
    ensures Contains(StripTrailingSlashes(s), "/api/v1")
  {
    var r := StripTrailingSlashes(s);
    var i :| 0 <= i <= |s| - 7 && OccursAt(s, "/api/v1", i);
    assert s[i + 6] == '1';
    assert i + 7 <= |r|;
    assert r[i..i + 7] == s[i..i + 7];
    assert OccursAt(r, "/api/v1", i);
  }

  /** The base URL evidently intended: `getBaseUrl()` without trailing slashes. */
  function ApiBaseUrl(serverUrl: string): (r: string)
    ensures Contains(r, "/api/v1")
    ensures !EndsWith(r, "/")
    ensures StartsWith(Config.BaseUrl(serverUrl), r)
  {
    var b := Config.BaseUrl(serverUrl);
    StripKeepsApiPath(b);
    StripTrailingSlashes(b)
  }

  /**
   * With the corrected base, the "/" before "batches" follows a character
   * that is not a slash, for every server URL. The corrected submit URL
   * differs from the one as written exactly when the server URL already
   * contains the API path.
   */
  lemma SubmitUrlSingleSlash(serverUrl: string)
    ensures var u := SubmitUrl(ApiBaseUrl(serverUrl));
      |u| >= 9 && EndsWith(u, "/batches") && u[|u| - 9] != '/'
    ensures Contains(serverUrl, "/api/v1") <==> SubmitUrl(ApiBaseUrl(serverUrl)) != SubmitUrlAsWritten(serverUrl)
  {
    var b := ApiBaseUrl(serverUrl);
    var u := SubmitUrl(b);
    var w := SubmitUrlAsWritten(serverUrl);
    var i :| 0 <= i <= |b| - 7 && OccursAt(b, "/api/v1", i);
    assert u[|u| - 8..] == "/batches";
    assert u[|u| - 9] == b[|b| - 1];
    if Contains(serverUrl, "/api/v1") {
      var base := Config.BaseUrl(serverUrl);
      assert w[|w| - 9] == base[|base| - 1] == '/';
    }
  }
}
