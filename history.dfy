/**
 * The application link the client prints (SparkSubmit.java,
 * `buildHistoryServerUrl` and `getApplicationUrl`): a Spark History Server
 * page built from the configured server URL and the application id.
 */
module History {
  import opened Wrappers
  import opened Text

  /** The configured base URL, trimmed, without one trailing "/". */
  function HistoryBase(baseUrl: string): (r: string)
    ensures Trim(baseUrl) == r || Trim(baseUrl) == r + "/"
    ensures Trim(baseUrl) == r + "/" <==> EndsWith(Trim(baseUrl), "/")
  {
    var t := Trim(baseUrl);
    if EndsWith(t, "/") then
      assert t == t[..|t| - 1] + "/";
      t[..|t| - 1]
    else t
  }

  const HistoryPath := "/history/"
  const AttemptSuffix := "/1/"

  /**
   * `buildHistoryServerUrl(base, appId)`: no link unless both are non-empty;
   * otherwise the base, then "/history/", the application id and "/1/".
   */
  function BuildHistoryServerUrl(historyServerBaseUrl: Option<string>, appId: Option<string>): (r: Option<string>)
    ensures r.None? <==> !NonEmpty(historyServerBaseUrl) || !NonEmpty(appId)
  {
    if !NonEmpty(historyServerBaseUrl) || !NonEmpty(appId) then None
    else Some(HistoryBase(historyServerBaseUrl.value) + HistoryPath + appId.value + AttemptSuffix)
  }

  lemma ConcatStartsWith(x: string, y: string)
    ensures StartsWith(x + y, x)
  {
    assert (x + y)[..|x|] == x;
  }

  lemma ConcatEndsWith(x: string, y: string)
    ensures EndsWith(x + y, y)
  {
    assert (x + y)[|x + y| - |y|..] == y;
  }

  /** The shape of `b + "/history/" + appId + "/1/"`, whatever `b` and `appId` are. */
  lemma LinkShape(b: string, appId: string)
    ensures var u := b + HistoryPath + appId + AttemptSuffix;
      && StartsWith(u, b + HistoryPath)
      && EndsWith(u, HistoryPath + appId + AttemptSuffix)
      && |u| == |b| + |appId| + 12
  {
    var u := b + HistoryPath + appId + AttemptSuffix;
    assert u == (b + HistoryPath) + (appId + AttemptSuffix);
    ConcatStartsWith(b + HistoryPath, appId + AttemptSuffix);
    assert u == b + (HistoryPath + appId + AttemptSuffix);
    ConcatEndsWith(b, HistoryPath + appId + AttemptSuffix);
  }

  /** A link is the base, then "/history/", then the application id and "/1/", and nothing else. */
  lemma HistoryUrlShape(base: string, appId: string)
    requires base != "" && appId != ""
    ensures var u := BuildHistoryServerUrl(Some(base), Some(appId)).value;
      && StartsWith(u, HistoryBase(base) + HistoryPath)
      && EndsWith(u, HistoryPath + appId + AttemptSuffix)
      && |u| == |HistoryBase(base)| + |appId| + 12
  {
    LinkShape(HistoryBase(base), appId);
  }

  /** The link determines the application: different ids give different links. */
  lemma HistoryUrlDeterminesApp(base: Option<string>, appId: Option<string>, appId': Option<string>)
    requires BuildHistoryServerUrl(base, appId).Some?
    requires BuildHistoryServerUrl(base, appId) == BuildHistoryServerUrl(base, appId')
    ensures appId == appId'
  {
    var u := BuildHistoryServerUrl(base, appId).value;
    var b := HistoryBase(base.value);
    assert |appId.value| == |appId'.value|;
    var n := |b| + |HistoryPath|;
    assert u == b + HistoryPath + appId.value + AttemptSuffix;
    assert u == b + HistoryPath + appId'.value + AttemptSuffix;
    assert appId.value == u[n..n + |appId.value|];
    assert appId'.value == u[n..n + |appId'.value|];
  }

  /** Whitespace around the configured URL makes no difference, as long as something is left. */
  lemma HistoryUrlTrimInvariant(base: string, appId: Option<string>)
    requires Trim(base) != ""
    ensures BuildHistoryServerUrl(Some(Trim(base)), appId) == BuildHistoryServerUrl(Some(base), appId)
  {
    TrimIdempotent(base);
    SameTrimSameBase(Trim(base), base);
    assert base != "";
  }

  /** The base depends on the configured URL only through its trimmed form. */
  lemma SameTrimSameBase(x: string, y: string)
    requires Trim(x) == Trim(y)
    ensures HistoryBase(x) == HistoryBase(y)
  {
  }

  /** A base ending in "//" keeps one of its slashes: at most one is removed. */
  lemma OnlyOneSlashRemoved()
    ensures HistoryBase("http://h:18080//") == "http://h:18080/"
  {
    var s := "http://h:18080//";
    assert !IsTrimmed(s[0]) && !IsTrimmed(s[|s| - 1]);
    TrimStartFixed(s);
    TrimEndFixed(s);
  }

  /** `getApplicationUrl(historyServerUrl, appId)`: the same guard, then the History Server link. */
  function GetApplicationUrl(historyServerUrl: Option<string>, appId: Option<string>): Option<string> {
    if NonEmpty(historyServerUrl) && NonEmpty(appId) then BuildHistoryServerUrl(historyServerUrl, appId)
    else None
  }

  /** The guard in `getApplicationUrl` repeats the one in `buildHistoryServerUrl`, so the two agree on every input. */
  lemma ApplicationUrlIsHistoryUrl(historyServerUrl: Option<string>, appId: Option<string>)
    ensures GetApplicationUrl(historyServerUrl, appId) == BuildHistoryServerUrl(historyServerUrl, appId)
    ensures GetApplicationUrl(historyServerUrl, appId).Some? <==> NonEmpty(historyServerUrl) && NonEmpty(appId)
  {
  }
}
