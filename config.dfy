/**
 * Connection settings of the client (Config.java): each setting is looked up
 * as a system property, an environment variable and a key of the config
 * file, independently per setting, with a built-in default for the three
 * connection settings.
 */
module Config {
  import opened Wrappers
  import opened Text

  const DefaultServerUrl := "http://localhost:10099"
  const DefaultUsername := "kyuubi-server"
  const DefaultPassword := "kyuubi-server"

  /** Property names, used both as system properties and as config-file keys. */
  const UrlProperty := "kyuubi.server.url"
  const UsernameProperty := "kyuubi.server.username"
  const PasswordProperty := "kyuubi.server.password"
  const HistoryProperty := "spark.history.server.url"

  const UrlVariable := "KYUUBI_SERVER_URL"
  const UsernameVariable := "KYUUBI_SERVER_USERNAME"
  const PasswordVariable := "KYUUBI_SERVER_PASSWORD"
  const HistoryVariable := "SPARK_HISTORY_SERVER_URL"

  /**
   * What loading reads from outside the program: the system properties, the
   * environment, whether the config file exists, and the properties read
   * from it (whatever was loaded before a read error, if one occurred).
   */
  datatype Sources = Sources(
    properties: map<string, string>,
    environment: map<string, string>,
    fileExists: bool,
    fileProperties: map<string, string>)

  datatype Config = Config(
    serverUrl: string,
    username: string,
    password: string,
    sparkHistoryServerUrl: Option<string>,
    usingDefaultConfig: bool)

  function Lookup(m: map<string, string>, key: string): Option<string> {
    if key in m then Some(m[key]) else None
  }

  /** A key of the config file; a missing file contributes no properties. */
  function FileValue(src: Sources, key: string): Option<string> {
    if src.fileExists then Lookup(src.fileProperties, key) else None
  }

  /** The nested conditional of loadConfig: property, else environment, else file. */
  function Resolve(prop: Option<string>, env: Option<string>, file: Option<string>): Option<string> {
    if prop.Some? then prop else if env.Some? then env else file
  }

  /** Reference definition of the precedence: the first candidate that is present. */
  function FirstPresent(candidates: seq<Option<string>>): (r: Option<string>)
    ensures r.None? <==> forall i :: 0 <= i < |candidates| ==> candidates[i].None?
    ensures r.Some? ==> exists i :: 0 <= i < |candidates| && candidates[i] == r
  {
    if |candidates| == 0 then None
    else if candidates[0].Some? then candidates[0]
    else FirstPresent(candidates[1..])
  }

  /** The nested conditional agrees with the reference definition. */
  lemma {:induction false} ResolveIsFirstPresent(prop: Option<string>, env: Option<string>, file: Option<string>)
    ensures Resolve(prop, env, file) == FirstPresent([prop, env, file])
  {
    assert [prop, env, file][1..] == [env, file];
    assert [env, file][1..] == [file];
    assert [file][1..] == [];
    if prop.None? {
      assert FirstPresent([prop, env, file]) == FirstPresent([env, file]);
      if env.None? {
        assert FirstPresent([env, file]) == FirstPresent([file]);
      }
    }
  }

  function ResolveSetting(src: Sources, property: string, variable: string): Option<string> {
    Resolve(Lookup(src.properties, property), Lookup(src.environment, variable), FileValue(src, property))
  }

  /** `loadConfig(configFile)` as a function of what it reads. */
  function Load(src: Sources): Config {
    Config(
      ResolveSetting(src, UrlProperty, UrlVariable).GetOr(DefaultServerUrl),
      ResolveSetting(src, UsernameProperty, UsernameVariable).GetOr(DefaultUsername),
      ResolveSetting(src, PasswordProperty, PasswordVariable).GetOr(DefaultPassword),
      ResolveSetting(src, HistoryProperty, HistoryVariable),
      && !src.fileExists
      && UrlVariable !in src.environment && UrlProperty !in src.properties
      && UsernameVariable !in src.environment && UsernameProperty !in src.properties
      && PasswordVariable !in src.environment && PasswordProperty !in src.properties)
  }

  /**
   * Each setting is the first of system property, environment variable and
   * file key that is set, else its built-in default (none for the history server).
   */
  lemma LoadPrecedence(src: Sources)
    ensures var c := Load(src);
      && c.serverUrl == FirstPresent([Lookup(src.properties, UrlProperty), Lookup(src.environment, UrlVariable),
                                      FileValue(src, UrlProperty)]).GetOr(DefaultServerUrl)
      && c.username == FirstPresent([Lookup(src.properties, UsernameProperty), Lookup(src.environment, UsernameVariable),
                                     FileValue(src, UsernameProperty)]).GetOr(DefaultUsername)
      && c.password == FirstPresent([Lookup(src.properties, PasswordProperty), Lookup(src.environment, PasswordVariable),
                                     FileValue(src, PasswordProperty)]).GetOr(DefaultPassword)
      && c.sparkHistoryServerUrl == FirstPresent([Lookup(src.properties, HistoryProperty),
                                                  Lookup(src.environment, HistoryVariable), FileValue(src, HistoryProperty)])
  {
    ResolveIsFirstPresent(Lookup(src.properties, UrlProperty), Lookup(src.environment, UrlVariable),
                          FileValue(src, UrlProperty));
    ResolveIsFirstPresent(Lookup(src.properties, UsernameProperty), Lookup(src.environment, UsernameVariable),
                          FileValue(src, UsernameProperty));
    ResolveIsFirstPresent(Lookup(src.properties, PasswordProperty), Lookup(src.environment, PasswordVariable),
                          FileValue(src, PasswordProperty));
    ResolveIsFirstPresent(Lookup(src.properties, HistoryProperty), Lookup(src.environment, HistoryVariable),
                          FileValue(src, HistoryProperty));
  }

  /** A setting depends only on its own property, variable and file key. */
  lemma SettingsIndependent(src: Sources, src': Sources)
    requires src.fileExists == src'.fileExists
    requires Lookup(src.properties, UrlProperty) == Lookup(src'.properties, UrlProperty)
    requires Lookup(src.environment, UrlVariable) == Lookup(src'.environment, UrlVariable)
    requires Lookup(src.fileProperties, UrlProperty) == Lookup(src'.fileProperties, UrlProperty)
    ensures Load(src).serverUrl == Load(src').serverUrl
  {
  }

  /** The flag is set only when loading fell back on the built-in connection settings for all three. */
  lemma DefaultConfigUsesDefaults(src: Sources)
    requires Load(src).usingDefaultConfig
    ensures Load(src).serverUrl == DefaultServerUrl
    ensures Load(src).username == DefaultUsername
    ensures Load(src).password == DefaultPassword
  {
  }

  /** The history-server settings play no part in the flag. */
  lemma DefaultFlagIgnoresHistory(src: Sources, p: string, e: string)
    ensures Load(src.(properties := src.properties[HistoryProperty := p],
                      environment := src.environment[HistoryVariable := e])).usingDefaultConfig
            == Load(src).usingDefaultConfig
  {
  }

  /** Appending "/" cannot create an occurrence of "/api/v1", which does not end in "/". */
  lemma {:induction false} ApiPathNotCreatedBySlash(s: string)
    ensures Contains(s + "/", "/api/v1") <==> Contains(s, "/api/v1")
  {
    var t := "/api/v1";
    if Contains(s + "/", t) {
      var i :| 0 <= i <= |s + "/"| - |t| && OccursAt(s + "/", t, i);
      // the occurrence ends in '1', so not in the appended '/'
      assert (s + "/")[i + |t| - 1] == t[|t| - 1] == '1';
      assert (s + "/")[|s|] == '/';
      assert s[i..i + |t|] == (s + "/")[i..i + |t|];
      assert OccursAt(s, t, i);
    }
    if Contains(s, t) {
      ContainsExtended(s, "/", t);
    }
  }

  /**
   * `getBaseUrl()` as written: make sure the URL ends in "/", then append
   * "api/v1" unless "/api/v1" is already in it.
   */
  function BaseUrl(serverUrl: string): (r: string)
    ensures StartsWith(r, serverUrl)
    ensures Contains(r, "/api/v1")
    ensures Contains(serverUrl, "/api/v1") ==> r == serverUrl || r == serverUrl + "/"
    ensures Contains(serverUrl, "/api/v1") ==> EndsWith(r, "/")
    ensures !Contains(serverUrl, "/api/v1") ==> EndsWith(r, "/api/v1")
    ensures |r| == |serverUrl| + (if EndsWith(serverUrl, "/") then 0 else 1) + (if Contains(serverUrl, "/api/v1") then 0 else 6)
  {
    var url := if EndsWith(serverUrl, "/") then serverUrl else serverUrl + "/";
    ApiPathNotCreatedBySlash(serverUrl);
    if Contains(url, "/api/v1") then url
    else
      var r := url + "api/v1";
      assert |url| >= 1 && url[|url| - 1] == '/';
      assert r[|url| - 1..|url| - 1 + 7] == "/api/v1";
      assert OccursAt(r, "/api/v1", |url| - 1);
      r
  }
}
