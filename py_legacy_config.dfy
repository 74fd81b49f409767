/**
 * The earlier configuration of the Python package
 * (src/kaniko_remote/config/config.py): the same search for the YAML file
 * and the same getters as src/kaniko_remote/config.py, with other defaults,
 * no context, no `env`/`volumes` handling, a missing file refused, and the
 * `always_mount` flag read from the document under a dotted key.
 *
 * The file system, YAML loading and the dotted lookup of `DeflatableDict`
 * are the fields of `PyConfig.Host`.
 */
module PyLegacyConfig {
  import opened Wrappers
  import opened Json
  import opened Errors
  import opened SnakeCase
  import PyConfig

  const NotFoundMessage := "Could not find kaniko-remote config file. Please create one with \"kaniko-remote configure\""

  /** `_default_builder_options`; `instance_id` is the user running the program. */
  function DefaultBuilderOptions(userName: string): Dict<Json>
  {
    [("instance_id", JString(userName)),
     ("use_debug_image", JBool(false)),
     ("cpu", JString("1")),
     ("memory", JString("1G")),
     ("additional_labels", JObject([])),
     ("additional_annotations", JObject([]))]
  }

  /** `_default_auth_options`. */
  const DefaultAuthOptions: Dict<Json> :=
    [("type", JString("pod-only")), ("service_account", JNull), ("secret_as_env_vars", JNull), ("secret_as_file", JNull)]

  /**
   * `os.path.abspath(p)` for a relative `p` without "." or ".." segments,
   * under a normalised absolute working directory: `p` is joined to it, and
   * a "~" in `p` is an ordinary directory name.
   */
  function AbsPath(cwd: string, p: string): (r: string)
    ensures |r| >= |cwd| + |p| && r[..|cwd|] == cwd && r[|r| - |p|..] == p
  {
    if |cwd| > 0 && cwd[|cwd| - 1] == '/' then cwd + p else cwd + "/" + p
  }

  /**
   * The file `Config()` opens, given where it looks in the home directory:
   * a set environment variable decides alone, unchecked; otherwise the file
   * in the working directory wins over `userConfig`; without either the
   * search fails.
   */
  function Location(host: PyConfig.Host, userConfig: string): (r: Result<string, Error>)
    ensures host.environ.Some? ==> r == Success(host.environ.value)
    ensures host.environ.None? && r.Success? ==> host.pathExists(r.value)
    ensures host.environ.None? && host.pathExists(host.cwd + "/" + PyConfig.ConfigName) ==> r == Success(host.cwd + "/" + PyConfig.ConfigName)
    ensures host.environ.None? && !host.pathExists(host.cwd + "/" + PyConfig.ConfigName) ==>
      r == if host.pathExists(userConfig) then Success(userConfig) else Failure(ValueError(NotFoundMessage))
  {
    if host.environ.Some? then Success(host.environ.value)
    else
      var relativeConfig := host.cwd + "/" + PyConfig.ConfigName;
      if host.pathExists(relativeConfig) then Success(relativeConfig)
      else if host.pathExists(userConfig) then Success(userConfig)
      else Failure(ValueError(NotFoundMessage))
  }

  /**
   * The home-directory candidate as written:
   * `os.path.abspath("~/.kaniko-remote.yaml")`, under the working directory.
   * Without the environment variable, the file found therefore always lies
   * under the working directory, and it exists.
   */
  function ConfigLocationAsWritten(host: PyConfig.Host): (r: Result<string, Error>)
    ensures host.environ.Some? ==> r == Success(host.environ.value)
    ensures host.environ.None? && r.Success? ==>
      host.pathExists(r.value) && |r.value| > |host.cwd| && r.value[..|host.cwd|] == host.cwd
  {
    Location(host, AbsPath(host.cwd, "~/" + PyConfig.ConfigName))
  }

  /**
   * The home-directory candidate as intended, and as the later
   * configuration has it: `os.path.expanduser`. Without the environment
   * variable, the file found exists, and a file in the home directory is
   * always found.
   */
  function ConfigLocation(host: PyConfig.Host): (r: Result<string, Error>)
    ensures host.environ.Some? ==> r == Success(host.environ.value)
    ensures host.environ.None? && r.Success? ==> host.pathExists(r.value)
    ensures host.environ.None? && host.pathExists(PyConfig.ExpandUser(host.home, "~/" + PyConfig.ConfigName)) ==> r.Success?
  {
    Location(host, PyConfig.ExpandUser(host.home, "~/" + PyConfig.ConfigName))
  }

  /**
   * As written, the home-directory file is never found: for a host with no
   * environment variable, working in "/work", whose only configuration file
   * is "/home/user/.kaniko-remote.yaml", the candidate is
   * "/work/~/.kaniko-remote.yaml" and the user is told there is none; with
   * `expanduser` that file is the one opened.
   */
  lemma HomeConfigMissedAsWritten(host: PyConfig.Host)
    requires host.environ.None? && host.cwd == "/work" && host.home == "/home/user"
    requires forall p :: host.pathExists(p) <==> p == "/home/user/.kaniko-remote.yaml"
    ensures ConfigLocationAsWritten(host) == Failure(ValueError(NotFoundMessage))
    ensures ConfigLocation(host) == Success("/home/user/.kaniko-remote.yaml")
  {
    WorkCandidatesMissing(host);
    assert PyConfig.ExpandUser(host.home, "~/" + PyConfig.ConfigName) == "/home/user/.kaniko-remote.yaml" by {
      HomeCandidate(host.home);
    }
  }

  /** Neither candidate under the working directory "/work" is the home-directory file. */
  lemma WorkCandidatesMissing(host: PyConfig.Host)
    requires host.cwd == "/work"
    requires forall p :: host.pathExists(p) <==> p == "/home/user/.kaniko-remote.yaml"
    ensures !host.pathExists(host.cwd + "/" + PyConfig.ConfigName)
    ensures !host.pathExists(AbsPath(host.cwd, "~/" + PyConfig.ConfigName))
  {
    assert |host.cwd + "/" + PyConfig.ConfigName| != |"/home/user/.kaniko-remote.yaml"|;
    assert |AbsPath(host.cwd, "~/" + PyConfig.ConfigName)| != |"/home/user/.kaniko-remote.yaml"|;
  }

  lemma HomeCandidate(home: string)
    requires home == "/home/user"
    ensures PyConfig.ExpandUser(home, "~/" + PyConfig.ConfigName) == "/home/user/.kaniko-remote.yaml"
  {
    ExpandHome(home, PyConfig.ConfigName);
  }

  /** `expanduser("~/" + n)` under a home directory written without a trailing slash. */
  lemma ExpandHome(home: string, n: string)
    requires |home| > 0 && home[|home| - 1] != '/'
    ensures PyConfig.ExpandUser(home, "~/" + n) == home + "/" + n
  {
    assert ("~/" + n)[1..] == "/" + n;
  }

  /**
   * The two searches differ only in the home-directory candidate: with the
   * environment variable set or a file in the working directory they agree,
   * and the corrected one finds the home-directory file whenever it exists.
   */
  lemma SearchesDifferOnlyAtHome(host: PyConfig.Host)
    ensures host.environ.Some? || host.pathExists(host.cwd + "/" + PyConfig.ConfigName) ==>
      ConfigLocationAsWritten(host) == ConfigLocation(host)
    ensures host.environ.None? && host.pathExists(PyConfig.ExpandUser(host.home, "~/" + PyConfig.ConfigName)) ==>
      ConfigLocation(host).Success?
  {
  }

  /** `Config`: the document of the configuration file. */
  class Config {
    var c: Json
    const host: PyConfig.Host

    /** `__init__` after the file is found and parsed. */
    constructor (host: PyConfig.Host, document: Json)
      ensures this.host == host && c == document
    {
      this.host := host;
      c := document;
    }

    function Get(key: string): Option<Json>
      reads this
    {
      host.deflatedGet(c, key)
    }

    /** `get_kubeconfig`: `None` unless the document sets one. */
    function GetKubeconfig(): (r: Json)
      reads this
      ensures r == host.deflatedGet(c, "kubernetes.kubeconfig").GetOr(JNull)
    {
      Get("kubernetes.kubeconfig").GetOr(JNull)
    }

    /** `get_namespace`: "default" unless the document sets one. */
    function GetNamespace(): (r: Json)
      reads this
      ensures r == host.deflatedGet(c, "kubernetes.namespace").GetOr(JString("default"))
    {
      PyConfig.Namespace(Get("kubernetes.namespace"))
    }

    /** `get_builder_options`: every default key is there, once, and the defaults without a `builder` section. */
    function GetBuilderOptions(): (r: Result<Dict<Json>, Error>)
      reads this
      ensures Get("builder").None? ==> r == Success(DefaultBuilderOptions(host.userName))
      ensures r.Success? ==> DistinctKeys(r.value)
      ensures r.Success? ==> forall x :: HasKey(DefaultBuilderOptions(host.userName), x) ==> HasKey(r.value, x)
    {
      var builder := Get("builder");
      var r := PyConfig.OverDefaults(DefaultBuilderOptions(host.userName), builder);
      if r.Success? then
        BuilderOptionsOverride(builder, host.userName, "");
        assert forall x :: HasKey(DefaultBuilderOptions(host.userName), x) ==> HasKey(r.value, x) by {
          forall x | HasKey(DefaultBuilderOptions(host.userName), x) ensures HasKey(r.value, x) {
            BuilderOptionsOverride(builder, host.userName, x);
          }
        }
        r
      else r
    }

    /** `list_all_authorisers`: one URL per `auth` entry, in order. */
    function ListAllAuthorisers(): (r: Result<seq<Json>, Error>)
      reads this
      ensures Get("auth").None? ==> r == Success([])
      ensures r.Success? ==> PyConfig.AuthEntries(Get("auth")).Success?
      ensures r.Success? ==> var entries := PyConfig.AuthEntries(Get("auth")).value;
        |r.value| == |entries| && forall i :: 0 <= i < |entries| ==> PyConfig.UrlOf(entries[i]) == Success(r.value[i])
    {
      var entries :- PyConfig.AuthEntries(Get("auth"));
      PyConfig.Urls(entries)
    }

    /**
     * `list_always_mount_authorisers`: of all the URLs, in order, exactly
     * those whose `auth.<url>.always_mount` is truthy.
     */
    function ListAlwaysMountAuthorisers(): (r: Result<seq<Json>, Error>)
      reads this
      ensures r.Success? ==> ListAllAuthorisers().Success?
      ensures r.Success? ==> PyConfig.SubsequenceOf(r.value, ListAllAuthorisers().value)
      ensures r.Success? ==> forall u :: u in ListAllAuthorisers().value ==>
        u.JString? && (u in r.value <==> Truthy(host.deflatedGet(c, "auth." + u.s + ".always_mount").GetOr(JBool(false))))
    {
      var urls :- ListAllAuthorisers();
      var doc, get := c, host.deflatedGet;
      var flag := u => get(doc, "auth." + u + ".always_mount");
      var r := AlwaysMounted(urls, flag);
      if r.Success? then
        AlwaysMountedFilter(urls, flag);
        r
      else r
    }

    /** `get_authoriser_options(url)`: every default key is there, whichever entry matches. */
    function GetAuthoriserOptions(url: string): (r: Result<Dict<Json>, Error>)
      reads this
      ensures Get("auth").None? ==> r == Success(DefaultAuthOptions)
      ensures r.Success? ==> forall x :: HasKey(DefaultAuthOptions, x) ==> HasKey(r.value, x)
    {
      var entries :- PyConfig.AuthEntries(Get("auth"));
      var r := AuthoriserOptions(entries, url);
      if r.Success? then
        assert forall x :: HasKey(DefaultAuthOptions, x) ==> HasKey(r.value, x) by {
          forall x | HasKey(DefaultAuthOptions, x) ensures HasKey(r.value, x) {
            AuthoriserOptionsOfMatch(entries, url, x);
          }
        }
        r
      else r
    }
  }

  /**
   * Opening the configuration as written: the file the as-written search
   * finds is loaded, and the search or the load may fail.
   */
  method Open(host: PyConfig.Host) returns (r: Result<Config, Error>)
    ensures ConfigLocationAsWritten(host).Failure? ==> r == Failure(ConfigLocationAsWritten(host).error)
    ensures ConfigLocationAsWritten(host).Success? && host.loadYaml(ConfigLocationAsWritten(host).value).Failure? ==>
      r == Failure(host.loadYaml(ConfigLocationAsWritten(host).value).error)
    ensures r.Success? ==> fresh(r.value) && r.value.host == host && ConfigLocationAsWritten(host).Success?
    ensures r.Success? ==> Success(r.value.c) == host.loadYaml(ConfigLocationAsWritten(host).value)
  {
    var location := ConfigLocationAsWritten(host);
    if location.Failure? {
      return Failure(location.error);
    }
    var loaded := host.loadYaml(location.value);
    if loaded.Failure? {
      return Failure(loaded.error);
    }
    var c := new Config(host, loaded.value);
    r := Success(c);
  }

  /**
   * `[a for a in urls if c.get(f"auth.{a}.always_mount", False)]`: the URLs
   * whose flag is truthy, in order; a URL that is not a string is not
   * followed into the f-string.
   */
  function AlwaysMounted(urls: seq<Json>, flag: string -> Option<Json>): (r: Result<seq<Json>, Error>)
    ensures r.Success? ==> forall i :: 0 <= i < |urls| ==> urls[i].JString?
  {
    if |urls| == 0 then Success([])
    else
      var rest :- AlwaysMounted(urls[1..], flag);
      assert forall i :: 1 <= i < |urls| ==> urls[i] == urls[1..][i - 1];
      if !urls[0].JString? then Failure(Unmodelled("url"))
      else if Truthy(flag(urls[0].s).GetOr(JBool(false))) then Success([urls[0]] + rest)
      else Success(rest)
  }

  /**
   * With string URLs the filter always succeeds, keeps a subsequence of the
   * URLs, and keeps exactly the URLs whose flag is truthy.
   */
  lemma {:induction false} AlwaysMountedFilter(urls: seq<Json>, flag: string -> Option<Json>)
    requires forall i :: 0 <= i < |urls| ==> urls[i].JString?
    ensures AlwaysMounted(urls, flag).Success?
    ensures PyConfig.SubsequenceOf(AlwaysMounted(urls, flag).value, urls)
    ensures forall u :: u in AlwaysMounted(urls, flag).value ==> u in urls
    ensures forall u :: u in urls ==> (u in AlwaysMounted(urls, flag).value <==> Truthy(flag(u.s).GetOr(JBool(false))))
  {
    if |urls| > 0 {
      var rest := urls[1..];
      assert forall i :: 1 <= i < |urls| ==> urls[i] == rest[i - 1];
      AlwaysMountedFilter(rest, flag);
      var kept := AlwaysMounted(rest, flag).value;
      if Truthy(flag(urls[0].s).GetOr(JBool(false))) {
        assert ([urls[0]] + kept)[1..] == kept;
      } else {
        PyConfig.SubsequenceSkip(kept, urls[0], rest);
        assert [urls[0]] + rest == urls;
      }
      assert urls == [urls[0]] + rest;
    }
  }

  /**
   * `get_authoriser_options(url)`: the defaults when no entry has the URL,
   * otherwise the first matching entry, snake-cased, over the defaults.
   */
  function AuthoriserOptions(entries: seq<Json>, url: string): Result<Dict<Json>, Error>
  {
    var matching :- PyConfig.Matching(entries, url);
    if |matching| == 0 then Success(DefaultAuthOptions)
    else PyConfig.OverDefaults(DefaultAuthOptions, Some(matching[0]))
  }

  /**
   * What `get_authoriser_options` hands back: the defaults when no entry has
   * the URL; otherwise every key as the first matching entry has it after
   * snake-casing, or else the default, with every default key present.
   */
  lemma AuthoriserOptionsOfMatch(entries: seq<Json>, url: string, x: string)
    requires AuthoriserOptions(entries, url).Success?
    ensures var r := AuthoriserOptions(entries, url).value;
      var matching := PyConfig.Matching(entries, url).value;
      && (|matching| == 0 ==> r == DefaultAuthOptions)
      && (|matching| > 0 ==>
            var user := SnakeDict(matching[0].fields);
            && Get(r, x) == (if HasKey(user, x) then Get(user, x) else Get(DefaultAuthOptions, x))
            && (HasKey(DefaultAuthOptions, x) ==> HasKey(r, x)))
  {
    var matching := PyConfig.Matching(entries, url).value;
    if |matching| > 0 {
      PyConfig.OverDefaultsOverride(DefaultAuthOptions, Some(matching[0]), x);
    }
  }

  /** `get_builder_options` keeps every default key and lets the user's snake-cased keys win. */
  lemma BuilderOptionsOverride(builder: Option<Json>, userName: string, x: string)
    requires PyConfig.OverDefaults(DefaultBuilderOptions(userName), builder).Success?
    ensures var r := PyConfig.OverDefaults(DefaultBuilderOptions(userName), builder).value;
      var user := SnakeDict(builder.GetOr(JObject([])).fields);
      && (builder.None? ==> r == DefaultBuilderOptions(userName))
      && DistinctKeys(r)
      && Get(r, x) == (if HasKey(user, x) then Get(user, x) else Get(DefaultBuilderOptions(userName), x))
      && (HasKey(DefaultBuilderOptions(userName), x) ==> HasKey(r, x))
  {
    PyConfig.OverDefaultsOverride(DefaultBuilderOptions(userName), builder, x);
  }
}
