/**
 * The configuration of the Python package (src/kaniko_remote/config.py):
 * where the YAML file is looked for, and the getters that read the loaded
 * document, merge the builder and authoriser options over their defaults
 * and snake-case the user's keys.
 *
 * The file system, YAML loading and the dotted lookup of `DeflatableDict`
 * (`y.get("kubernetes.namespace", ...)`) are fields of `Host`.
 */
module PyConfig {
  import opened Wrappers
  import opened Json
  import opened Errors
  import opened SnakeCase

  const ConfigEnvVar := "KANIKO_REMOTE_CONFIG"
  const ConfigName := ".kaniko-remote.yaml"

  /**
   * `_default_builder_options`; `name` is the user running the program.
   * `pod_transfer_packet_size` is the float 9e3 in the source, kept here as the integer 9000.
   */
  function DefaultBuilderOptions(userName: string): Dict<Json>
  {
    [("name", JString(userName)),
     ("cpu", JString("1")),
     ("memory", JString("1G")),
     ("kaniko_image", JString("gcr.io/kaniko-project/executor:latest")),
     ("setup_image", JString("busybox:stable")),
     ("additional_labels", JObject([])),
     ("additional_annotations", JObject([])),
     ("kaniko_args", JArray([JString("--use-new-run")])),
     ("pod_start_timeout", JNumber(5 * 60)),
     ("pod_transfer_packet_size", JNumber(9000))]
  }

  /** `_default_auth_options`. */
  const DefaultAuthOptions: Dict<Json> :=
    [("type", JString("pod-only")), ("service_account", JNull), ("env", JArray([])), ("volumes", JArray([]))]

  datatype Host = Host(
    /** `KANIKO_REMOTE_CONFIG`, when set. */
    environ: Option<string>,
    cwd: string,
    /** The home directory `os.path.expanduser` puts in place of `~`. */
    home: string,
    pathExists: string -> bool,
    /** Opening and parsing the file, including the errors of both. */
    loadYaml: string -> Result<Json, Error>,
    /** `DeflatableDict(d=doc).get(key)`: the value under a dotted key, if any. */
    deflatedGet: (Json, string) -> Option<Json>,
    /** `getpass.getuser()`. */
    userName: string)

  /** `s.rstrip("/")`. */
  function RStripSlash(s: string): (r: string)
    ensures |r| <= |s| && r == s[..|r|]
    ensures |r| > 0 ==> r[|r| - 1] != '/'
  {
    if |s| > 0 && s[|s| - 1] == '/' then RStripSlash(s[..|s| - 1]) else s
  }

  /** `os.path.expanduser(p)` for a path starting with "~/": the home directory without its trailing slashes in place of `~`. */
  function ExpandUser(home: string, p: string): string
  {
    if |p| > 0 && p[0] == '~' then RStripSlash(home) + p[1..] else p
  }

  /**
   * The file `Config()` reads. A set environment variable decides alone,
   * whether or not its file exists; without it the file in the working
   * directory wins over the one in the home directory, and without either
   * there is none.
   */
  function ConfigLocation(host: Host): (r: Option<string>)
    ensures host.environ.Some? ==> r == host.environ
    ensures host.environ.None? && r.Some? ==> host.pathExists(r.value)
    ensures host.environ.None? && host.pathExists(host.cwd + "/" + ConfigName) ==> r == Some(host.cwd + "/" + ConfigName)
    ensures host.environ.None? && !host.pathExists(host.cwd + "/" + ConfigName) ==>
      r == if host.pathExists(ExpandUser(host.home, "~/" + ConfigName)) then Some(ExpandUser(host.home, "~/" + ConfigName)) else None
  {
    if host.environ.Some? then host.environ
    else
      var relativeConfig := host.cwd + "/" + ConfigName;
      var userConfig := ExpandUser(host.home, "~/" + ConfigName);
      if host.pathExists(relativeConfig) then Some(relativeConfig)
      else if host.pathExists(userConfig) then Some(userConfig)
      else None
  }

  /** `y.get(key)`: the plain `{}` of a run without a file has no keys at all. */
  function Lookup(y: Option<Json>, key: string, deflatedGet: (Json, string) -> Option<Json>): (r: Option<Json>)
    ensures y.None? ==> r.None?
  {
    if y.None? then None else deflatedGet(y.value, key)
  }

  /** `get_namespace`: "default" unless the document sets one. */
  function Namespace(found: Option<Json>): (r: Json)
    ensures found.None? ==> r == JString("default")
    ensures found.Some? ==> r == found.value
  {
    found.GetOr(JString("default"))
  }

  /** `_snake_caseify_dict(d)`: `d.items()` needs a dict. */
  function SnakeObject(d: Json): (r: Result<Dict<Json>, Error>)
    ensures r.Success? <==> d.JObject?
    ensures r.Success? ==> r.value == SnakeDict(d.fields)
  {
    if d.JObject? then Success(SnakeDict(d.fields)) else Failure(AttributeError("items"))
  }

  /** `{**defaults, **_snake_caseify_dict(section)}`: a section merged over its defaults; a missing section is `{}`. */
  function OverDefaults(defaults: Dict<Json>, section: Option<Json>): Result<Dict<Json>, Error>
  {
    var user :- SnakeObject(section.GetOr(JObject([])));
    Success(Merge(defaults, user))
  }

  /**
   * A section merged over its defaults: without the section it is the
   * defaults; otherwise the user's snake-cased keys win key by key, every
   * default key stays, and no key repeats.
   */
  lemma OverDefaultsOverride(defaults: Dict<Json>, section: Option<Json>, x: string)
    requires DistinctKeys(defaults)
    requires OverDefaults(defaults, section).Success?
    ensures var r := OverDefaults(defaults, section).value;
      var user := SnakeDict(section.GetOr(JObject([])).fields);
      && (section.None? ==> r == defaults)
      && DistinctKeys(r)
      && Get(r, x) == (if HasKey(user, x) then Get(user, x) else Get(defaults, x))
      && (HasKey(defaults, x) ==> HasKey(r, x))
  {
    var user := SnakeDict(section.GetOr(JObject([])).fields);
    SnakeDictDistinct(section.GetOr(JObject([])).fields);
    GetMerge(defaults, user, x);
    MergeKeys(defaults, user);
    assert section.None? ==> user == [];
  }

  /** The builder defaults name each option once. */
  lemma DefaultBuilderOptionsDistinct(userName: string)
    ensures DistinctKeys(DefaultBuilderOptions(userName))
  {
    var d := DefaultBuilderOptions(userName);
    forall i, j | 0 <= i < j < |d| ensures d[i].0 != d[j].0 {
      assert |d[i].0| != |d[j].0| || d[i].0[0] != d[j].0[0] || d[i].0[|d[i].0| - 1] != d[j].0[|d[j].0| - 1];
    }
  }

  /** `get_builder_options` keeps every default key and lets the user's keys win. */
  lemma BuilderOptionsOverride(builder: Option<Json>, userName: string, x: string)
    requires OverDefaults(DefaultBuilderOptions(userName), builder).Success?
    ensures var r := OverDefaults(DefaultBuilderOptions(userName), builder).value;
      var user := SnakeDict(builder.GetOr(JObject([])).fields);
      && (builder.None? ==> r == DefaultBuilderOptions(userName))
      && DistinctKeys(r)
      && Get(r, x) == (if HasKey(user, x) then Get(user, x) else Get(DefaultBuilderOptions(userName), x))
      && (HasKey(DefaultBuilderOptions(userName), x) ==> HasKey(r, x))
  {
    DefaultBuilderOptionsDistinct(userName);
    OverDefaultsOverride(DefaultBuilderOptions(userName), builder, x);
  }

  /** `a["url"]` on one entry of `auth`. */
  function UrlOf(a: Json): (r: Result<Json, Error>)
    ensures r.Success? <==> a.JObject? && HasKey(a.fields, "url")
  {
    if !a.JObject? then Failure(Unmodelled("auth entry"))
    else
      var url: Option<Json> := Get(a.fields, "url");
      if url.None? then Failure(KeyError("url")) else Success(url.value)
  }

  /** `y.get("auth", [])`: the entries of the `auth` list. */
  function AuthEntries(auth: Option<Json>): (r: Result<seq<Json>, Error>)
    ensures auth.None? ==> r == Success([])
  {
    if auth.None? then Success([])
    else if auth.value.JArray? then Success(auth.value.items)
    else Failure(Unmodelled("auth"))
  }

  /** `list_all_authorisers` over the entries: every entry's `url`, in order. */
  function Urls(entries: seq<Json>): (r: Result<seq<Json>, Error>)
    ensures r.Success? ==> |r.value| == |entries|
    ensures r.Success? ==> forall i :: 0 <= i < |entries| ==> UrlOf(entries[i]) == Success(r.value[i])
  {
    if |entries| == 0 then Success([])
    else
      var url :- UrlOf(entries[0]);
      var rest :- Urls(entries[1..]);
      assert forall i :: 1 <= i < |entries| ==> entries[i] == entries[1..][i - 1];
      Success([url] + rest)
  }

  /** `a.get("mount", "").lower() == "always"`: an entry that is not a dict, or a `mount` that is not a string, raises. */
  function IsAlwaysMount(a: Json): Result<bool, Error>
  {
    if !a.JObject? then Failure(Unmodelled("auth entry"))
    else
      var mount := Get(a.fields, "mount").GetOr(JString(""));
      if !mount.JString? then Failure(AttributeError("lower"))
      else Success(Lower(mount.s) == "always")
  }

  /** The entries whose `mount` reads "always" in any case, in order. */
  function AlwaysMountedEntries(entries: seq<Json>): seq<Json>
  {
    if |entries| == 0 then []
    else (if IsAlwaysMount(entries[0]) == Success(true) then [entries[0]] else []) + AlwaysMountedEntries(entries[1..])
  }

  /**
   * `list_always_mount_authorisers` over the entries: it succeeds exactly
   * when every entry's `mount` can be read and every always-mounted entry
   * has a `url`, and then gives the `url` of each always-mounted entry, in
   * order.
   */
  function AlwaysUrls(entries: seq<Json>): (r: Result<seq<Json>, Error>)
    ensures r.Success? <==>
      (forall i :: 0 <= i < |entries| ==> IsAlwaysMount(entries[i]).Success?) && Urls(AlwaysMountedEntries(entries)).Success?
    ensures r.Success? ==> r == Urls(AlwaysMountedEntries(entries))
  {
    if |entries| == 0 then Success([])
    else
      var rest := entries[1..];
      assert forall i :: 1 <= i < |entries| ==> entries[i] == rest[i - 1];
      var always :- IsAlwaysMount(entries[0]);
      if always then
        assert AlwaysMountedEntries(entries) == [entries[0]] + AlwaysMountedEntries(rest);
        assert ([entries[0]] + AlwaysMountedEntries(rest))[1..] == AlwaysMountedEntries(rest);
        var url :- UrlOf(entries[0]);
        var tail :- AlwaysUrls(rest);
        Success([url] + tail)
      else
        assert AlwaysMountedEntries(entries) == AlwaysMountedEntries(rest);
        var tail :- AlwaysUrls(rest);
        Success(tail)
  }

  /** `a` can be read off `b` left to right, skipping elements of `b`. */
  predicate SubsequenceOf<T(==)>(a: seq<T>, b: seq<T>)
    decreases |b|
  {
    |a| == 0 || (|b| > 0 && if a[0] == b[0] then SubsequenceOf(a[1..], b[1..]) else SubsequenceOf(a, b[1..]))
  }

  /** Dropping a first element of the subsequence keeps it one. */
  lemma {:induction false} SubsequenceTail<T>(a: seq<T>, b: seq<T>)
    requires |a| > 0 && SubsequenceOf(a, b)
    ensures SubsequenceOf(a[1..], b)
    decreases |b|, 0
  {
    if a[0] != b[0] {
      SubsequenceTail(a, b[1..]);
      SubsequenceSkip(a[1..], b[0], b[1..]);
      assert [b[0]] + b[1..] == b;
    } else {
      SubsequenceSkip(a[1..], b[0], b[1..]);
      assert [b[0]] + b[1..] == b;
    }
  }

  /** A subsequence of `b` is one of `[u] + b`. */
  lemma {:induction false} SubsequenceSkip<T>(a: seq<T>, u: T, b: seq<T>)
    requires SubsequenceOf(a, b)
    ensures SubsequenceOf(a, [u] + b)
    decreases |b|, 1
  {
    if |a| > 0 && a[0] == u {
      assert ([u] + b)[1..] == b;
      SubsequenceTail(a, b);
    } else if |a| > 0 {
      assert ([u] + b)[1..] == b;
    }
  }

  /**
   * Whenever every entry can be read, the always-mounted URLs are a
   * subsequence of all URLs, each coming from an entry whose `mount` is
   * "always" in any case.
   */
  lemma {:induction false} AlwaysUrlsSubsequence(entries: seq<Json>)
    requires Urls(entries).Success?
    requires forall i :: 0 <= i < |entries| ==> IsAlwaysMount(entries[i]).Success?
    ensures AlwaysUrls(entries).Success?
    ensures SubsequenceOf(AlwaysUrls(entries).value, Urls(entries).value)
    ensures forall u :: u in AlwaysUrls(entries).value ==>
      exists i :: 0 <= i < |entries| && IsAlwaysMount(entries[i]) == Success(true) && UrlOf(entries[i]) == Success(u)
  {
    if |entries| > 0 {
      var rest := entries[1..];
      assert forall i :: 1 <= i < |entries| ==> entries[i] == rest[i - 1];
      assert Urls(rest).Success?;
      AlwaysUrlsSubsequence(rest);
      var all := Urls(entries).value;
      assert all[1..] == Urls(rest).value;
      var always := AlwaysUrls(entries).value;
      if IsAlwaysMount(entries[0]).value {
        assert always[1..] == AlwaysUrls(rest).value;
      } else {
        SubsequenceSkip(AlwaysUrls(rest).value, all[0], Urls(rest).value);
        assert [all[0]] + all[1..] == all;
      }
    }
    AlwaysUrlsSound(entries);
  }

  /** Each always-mounted URL is the `url` of an entry whose `mount` is "always" in any case. */
  lemma {:induction false} AlwaysUrlsSound(entries: seq<Json>)
    requires AlwaysUrls(entries).Success?
    ensures forall u :: u in AlwaysUrls(entries).value ==>
      exists i :: 0 <= i < |entries| && IsAlwaysMount(entries[i]) == Success(true) && UrlOf(entries[i]) == Success(u)
  {
    if |entries| > 0 {
      var rest := entries[1..];
      assert forall i :: 1 <= i < |entries| ==> entries[i] == rest[i - 1];
      AlwaysUrlsSound(rest);
      var always := AlwaysUrls(entries).value;
      forall u | u in always
        ensures exists i :: 0 <= i < |entries| && IsAlwaysMount(entries[i]) == Success(true) && UrlOf(entries[i]) == Success(u)
      {
        if IsAlwaysMount(entries[0]).value && u == UrlOf(entries[0]).value {
          assert IsAlwaysMount(entries[0]) == Success(true) && UrlOf(entries[0]) == Success(u);
        } else {
          assert u in AlwaysUrls(rest).value;
          var k :| 0 <= k < |rest| && IsAlwaysMount(rest[k]) == Success(true) && UrlOf(rest[k]) == Success(u);
          assert entries[k + 1] == rest[k];
        }
      }
    }
  }

  /** An entry whose `url` is the one asked for; the `url` of every entry is read. */
  function UrlIs(a: Json, url: string): Result<bool, Error>
  {
    var u :- UrlOf(a);
    Success(u == JString(url))
  }

  /** Every entry whose `mount` is "always" has its `url` among the always-mounted URLs. */
  lemma {:induction false} AlwaysUrlsComplete(entries: seq<Json>)
    requires Urls(entries).Success? && AlwaysUrls(entries).Success?
    ensures forall i :: 0 <= i < |entries| && IsAlwaysMount(entries[i]) == Success(true) ==>
      Urls(entries).value[i] in AlwaysUrls(entries).value
  {
    if |entries| > 0 {
      var rest := entries[1..];
      assert forall i :: 1 <= i < |entries| ==> entries[i] == rest[i - 1];
      var all := Urls(entries).value;
      var always := AlwaysUrls(entries).value;
      assert all[1..] == Urls(rest).value;
      AlwaysUrlsComplete(rest);
      if IsAlwaysMount(entries[0]).value {
        assert always == [all[0]] + AlwaysUrls(rest).value;
      } else {
        assert always == AlwaysUrls(rest).value;
      }
      forall i | 0 < i < |entries| && IsAlwaysMount(entries[i]) == Success(true)
        ensures all[i] in always
      {
        assert all[i] == Urls(rest).value[i - 1];
      }
    }
  }

  /** `[a for a in auth if a["url"] == url]`. */
  function Matching(entries: seq<Json>, url: string): (r: Result<seq<Json>, Error>)
    ensures r.Success? ==> forall a :: a in r.value ==> a in entries && UrlIs(a, url) == Success(true)
    ensures r.Success? ==> forall i :: 0 <= i < |entries| ==> UrlIs(entries[i], url).Success?
  {
    if |entries| == 0 then Success([])
    else
      var hit :- UrlIs(entries[0], url);
      var rest :- Matching(entries[1..], url);
      assert forall i :: 1 <= i < |entries| ==> entries[i] == entries[1..][i - 1];
      Success(if hit then [entries[0]] + rest else rest)
  }

  /** The first match is the earliest entry with that `url`, and there is none exactly when no entry has it. */
  lemma MatchingFirst(entries: seq<Json>, url: string)
    requires Matching(entries, url).Success?
    ensures |Matching(entries, url).value| == 0 <==> forall i :: 0 <= i < |entries| ==> UrlIs(entries[i], url) == Success(false)
    ensures |Matching(entries, url).value| > 0 ==>
      exists j :: 0 <= j < |entries| && Matching(entries, url).value[0] == entries[j] && UrlIs(entries[j], url) == Success(true)
        && forall i :: 0 <= i < j ==> UrlIs(entries[i], url) == Success(false)
  {
    MatchingNone(entries, url);
    MatchingEarliest(entries, url);
  }

  /** No entry matches exactly when every entry's `url` is another one. */
  lemma {:induction false} MatchingNone(entries: seq<Json>, url: string)
    requires Matching(entries, url).Success?
    ensures |Matching(entries, url).value| == 0 <==> forall i :: 0 <= i < |entries| ==> UrlIs(entries[i], url) == Success(false)
  {
    if |entries| > 0 {
      var rest := entries[1..];
      MatchingNone(rest, url);
      MatchingStep(entries, url);
      assert forall i :: 1 <= i < |entries| ==> entries[i] == rest[i - 1];
    }
  }

  /** A first match is the earliest entry whose `url` is the one asked for. */
  lemma {:induction false} MatchingEarliest(entries: seq<Json>, url: string)
    requires Matching(entries, url).Success?
    ensures |Matching(entries, url).value| > 0 ==>
      exists j :: 0 <= j < |entries| && Matching(entries, url).value[0] == entries[j] && UrlIs(entries[j], url) == Success(true)
        && forall i :: 0 <= i < j ==> UrlIs(entries[i], url) == Success(false)
  {
    if |entries| > 0 {
      var rest := entries[1..];
      MatchingEarliest(rest, url);
      MatchingStep(entries, url);
      if UrlIs(entries[0], url).value {
        assert Matching(entries, url).value[0] == entries[0];
      } else if |Matching(rest, url).value| > 0 {
        var j :| 0 <= j < |rest| && Matching(rest, url).value[0] == rest[j]
          && UrlIs(rest[j], url) == Success(true) && forall i :: 0 <= i < j ==> UrlIs(rest[i], url) == Success(false);
        assert entries[j + 1] == rest[j];
        assert forall i :: 0 <= i < j + 1 ==> UrlIs(entries[i], url) == Success(false) by {
          forall i | 0 < i < j + 1 ensures UrlIs(entries[i], url) == Success(false) {
            assert entries[i] == rest[i - 1];
          }
        }
        assert Matching(entries, url).value[0] == entries[j + 1];
      }
    }
  }

  /** One entry of the comprehension: kept in front of the rest's matches when its `url` is the one asked for. */
  lemma MatchingStep(entries: seq<Json>, url: string)
    requires |entries| > 0 && Matching(entries, url).Success?
    ensures UrlIs(entries[0], url).Success? && Matching(entries[1..], url).Success?
    ensures Matching(entries, url).value ==
      if UrlIs(entries[0], url).value then [entries[0]] + Matching(entries[1..], url).value else Matching(entries[1..], url).value
  {
  }

  /** `[self._snake_caseify_dict(e) for e in auth[key]]`. */
  function SnakeEach(items: seq<Json>): (r: Result<seq<Json>, Error>)
    ensures r.Success? ==> |r.value| == |items|
    ensures r.Success? ==> forall i :: 0 <= i < |items| ==> items[i].JObject? && r.value[i] == JObject(SnakeDict(items[i].fields))
  {
    if |items| == 0 then Success([])
    else
      var first :- SnakeObject(items[0]);
      var rest :- SnakeEach(items[1..]);
      assert forall i :: 1 <= i < |items| ==> items[i] == items[1..][i - 1];
      Success([JObject(first)] + rest)
  }

  /** The list under `env` or `volumes`, each of its dicts snake-cased; a `None` there is not iterable. */
  function SnakeList(value: Json, key: string): Result<Json, Error>
  {
    if value.JNull? then Failure(TypeError(key))
    else if !value.JArray? then Failure(Unmodelled(key))
    else
      var items :- SnakeEach(value.items);
      Success(JArray(items))
  }

  /**
   * `get_authoriser_options(url)`: the defaults when no entry has the URL;
   * otherwise the first matching entry, snake-cased, over the defaults, with
   * each `env` and `volumes` entry snake-cased too.
   */
  function AuthoriserOptions(entries: seq<Json>, url: string): Result<Dict<Json>, Error>
  {
    var matching :- Matching(entries, url);
    if |matching| == 0 then Success(DefaultAuthOptions)
    else
      var user :- SnakeObject(matching[0]);
      var auth := Merge(DefaultAuthOptions, user);
      var env :- SnakeList(Get(auth, "env").GetOr(JNull), "env");
      var withEnv := Set(auth, "env", env);
      var volumes :- SnakeList(Get(withEnv, "volumes").GetOr(JNull), "volumes");
      Success(Set(withEnv, "volumes", volumes))
  }

  /**
   * What `get_authoriser_options` hands back for a matching entry: every key
   * but `env` and `volumes` as the entry has it after snake-casing, or the
   * default; `env` and `volumes` as the entry's list, or the default one,
   * with each of its dicts snake-cased.
   */
  lemma AuthoriserOptionsOfMatch(entries: seq<Json>, url: string, x: string)
    requires AuthoriserOptions(entries, url).Success?
    ensures var r := AuthoriserOptions(entries, url).value;
      var matching := Matching(entries, url).value;
      && (|matching| == 0 ==> r == DefaultAuthOptions)
      && (|matching| > 0 ==>
            var user := SnakeDict(matching[0].fields);
            && (x != "env" && x != "volumes" ==> Get(r, x) == if HasKey(user, x) then Get(user, x) else Get(DefaultAuthOptions, x))
            && (x == "env" || x == "volumes" ==>
                  var merged := if HasKey(user, x) then Get(user, x).value else Get(DefaultAuthOptions, x).value;
                  && SnakeList(merged, x).Success?
                  && Get(r, x) == Some(SnakeList(merged, x).value)
                  && Get(r, x).value.JArray?
                  && forall e :: e in Get(r, x).value.items ==> e.JObject? && forall k :: HasKey(e.fields, k) ==> NoCapitals(k)))
  {
    var matching := Matching(entries, url).value;
    if |matching| > 0 {
      var user := SnakeDict(matching[0].fields);
      var auth := Merge(DefaultAuthOptions, user);
      SnakeDictDistinct(matching[0].fields);
      GetMerge(DefaultAuthOptions, user, x);
      GetMerge(DefaultAuthOptions, user, "env");
      GetMerge(DefaultAuthOptions, user, "volumes");
      var env := SnakeList(Get(auth, "env").GetOr(JNull), "env").value;
      var withEnv := Set(auth, "env", env);
      var volumes := SnakeList(Get(withEnv, "volumes").GetOr(JNull), "volumes").value;
      GetSet(auth, "env", env, x);
      GetSet(withEnv, "volumes", volumes, x);
      GetSet(auth, "env", env, "volumes");
      if x == "env" || x == "volumes" {
        var list := if x == "env" then env else volumes;
        assert Get(AuthoriserOptions(entries, url).value, x) == Some(list);
        var source := if x == "env" then Get(auth, "env").GetOr(JNull) else Get(withEnv, "volumes").GetOr(JNull);
        assert SnakeList(source, x) == Success(list);
        SnakeListKeys(source, x);
      }
    }
  }

  /** Every entry of a snake-cased list is a dict whose keys have no capitals. */
  lemma SnakeListKeys(value: Json, key: string)
    requires SnakeList(value, key).Success?
    ensures SnakeList(value, key).value.JArray?
    ensures forall e :: e in SnakeList(value, key).value.items ==> e.JObject? && forall k :: HasKey(e.fields, k) ==> NoCapitals(k)
  {
    var list := SnakeList(value, key).value;
    forall e | e in list.items
      ensures e.JObject? && forall k :: HasKey(e.fields, k) ==> NoCapitals(k)
    {
      var i :| 0 <= i < |list.items| && list.items[i] == e;
      assert e == JObject(SnakeDict(value.items[i].fields));
      forall k | HasKey(e.fields, k) ensures NoCapitals(k) {
        SnakeDictKeys(value.items[i].fields, k);
        var j :| 0 <= j < |value.items[i].fields| && SnakeCase.SnakeCase(value.items[i].fields[j].0) == k;
        SnakeCaseShape(value.items[i].fields[j].0);
      }
    }
  }

  /** A list of dicts whose keys are all snake-cased, as `env` and `volumes` come back. */
  ghost predicate SnakeCasedList(v: Option<Json>)
  {
    v.Some? && v.value.JArray? && forall e :: e in v.value.items ==> e.JObject? && forall k :: HasKey(e.fields, k) ==> NoCapitals(k)
  }

  /** `Config`: the loaded document (`None` for the plain `{}` of a run without a file) and where it came from. */
  class Config {
    var y: Option<Json>
    var configLocation: Option<string>
    const host: Host

    /** `__init__`: `y` starts as `{}` and becomes the document of the chosen file, if there is one. */
    constructor (host: Host, document: Option<Json>)
      requires document.Some? <==> ConfigLocation(host).Some?
      ensures this.host == host && y == document && configLocation == ConfigLocation(host)
    {
      this.host := host;
      y := None;
      configLocation := ConfigLocation(host);
      if ConfigLocation(host).Some? {
        y := document;
      }
    }

    /** `get_kubeconfig`: `None` unless the document sets one. */
    function GetKubeconfig(): (r: Json)
      reads this
      ensures y.None? ==> r == JNull
      ensures y.Some? ==> r == host.deflatedGet(y.value, "kubernetes.kubeconfig").GetOr(JNull)
    {
      Lookup(y, "kubernetes.kubeconfig", host.deflatedGet).GetOr(JNull)
    }

    /** `get_context`: `None` unless the document sets one. */
    function GetContext(): (r: Json)
      reads this
      ensures y.None? ==> r == JNull
      ensures y.Some? ==> r == host.deflatedGet(y.value, "kubernetes.context").GetOr(JNull)
    {
      Lookup(y, "kubernetes.context", host.deflatedGet).GetOr(JNull)
    }

    /** `get_namespace`: "default" unless the document sets one. */
    function GetNamespace(): (r: Json)
      reads this
      ensures y.None? ==> r == JString("default")
      ensures y.Some? ==> r == host.deflatedGet(y.value, "kubernetes.namespace").GetOr(JString("default"))
    {
      Namespace(Lookup(y, "kubernetes.namespace", host.deflatedGet))
    }

    /**
     * `get_builder_options`: the defaults without a file; otherwise every
     * default key is there, once.
     */
    function GetBuilderOptions(): (r: Result<Dict<Json>, Error>)
      reads this
      ensures y.None? ==> r == Success(DefaultBuilderOptions(host.userName))
      ensures r.Success? ==> DistinctKeys(r.value)
      ensures r.Success? ==> forall x :: HasKey(DefaultBuilderOptions(host.userName), x) ==> HasKey(r.value, x)
    {
      var builder := Lookup(y, "builder", host.deflatedGet);
      var r := OverDefaults(DefaultBuilderOptions(host.userName), builder);
      if r.Success? then
        BuilderOptionsOverride(builder, host.userName, "");
        assert forall x :: HasKey(DefaultBuilderOptions(host.userName), x) ==> HasKey(r.value, x) by {
          forall x | HasKey(DefaultBuilderOptions(host.userName), x) ensures HasKey(r.value, x) {
            BuilderOptionsOverride(builder, host.userName, x);
          }
        }
        r
      else r
    }

    /** `list_all_authorisers`: one URL per `auth` entry, in order; none without a file. */
    function ListAllAuthorisers(): (r: Result<seq<Json>, Error>)
      reads this
      ensures y.None? ==> r == Success([])
      ensures r.Success? ==> AuthEntries(Lookup(y, "auth", host.deflatedGet)).Success?
      ensures r.Success? ==> var entries := AuthEntries(Lookup(y, "auth", host.deflatedGet)).value;
        |r.value| == |entries| && forall i :: 0 <= i < |entries| ==> UrlOf(entries[i]) == Success(r.value[i])
    {
      var entries :- AuthEntries(Lookup(y, "auth", host.deflatedGet));
      Urls(entries)
    }

    /**
     * `list_always_mount_authorisers`: none without a file; otherwise the
     * `url` of exactly the entries whose `mount` is "always", in order, so
     * that whenever all URLs can be listed, the always-mounted ones are
     * among them, in order, and none is missed.
     */
    function ListAlwaysMountAuthorisers(): (r: Result<seq<Json>, Error>)
      reads this
      ensures y.None? ==> r == Success([])
      ensures r.Success? ==> AuthEntries(Lookup(y, "auth", host.deflatedGet)).Success?
      ensures r.Success? ==> r == Urls(AlwaysMountedEntries(AuthEntries(Lookup(y, "auth", host.deflatedGet)).value))
      ensures r.Success? && ListAllAuthorisers().Success? ==> SubsequenceOf(r.value, ListAllAuthorisers().value)
      ensures r.Success? && ListAllAuthorisers().Success? ==>
        var entries := AuthEntries(Lookup(y, "auth", host.deflatedGet)).value;
        forall i :: 0 <= i < |entries| && IsAlwaysMount(entries[i]) == Success(true) ==> ListAllAuthorisers().value[i] in r.value
    {
      var entries :- AuthEntries(Lookup(y, "auth", host.deflatedGet));
      var r := AlwaysUrls(entries);
      if r.Success? && Urls(entries).Success? then
        AlwaysUrlsSubsequence(entries);
        AlwaysUrlsComplete(entries);
        r
      else r
    }

    /**
     * `get_authoriser_options(url)`: the defaults without a file; otherwise
     * the options for the first entry with that `url` over the `auth` list
     * (see `AuthoriserOptionsOfMatch`), in which `env` and `volumes` always
     * come back as lists of snake-cased dicts.
     */
    function GetAuthoriserOptions(url: string): (r: Result<Dict<Json>, Error>)
      reads this
      ensures y.None? ==> r == Success(DefaultAuthOptions)
      ensures y.Some? ==> (r.Success? <==>
        AuthEntries(Lookup(y, "auth", host.deflatedGet)).Success?
        && AuthoriserOptions(AuthEntries(Lookup(y, "auth", host.deflatedGet)).value, url).Success?)
      ensures r.Success? ==> r == AuthoriserOptions(AuthEntries(Lookup(y, "auth", host.deflatedGet)).value, url)
      ensures r.Success? ==> SnakeCasedList(Get(r.value, "env")) && SnakeCasedList(Get(r.value, "volumes"))
    {
      var entries :- AuthEntries(Lookup(y, "auth", host.deflatedGet));
      var r := AuthoriserOptions(entries, url);
      if r.Success? then
        AuthoriserOptionsOfMatch(entries, url, "env");
        AuthoriserOptionsOfMatch(entries, url, "volumes");
        r
      else r
    }
  }

  /** Opening the configuration: the chosen file is loaded, or nothing when there is none. */
  method Open(host: Host) returns (r: Result<Config, Error>)
    ensures ConfigLocation(host).Some? && host.loadYaml(ConfigLocation(host).value).Failure? ==>
      r == Failure(host.loadYaml(ConfigLocation(host).value).error)
    ensures r.Success? ==> fresh(r.value) && r.value.host == host && r.value.configLocation == ConfigLocation(host)
    ensures r.Success? ==> r.value.y == if ConfigLocation(host).Some? then Some(host.loadYaml(ConfigLocation(host).value).value) else None
    ensures ConfigLocation(host).None? ==> r.Success?
  {
    var location := ConfigLocation(host);
    var document: Option<Json> := None;
    if location.Some? {
      var loaded := host.loadYaml(location.value);
      if loaded.Failure? {
        return Failure(loaded.error);
      }
      document := Some(loaded.value);
    }
    var c := new Config(host, document);
    r := Success(c);
  }

  /**
   * A run without a configuration file: no kubeconfig, the "default"
   * namespace, the default builder options and no authorisers.
   */
  lemma NoFileDefaults(c: Config)
    requires c.y.None?
    ensures c.GetKubeconfig() == JNull && c.GetNamespace() == JString("default")
    ensures c.GetBuilderOptions() == Success(DefaultBuilderOptions(c.host.userName))
    ensures c.ListAllAuthorisers() == Success([]) && c.ListAlwaysMountAuthorisers() == Success([])
    ensures forall url :: c.GetAuthoriserOptions(url) == Success(DefaultAuthOptions)
  {
    assert SnakeDict<Json>([]) == [];
  }
}
