/**
 * The Python authorisers (src/kaniko_remote/authorisers.py). A pod-only
 * authoriser pops its options one by one: `url`, `service_account`, `env`,
 * `volumes` and an optional `mount`. Each `env` and `volumes` entry is popped
 * key by key into one of five lists, and anything left over is an error.
 * An ACR authoriser first pops an optional `token`. The authorisers then
 * add those lists to the pod, and ACR writes its registry into a docker
 * config dict.
 *
 * Python's `str()` of a value, which the f-string error messages use, is
 * the parameter `show`.
 */
module PyAuthorisers {
  import opened Wrappers
  import opened Json
  import opened Errors
  import opened K8sModels
  import opened DockerConfigs
  import opened Base64
  import PySpecs

  /** Where an env or volume entry takes its values from. */
  datatype Source = FromSecret | FromConfigMap

  /** `_env_from_secrets`, `_env_from_config_maps` and `_env_key_values`. */
  datatype EnvLists = EnvLists(fromSecrets: seq<string>, fromConfigMaps: seq<string>, keyValues: seq<(string, string)>)

  /** `_volumes_from_secrets` and `_volumes_from_config_maps`: (resource name, mount path) pairs. */
  datatype VolumeLists = VolumeLists(fromSecrets: seq<(string, string)>, fromConfigMaps: seq<(string, string)>)

  /** A constructed `PodOnlyAuth`; the service account is kept only when it is a non-empty string. */
  datatype PodOnlyAuth = PodOnlyAuth(url: Json, serviceAccount: Option<string>, envs: EnvLists, volumes: VolumeLists)

  datatype ACRAuth = ACRAuth(token: Json, podOnly: PodOnlyAuth)

  /** What `get_matching_authorisers` returns, one per selected configuration. */
  datatype PyAuthoriser = PodOnly(podOnly: PodOnlyAuth) | Acr(acr: ACRAuth)

  const NoEnvs := EnvLists([], [], [])
  const NoVolumes := VolumeLists([], [])

  function Context(url: string): string
  {
    "Invalid auth config for '" + url + "'. "
  }

  function EnvFromSecretMessage(url: string, rest: string): string
  {
    Context(url) + "Env with 'fromSecret' should not contain other values, got: " + rest
  }

  function EnvFromConfigMapMessage(url: string, rest: string): string
  {
    Context(url) + "Env with 'fromConfigMap' should not contain other values, got: " + rest
  }

  function EnvShapeMessage(url: string, rest: string): string
  {
    Context(url) + "Env must specify one of 'fromSecret', 'fromConfigMap', or both 'key' and 'value'. Instead got: " + rest
  }

  function MissingMountPathMessage(url: string, rest: string): string
  {
    Context(url) + "Volume with missing 'mountPath', got " + rest
  }

  function VolumeFromSecretMessage(url: string, rest: string): string
  {
    Context(url) + "Volume with 'fromSecret' should not contain other values, got: " + rest
  }

  function VolumeFromConfigMapMessage(url: string, rest: string): string
  {
    Context(url) + "Volume with 'fromConfigMap' should not contain other values, got: " + rest
  }

  function VolumeShapeMessage(url: string, rest: string): string
  {
    Context(url) + "Volume must specify either 'fromSecret' or 'fromConfigMap'. Instead got: " + rest
  }

  function LeftoverMessage(url: string, rest: string): string
  {
    "Invalid auth config for '" + url + "' specified: " + rest
  }

  function UnknownTypeMessage(authType: string): string
  {
    "Unknown auth registry type: " + authType
  }

  /** `d.pop(k, None)`: the value popped, `None` when absent. */
  function PopValue(d: Dict<Json>, k: string): (r: Json)
    ensures HasKey(d, k) ==> r == Get(d, k).value
    ensures !HasKey(d, k) ==> r == JNull
  {
    Get(d, k).GetOr(JNull)
  }

  /** `d.pop(k)`: a missing key raises KeyError. */
  function PopRequired(d: Dict<Json>, k: string): (r: Result<Json, Error>)
    ensures r.Success? <==> HasKey(d, k)
    ensures r.Success? ==> r.value == Get(d, k).value
    ensures r.Failure? ==> r.error == KeyError(k)
  {
    if HasKey(d, k) then Success(Get(d, k).value) else Failure(KeyError(k))
  }

  /** A name the model follows: a string (Python would carry any value on). */
  function NameOf(j: Json, what: string): (r: Result<string, Error>)
    ensures r.Success? <==> j.JString?
    ensures r.Success? ==> r.value == j.s
  {
    if j.JString? then Success(j.s) else Failure(Unmodelled(what))
  }

  function TypeName(j: Json): string
  {
    match j
    case JNull => "NoneType"
    case JBool(_) => "bool"
    case JNumber(_) => "int"
    case JString(_) => "str"
    case JArray(_) => "list"
    case JObject(_) => "dict"
  }

  /**
   * `for x in j`: a list yields its items, a string its characters and a
   * dict its keys; anything else is not iterable.
   */
  function Iterate(j: Json): (r: Result<seq<Json>, Error>)
    ensures j.JArray? ==> r == Success(j.items)
    ensures r.Failure? <==> j.JNull? || j.JBool? || j.JNumber?
  {
    match j
    case JArray(items) => Success(items)
    case JString(s) => Success(seq(|s|, i requires 0 <= i < |s| => JString([s[i]])))
    case JObject(fields) => Success(seq(|fields|, i requires 0 <= i < |fields| => JString(fields[i].0)))
    case _ => Failure(TypeError("'" + TypeName(j) + "' object is not iterable"))
  }

  /** `entry.pop(k, None)` on one list element: only a dict has a two-argument `pop` that works. */
  function AsMapping(j: Json): (r: Result<Dict<Json>, Error>)
    ensures r.Success? <==> j.JObject?
    ensures r.Success? ==> r.value == j.fields
  {
    match j
    case JObject(fields) => Success(fields)
    case JArray(_) => Failure(TypeError("pop expected at most 1 argument, got 2"))
    case _ => Failure(AttributeError("pop"))
  }

  /** One `env` entry: `from_secret`, else `from_config_map`, else `key` and `value`. */
  function EnvStep(url: string, show: Json -> string, t: EnvLists, env: Dict<Json>): Result<EnvLists, Error>
  {
    var fromSecret := PopValue(env, "from_secret");
    var env1 := Remove(env, "from_secret");
    if Truthy(fromSecret) then
      if |env1| > 0 then Failure(ValueError(EnvFromSecretMessage(url, show(JObject(env1)))))
      else
        var name :- NameOf(fromSecret, "from_secret");
        Success(t.(fromSecrets := t.fromSecrets + [name]))
    else EnvAfterSecret(url, show, t, env1)
  }

  /** The `elif` branches of an `env` entry, once `from_secret` is popped and found falsy. */
  function EnvAfterSecret(url: string, show: Json -> string, t: EnvLists, env1: Dict<Json>): Result<EnvLists, Error>
  {
    var fromConfigMap := PopValue(env1, "from_config_map");
    var env2 := Remove(env1, "from_config_map");
    if Truthy(fromConfigMap) then
      if |env2| > 0 then Failure(ValueError(EnvFromConfigMapMessage(url, show(JObject(env2)))))
      else
        var name :- NameOf(fromConfigMap, "from_config_map");
        Success(t.(fromConfigMaps := t.fromConfigMaps + [name]))
    else EnvKeyValue(url, show, t, env2)
  }

  /** The `else` branch of an `env` entry: pop `key` and `value`, both must be truthy. */
  function EnvKeyValue(url: string, show: Json -> string, t: EnvLists, env2: Dict<Json>): Result<EnvLists, Error>
  {
    var key := PopValue(env2, "key");
    var env3 := Remove(env2, "key");
    var value := PopValue(env3, "value");
    var env4 := Remove(env3, "value");
    if Truthy(key) && Truthy(value) then
      var k :- NameOf(key, "key");
      var v :- NameOf(value, "value");
      Success(t.(keyValues := t.keyValues + [(k, v)]))
    else
      Failure(ValueError(EnvShapeMessage(url, show(JObject(env4)))))
  }

  /** The `env` loop: the first bad entry raises. */
  function ParseEnvs(url: string, show: Json -> string, entries: seq<Json>, t: EnvLists): Result<EnvLists, Error>
    decreases |entries|
  {
    if |entries| == 0 then Success(t)
    else
      var env :- AsMapping(entries[0]);
      var t' :- EnvStep(url, show, t, env);
      ParseEnvs(url, show, entries[1..], t')
  }

  /** One `volumes` entry: a `mount_path`, then `from_secret` or `from_config_map`. */
  function VolumeStep(url: string, show: Json -> string, t: VolumeLists, vol: Dict<Json>): Result<VolumeLists, Error>
  {
    var mountPath := PopValue(vol, "mount_path");
    var vol1 := Remove(vol, "mount_path");
    if mountPath.JNull? then Failure(ValueError(MissingMountPathMessage(url, show(JObject(vol1)))))
    else
      var fromSecret := PopValue(vol1, "from_secret");
      var vol2 := Remove(vol1, "from_secret");
      if Truthy(fromSecret) then
        if |vol2| > 0 then Failure(ValueError(VolumeFromSecretMessage(url, show(JObject(vol2)))))
        else
          var name :- NameOf(fromSecret, "from_secret");
          var path :- NameOf(mountPath, "mount_path");
          Success(t.(fromSecrets := t.fromSecrets + [(name, path)]))
      else
        var fromConfigMap := PopValue(vol2, "from_config_map");
        var vol3 := Remove(vol2, "from_config_map");
        if Truthy(fromConfigMap) then
          if |vol3| > 0 then Failure(ValueError(VolumeFromConfigMapMessage(url, show(JObject(vol3)))))
          else
            var name :- NameOf(fromConfigMap, "from_config_map");
            var path :- NameOf(mountPath, "mount_path");
            Success(t.(fromConfigMaps := t.fromConfigMaps + [(name, path)]))
        else
          Failure(ValueError(VolumeShapeMessage(url, show(JObject(vol3)))))
  }

  /** The `volumes` loop. */
  function ParseVolumes(url: string, show: Json -> string, entries: seq<Json>, t: VolumeLists): Result<VolumeLists, Error>
    decreases |entries|
  {
    if |entries| == 0 then Success(t)
    else
      var vol :- AsMapping(entries[0]);
      var t' :- VolumeStep(url, show, t, vol);
      ParseVolumes(url, show, entries[1..], t')
  }

  /** The options `PodOnlyAuth.__init__` consumes. */
  const PodOnlyKeys: set<string> := {"url", "service_account", "env", "volumes", "mount"}

  /** What is left of the options after the constructor's pops. */
  function Leftover(options: Dict<Json>): Dict<Json>
  {
    Remove(Remove(Remove(Remove(Remove(options, "url"), "service_account"), "env"), "volumes"), "mount")
  }

  /** A truthy service account is used by `append_auth_to_pod`; the model follows it when it is a string. */
  function ServiceAccountOf(j: Json): (r: Result<Option<string>, Error>)
    ensures r.Success? ==> (r.value.Some? <==> Truthy(j))
    ensures r.Success? && r.value.Some? ==> j == JString(r.value.value)
  {
    if !Truthy(j) then Success(None)
    else if j.JString? then Success(Some(j.s))
    else Failure(Unmodelled("service_account"))
  }

  /**
   * `PodOnlyAuth.__init__` as one function: the four required pops, then
   * the rest. A missing `url` is the first KeyError; a constructed
   * authoriser had every required option, no option beyond the five it
   * consumes, and keeps its `url`.
   */
  function FromOptions(options: Dict<Json>, show: Json -> string): (r: Result<PodOnlyAuth, Error>)
    ensures !HasKey(options, "url") ==> r == Failure(KeyError("url"))
    ensures r.Success? ==>
      && HasKey(options, "url") && HasKey(options, "service_account") && HasKey(options, "env") && HasKey(options, "volumes")
      && OnlyKeys(options, PodOnlyKeys)
      && r.value.url == Get(options, "url").value
  {
    var url :- PopRequired(options, "url");
    var serviceAccount :- PopRequired(options, "service_account");
    var envNodes :- PopRequired(options, "env");
    var volNodes :- PopRequired(options, "volumes");
    LeftoverRest(options);
    FromParts(url, serviceAccount, envNodes, volNodes, Leftover(options), show)
  }

  /**
   * The two loops and the leftover check, once the required options are
   * popped. A construction that succeeds had nothing left over and keeps
   * the `url` it was given.
   */
  function FromParts(url: Json, serviceAccount: Json, envNodes: Json, volNodes: Json, rest: Dict<Json>,
                     show: Json -> string): (r: Result<PodOnlyAuth, Error>)
    ensures r.Success? ==> |rest| == 0 && r.value.url == url
  {
    var envEntries :- Iterate(envNodes);
    var envs :- ParseEnvs(show(url), show, envEntries, NoEnvs);
    var volEntries :- Iterate(volNodes);
    var vols :- ParseVolumes(show(url), show, volEntries, NoVolumes);
    if |rest| > 0 then Failure(ValueError(LeftoverMessage(show(url), show(JObject(rest)))))
    else
      var account :- ServiceAccountOf(serviceAccount);
      Success(PodOnlyAuth(url, account, envs, vols))
  }

  /** The constructor, its two loops appending entry by entry. */
  method Create(options: Dict<Json>, show: Json -> string) returns (r: Result<PodOnlyAuth, Error>)
    ensures r == FromOptions(options, show)
  {
    var url :- PopRequired(options, "url");
    var serviceAccount :- PopRequired(options, "service_account");
    var envNodes :- PopRequired(options, "env");
    var volNodes :- PopRequired(options, "volumes");
    var envEntries :- Iterate(envNodes);
    var envs := NoEnvs;
    var i := 0;
    while i < |envEntries|
      invariant 0 <= i <= |envEntries|
      invariant ParseEnvs(show(url), show, envEntries, NoEnvs) == ParseEnvs(show(url), show, envEntries[i..], envs)
    {
      assert envEntries[i..][1..] == envEntries[i + 1..];
      var env :- AsMapping(envEntries[i]);
      envs :- EnvStep(show(url), show, envs, env);
      i := i + 1;
    }
    var volEntries :- Iterate(volNodes);
    var vols := NoVolumes;
    i := 0;
    while i < |volEntries|
      invariant 0 <= i <= |volEntries|
      invariant ParseVolumes(show(url), show, volEntries, NoVolumes) == ParseVolumes(show(url), show, volEntries[i..], vols)
    {
      assert volEntries[i..][1..] == volEntries[i + 1..];
      var vol :- AsMapping(volEntries[i]);
      vols :- VolumeStep(show(url), show, vols, vol);
      i := i + 1;
    }
    var rest := Leftover(options);
    if |rest| > 0 {
      return Failure(ValueError(LeftoverMessage(show(url), show(JObject(rest)))));
    }
    var account :- ServiceAccountOf(serviceAccount);
    r := Success(PodOnlyAuth(url, account, envs, vols));
  }

  /**
   * An env entry with a truthy `from_secret` is taken only when it has no
   * other key; any other key makes it a ValueError naming what is left.
   */
  lemma EnvFromSecretEntry(url: string, show: Json -> string, t: EnvLists, env: Dict<Json>)
    requires Truthy(PopValue(env, "from_secret"))
    ensures EnvStep(url, show, t, env).Success? <==> OnlyKeys(env, {"from_secret"}) && PopValue(env, "from_secret").JString?
    ensures !OnlyKeys(env, {"from_secret"}) ==>
      EnvStep(url, show, t, env) == Failure(ValueError(EnvFromSecretMessage(url, show(JObject(Remove(env, "from_secret"))))))
    ensures EnvStep(url, show, t, env).Success? ==>
      EnvStep(url, show, t, env).value == t.(fromSecrets := t.fromSecrets + [PopValue(env, "from_secret").s])
  {
    RemoveOnlyKeys(env, "from_secret", {});
    OnlyNoKeys(Remove(env, "from_secret"));
    assert {} + {"from_secret"} == {"from_secret"};
  }

  /**
   * With no truthy `from_secret`, a truthy `from_config_map` is taken only
   * when the entry has no key besides those two.
   */
  lemma EnvFromConfigMapEntry(url: string, show: Json -> string, t: EnvLists, env: Dict<Json>)
    requires !Truthy(PopValue(env, "from_secret")) && Truthy(PopValue(env, "from_config_map"))
    ensures EnvStep(url, show, t, env).Success? <==>
      OnlyKeys(env, {"from_secret", "from_config_map"}) && PopValue(env, "from_config_map").JString?
    ensures !OnlyKeys(env, {"from_secret", "from_config_map"}) ==>
      EnvStep(url, show, t, env).Failure? && EnvStep(url, show, t, env).error.ValueError?
    ensures EnvStep(url, show, t, env).Success? ==>
      EnvStep(url, show, t, env).value == t.(fromConfigMaps := t.fromConfigMaps + [PopValue(env, "from_config_map").s])
  {
    var env1 := Remove(env, "from_secret");
    var env2 := Remove(env1, "from_config_map");
    assert EnvStep(url, show, t, env) == EnvAfterSecret(url, show, t, env1);
    assert PopValue(env1, "from_config_map") == PopValue(env, "from_config_map") by {
      GetRemove(env, "from_secret", "from_config_map");
    }
    FromKeysOnly(env);
  }

  /** Nothing is left of an entry once both `from_*` keys are popped exactly when it has no other keys. */
  lemma FromKeysOnly(env: Dict<Json>)
    ensures |Remove(Remove(env, "from_secret"), "from_config_map")| == 0 <==> OnlyKeys(env, {"from_secret", "from_config_map"})
  {
    var env1 := Remove(env, "from_secret");
    RemoveOnlyKeys(env1, "from_config_map", {});
    RemoveOnlyKeys(env, "from_secret", {"from_config_map"});
    OnlyNoKeys(Remove(env1, "from_config_map"));
    assert {} + {"from_config_map"} == {"from_config_map"};
    assert {"from_config_map"} + {"from_secret"} == {"from_secret", "from_config_map"};
  }

  /**
   * With neither `from_*` truthy, the entry needs both `key` and `value`
   * truthy; other keys beside them are not checked.
   */
  lemma EnvKeyValueEntry(url: string, show: Json -> string, t: EnvLists, env: Dict<Json>)
    requires !Truthy(PopValue(env, "from_secret")) && !Truthy(PopValue(env, "from_config_map"))
    ensures var key, value := PopValue(env, "key"), PopValue(env, "value");
      && (EnvStep(url, show, t, env).Success? <==> Truthy(key) && Truthy(value) && key.JString? && value.JString?)
      && (!(Truthy(key) && Truthy(value)) ==>
            EnvStep(url, show, t, env).Failure? && EnvStep(url, show, t, env).error.ValueError?)
      && (EnvStep(url, show, t, env).Success? ==>
            EnvStep(url, show, t, env).value == t.(keyValues := t.keyValues + [(key.s, value.s)]))
  {
    var env1 := Remove(env, "from_secret");
    var env2 := Remove(env1, "from_config_map");
    var env3 := Remove(env2, "key");
    assert PopValue(env1, "from_config_map") == PopValue(env, "from_config_map") by {
      GetRemove(env, "from_secret", "from_config_map");
    }
    assert EnvStep(url, show, t, env) == EnvKeyValue(url, show, t, env2);
    assert PopValue(env2, "key") == PopValue(env, "key") by {
      GetRemove(env, "from_secret", "key");
      GetRemove(env1, "from_config_map", "key");
    }
    assert PopValue(env3, "value") == PopValue(env, "value") by {
      GetRemove(env, "from_secret", "value");
      GetRemove(env1, "from_config_map", "value");
      GetRemove(env2, "key", "value");
    }
  }

  /** A volume entry without a `mount_path` (or with a null one) is a ValueError. */
  lemma VolumeWithoutMountPath(url: string, show: Json -> string, t: VolumeLists, vol: Dict<Json>)
    requires PopValue(vol, "mount_path").JNull?
    ensures VolumeStep(url, show, t, vol) ==
      Failure(ValueError(MissingMountPathMessage(url, show(JObject(Remove(vol, "mount_path"))))))
  {
  }

  /**
   * A volume entry with a mount path and a truthy `from_secret` is taken
   * only when it has no other key, and records the pair (secret, path).
   */
  lemma VolumeFromSecretEntry(url: string, show: Json -> string, t: VolumeLists, vol: Dict<Json>)
    requires !PopValue(vol, "mount_path").JNull? && Truthy(PopValue(vol, "from_secret"))
    ensures var path, secret := PopValue(vol, "mount_path"), PopValue(vol, "from_secret");
      && (VolumeStep(url, show, t, vol).Success? <==>
            OnlyKeys(vol, {"mount_path", "from_secret"}) && secret.JString? && path.JString?)
      && (!OnlyKeys(vol, {"mount_path", "from_secret"}) ==>
            VolumeStep(url, show, t, vol).Failure? && VolumeStep(url, show, t, vol).error.ValueError?)
      && (VolumeStep(url, show, t, vol).Success? ==>
            VolumeStep(url, show, t, vol).value == t.(fromSecrets := t.fromSecrets + [(secret.s, path.s)]))
  {
    GetRemove(vol, "mount_path", "from_secret");
    RemoveOnlyKeys(Remove(vol, "mount_path"), "from_secret", {});
    RemoveOnlyKeys(vol, "mount_path", {"from_secret"});
    OnlyNoKeys(Remove(Remove(vol, "mount_path"), "from_secret"));
    assert {} + {"from_secret"} == {"from_secret"};
    assert {"from_secret"} + {"mount_path"} == {"mount_path", "from_secret"};
  }

  /** Popping earlier keys of a volume entry leaves the later keys' values. */
  lemma VolumePops(vol: Dict<Json>)
    ensures PopValue(Remove(vol, "mount_path"), "from_secret") == PopValue(vol, "from_secret")
    ensures PopValue(Remove(Remove(vol, "mount_path"), "from_secret"), "from_config_map") == PopValue(vol, "from_config_map")
  {
    GetRemove(vol, "mount_path", "from_secret");
    GetRemove(vol, "mount_path", "from_config_map");
    GetRemove(Remove(vol, "mount_path"), "from_secret", "from_config_map");
  }

  /** Nothing is left of a volume entry after its three pops exactly when it had no other key. */
  lemma VolumeRest(vol: Dict<Json>)
    ensures |Remove(Remove(Remove(vol, "mount_path"), "from_secret"), "from_config_map")| == 0 <==>
      OnlyKeys(vol, {"mount_path", "from_secret", "from_config_map"})
  {
    var vol1 := Remove(vol, "mount_path");
    var vol2 := Remove(vol1, "from_secret");
    RemoveOnlyKeys(vol2, "from_config_map", {});
    OnlyNoKeys(Remove(vol2, "from_config_map"));
    assert OnlyKeys(vol2, {"from_config_map"}) <==> |Remove(vol2, "from_config_map")| == 0 by {
      assert {} + {"from_config_map"} == {"from_config_map"};
    }
    RemoveOnlyKeys(vol1, "from_secret", {"from_config_map"});
    assert OnlyKeys(vol1, {"from_config_map", "from_secret"}) <==> OnlyKeys(vol2, {"from_config_map"}) by {
      assert {"from_config_map"} + {"from_secret"} == {"from_config_map", "from_secret"};
    }
    RemoveOnlyKeys(vol, "mount_path", {"from_config_map", "from_secret"});
    assert {"from_config_map", "from_secret"} + {"mount_path"} == {"mount_path", "from_secret", "from_config_map"};
  }

  /**
   * With no truthy `from_secret`, a truthy `from_config_map` is taken only
   * when the entry has no key besides the mount path and the two sources.
   */
  lemma VolumeFromConfigMapEntry(url: string, show: Json -> string, t: VolumeLists, vol: Dict<Json>)
    requires !PopValue(vol, "mount_path").JNull?
    requires !Truthy(PopValue(vol, "from_secret")) && Truthy(PopValue(vol, "from_config_map"))
    ensures var path, configMap := PopValue(vol, "mount_path"), PopValue(vol, "from_config_map");
      && (VolumeStep(url, show, t, vol).Success? <==>
            OnlyKeys(vol, {"mount_path", "from_secret", "from_config_map"}) && configMap.JString? && path.JString?)
      && (!OnlyKeys(vol, {"mount_path", "from_secret", "from_config_map"}) ==>
            VolumeStep(url, show, t, vol).Failure? && VolumeStep(url, show, t, vol).error.ValueError?)
      && (VolumeStep(url, show, t, vol).Success? ==>
            VolumeStep(url, show, t, vol).value == t.(fromConfigMaps := t.fromConfigMaps + [(configMap.s, path.s)]))
  {
    VolumePops(vol);
    VolumeRest(vol);
  }

  /** A volume entry with a mount path but neither source truthy is a ValueError. */
  lemma VolumeWithoutSource(url: string, show: Json -> string, t: VolumeLists, vol: Dict<Json>)
    requires !PopValue(vol, "mount_path").JNull?
    requires !Truthy(PopValue(vol, "from_secret")) && !Truthy(PopValue(vol, "from_config_map"))
    ensures VolumeStep(url, show, t, vol).Failure? && VolumeStep(url, show, t, vol).error.ValueError?
  {
    GetRemove(vol, "mount_path", "from_secret");
    GetRemove(vol, "mount_path", "from_config_map");
    GetRemove(Remove(vol, "mount_path"), "from_secret", "from_config_map");
  }

  /** Nothing is left after the constructor's pops exactly when the options had no other key. */
  lemma LeftoverRest(options: Dict<Json>)
    ensures |Leftover(options)| == 0 <==> OnlyKeys(options, PodOnlyKeys)
  {
    var o1 := Remove(options, "url");
    var o2 := Remove(o1, "service_account");
    var o3 := Remove(o2, "env");
    var o4 := Remove(o3, "volumes");
    assert OnlyKeys(o4, {"mount"}) <==> |Remove(o4, "mount")| == 0 by {
      RemoveOnlyKeys(o4, "mount", {});
      OnlyNoKeys(Remove(o4, "mount"));
      assert {} + {"mount"} == {"mount"};
    }
    assert OnlyKeys(o3, {"mount", "volumes"}) <==> OnlyKeys(o4, {"mount"}) by {
      RemoveOnlyKeys(o3, "volumes", {"mount"});
      assert {"mount"} + {"volumes"} == {"mount", "volumes"};
    }
    assert OnlyKeys(o2, {"mount", "volumes", "env"}) <==> OnlyKeys(o3, {"mount", "volumes"}) by {
      RemoveOnlyKeys(o2, "env", {"mount", "volumes"});
      assert {"mount", "volumes"} + {"env"} == {"mount", "volumes", "env"};
    }
    assert OnlyKeys(o1, {"mount", "volumes", "env", "service_account"}) <==> OnlyKeys(o2, {"mount", "volumes", "env"}) by {
      RemoveOnlyKeys(o1, "service_account", {"mount", "volumes", "env"});
      assert {"mount", "volumes", "env"} + {"service_account"} == {"mount", "volumes", "env", "service_account"};
    }
    assert OnlyKeys(options, PodOnlyKeys) <==> OnlyKeys(o1, {"mount", "volumes", "env", "service_account"}) by {
      RemoveOnlyKeys(options, "url", {"mount", "volumes", "env", "service_account"});
      assert {"mount", "volumes", "env", "service_account"} + {"url"} == PodOnlyKeys;
    }
  }

  function EnvFromOf(name: string, source: Source): EnvFromSource
  {
    if source == FromSecret then SecretRef(name) else ConfigMapRef(name)
  }

  function EnvFromsOf(names: seq<string>, source: Source): (r: seq<EnvFromSource>)
    ensures |r| == |names| && forall i :: 0 <= i < |names| ==> r[i] == EnvFromOf(names[i], source)
  {
    seq(|names|, i requires 0 <= i < |names| => EnvFromOf(names[i], source))
  }

  function EnvVarsOf(keyValues: seq<(string, string)>): (r: seq<EnvVar>)
    ensures |r| == |keyValues| && forall i :: 0 <= i < |keyValues| ==> r[i] == EnvVar(keyValues[i].0, keyValues[i].1)
  {
    seq(|keyValues|, i requires 0 <= i < |keyValues| => EnvVar(keyValues[i].0, keyValues[i].1))
  }

  function VolumeOf(name: string, source: Source): Volume
  {
    Volume(name, if source == FromSecret then SecretVolume(name) else ConfigMapVolume(name))
  }

  function VolumesOf(vols: seq<(string, string)>, source: Source): (r: seq<Volume>)
    ensures |r| == |vols| && forall i :: 0 <= i < |vols| ==> r[i] == VolumeOf(vols[i].0, source)
  {
    seq(|vols|, i requires 0 <= i < |vols| => VolumeOf(vols[i].0, source))
  }

  /** The mounts of `k8s_specs.py`: named after the resource, not read-only. */
  function MountsOf(vols: seq<(string, string)>): (r: seq<VolumeMount>)
    ensures |r| == |vols| && forall i :: 0 <= i < |vols| ==> r[i] == VolumeMount(vols[i].0, vols[i].1, false)
  {
    seq(|vols|, i requires 0 <= i < |vols| => VolumeMount(vols[i].0, vols[i].1, false))
  }

  /**
   * What `append_auth_to_pod` adds: the service account, then config-map
   * envFroms before secret envFroms, the key/value env vars, and config-map
   * volumes before secret volumes.
   */
  function Patch(a: PodOnlyAuth): PodPatch
  {
    PodPatch(
      a.serviceAccount,
      EnvVarsOf(a.envs.keyValues),
      EnvFromsOf(a.envs.fromConfigMaps, FromConfigMap) + EnvFromsOf(a.envs.fromSecrets, FromSecret),
      VolumesOf(a.volumes.fromConfigMaps, FromConfigMap) + VolumesOf(a.volumes.fromSecrets, FromSecret),
      MountsOf(a.volumes.fromConfigMaps) + MountsOf(a.volumes.fromSecrets))
  }

  /** The two envFrom loops of `append_auth_to_pod`. */
  method AppendEnvFroms(pod: Pod, names: seq<string>, source: Source)
    requires |pod.spec.containers| > 0
    modifies FirstContainer(pod)`envFrom
    ensures AuthStateOf(pod) == Apply(old(AuthStateOf(pod)), PodPatch(None, [], EnvFromsOf(names, source), [], []))
  {
    ghost var s0 := AuthStateOf(pod);
    var i := 0;
    while i < |names|
      invariant 0 <= i <= |names|
      invariant AuthStateOf(pod) == Apply(s0, PodPatch(None, [], EnvFromsOf(names[..i], source), [], []))
    {
      if source == FromSecret {
        var _ := PySpecs.AppendEnvFromSecret(pod, names[i]);
      } else {
        var _ := PySpecs.AppendEnvFromConfigMap(pod, names[i]);
      }
      ApplyThen(s0, PodPatch(None, [], EnvFromsOf(names[..i], source), [], []),
                PodPatch(None, [], [EnvFromOf(names[i], source)], [], []));
      assert EnvFromsOf(names[..i], source) + [EnvFromOf(names[i], source)] == EnvFromsOf(names[..i + 1], source);
      i := i + 1;
    }
    assert names[..i] == names;
  }

  /** The key/value loop of `append_auth_to_pod`. */
  method AppendKeyValues(pod: Pod, keyValues: seq<(string, string)>)
    requires |pod.spec.containers| > 0
    modifies FirstContainer(pod)`env
    ensures AuthStateOf(pod) == Apply(old(AuthStateOf(pod)), PodPatch(None, EnvVarsOf(keyValues), [], [], []))
  {
    ghost var s0 := AuthStateOf(pod);
    var i := 0;
    while i < |keyValues|
      invariant 0 <= i <= |keyValues|
      invariant AuthStateOf(pod) == Apply(s0, PodPatch(None, EnvVarsOf(keyValues[..i]), [], [], []))
    {
      var _ := PySpecs.AppendEnvVar(pod, keyValues[i].0, keyValues[i].1);
      ApplyThen(s0, PodPatch(None, EnvVarsOf(keyValues[..i]), [], [], []),
                PodPatch(None, [EnvVar(keyValues[i].0, keyValues[i].1)], [], [], []));
      assert EnvVarsOf(keyValues[..i]) + [EnvVar(keyValues[i].0, keyValues[i].1)] == EnvVarsOf(keyValues[..i + 1]);
      i := i + 1;
    }
    assert keyValues[..i] == keyValues;
  }

  /** The two volume loops of `append_auth_to_pod`. */
  method AppendVolumes(pod: Pod, vols: seq<(string, string)>, source: Source)
    requires |pod.spec.containers| > 0
    modifies pod.spec`volumes, FirstContainer(pod).volumeMounts
    ensures AuthStateOf(pod) == Apply(old(AuthStateOf(pod)), PodPatch(None, [], [], VolumesOf(vols, source), MountsOf(vols)))
  {
    ghost var s0 := AuthStateOf(pod);
    var i := 0;
    while i < |vols|
      invariant 0 <= i <= |vols|
      invariant AuthStateOf(pod) == Apply(s0, PodPatch(None, [], [], VolumesOf(vols[..i], source), MountsOf(vols[..i])))
    {
      if source == FromSecret {
        var _ := PySpecs.AppendVolumeFromSecret(pod, vols[i].0, vols[i].1);
      } else {
        var _ := PySpecs.AppendVolumeFromConfigMap(pod, vols[i].0, vols[i].1);
      }
      ApplyThen(s0, PodPatch(None, [], [], VolumesOf(vols[..i], source), MountsOf(vols[..i])),
                PodPatch(None, [], [], [VolumeOf(vols[i].0, source)], [VolumeMount(vols[i].0, vols[i].1, false)]));
      assert VolumesOf(vols[..i], source) + [VolumeOf(vols[i].0, source)] == VolumesOf(vols[..i + 1], source);
      assert MountsOf(vols[..i]) + [VolumeMount(vols[i].0, vols[i].1, false)] == MountsOf(vols[..i + 1]);
      i := i + 1;
    }
    assert vols[..i] == vols;
  }

  /** What the env half of `append_auth_to_pod` adds. */
  function EnvPatch(envs: EnvLists): PodPatch
  {
    PodPatch(None, EnvVarsOf(envs.keyValues),
             EnvFromsOf(envs.fromConfigMaps, FromConfigMap) + EnvFromsOf(envs.fromSecrets, FromSecret), [], [])
  }

  /** What the volume half of `append_auth_to_pod` adds. */
  function VolumePatch(vols: VolumeLists): PodPatch
  {
    PodPatch(None, [], [],
             VolumesOf(vols.fromConfigMaps, FromConfigMap) + VolumesOf(vols.fromSecrets, FromSecret),
             MountsOf(vols.fromConfigMaps) + MountsOf(vols.fromSecrets))
  }

  /** The three env loops: config-map envFroms, secret envFroms, key/value env vars. */
  method AppendEnvs(pod: Pod, envs: EnvLists)
    requires |pod.spec.containers| > 0
    modifies FirstContainer(pod)
    ensures AuthStateOf(pod) == Apply(old(AuthStateOf(pod)), EnvPatch(envs))
  {
    ghost var s0 := AuthStateOf(pod);
    AppendEnvFroms(pod, envs.fromConfigMaps, FromConfigMap);
    ghost var p1 := PodPatch(None, [], EnvFromsOf(envs.fromConfigMaps, FromConfigMap), [], []);
    AppendEnvFroms(pod, envs.fromSecrets, FromSecret);
    ghost var p2 := PodPatch(None, [], EnvFromsOf(envs.fromSecrets, FromSecret), [], []);
    ApplyThen(s0, p1, p2);
    AppendKeyValues(pod, envs.keyValues);
    ghost var p3 := PodPatch(None, EnvVarsOf(envs.keyValues), [], [], []);
    ApplyThen(s0, Then(p1, p2), p3);
    assert Then(Then(p1, p2), p3) == EnvPatch(envs);
  }

  /** The two volume loops: config maps first, then secrets. */
  method AppendAllVolumes(pod: Pod, vols: VolumeLists)
    requires |pod.spec.containers| > 0
    modifies pod.spec`volumes, FirstContainer(pod).volumeMounts
    ensures AuthStateOf(pod) == Apply(old(AuthStateOf(pod)), VolumePatch(vols))
  {
    ghost var s0 := AuthStateOf(pod);
    AppendVolumes(pod, vols.fromConfigMaps, FromConfigMap);
    ghost var p1 := PodPatch(None, [], [], VolumesOf(vols.fromConfigMaps, FromConfigMap), MountsOf(vols.fromConfigMaps));
    AppendVolumes(pod, vols.fromSecrets, FromSecret);
    ghost var p2 := PodPatch(None, [], [], VolumesOf(vols.fromSecrets, FromSecret), MountsOf(vols.fromSecrets));
    ApplyThen(s0, p1, p2);
    assert Then(p1, p2) == VolumePatch(vols);
  }

  /**
   * `append_auth_to_pod`, with the mutators of `k8s_specs.py`: the service
   * account when one is set, then the five lists in the order above.
   */
  method AppendAuthToPod(a: PodOnlyAuth, pod: Pod) returns (r: Pod)
    requires |pod.spec.containers| > 0
    modifies pod.spec, FirstContainer(pod), FirstContainer(pod).volumeMounts
    ensures r == pod
    ensures AuthStateOf(pod) == Apply(old(AuthStateOf(pod)), Patch(a))
  {
    ghost var s0 := AuthStateOf(pod);
    ghost var p0 := PodPatch(a.serviceAccount, [], [], [], []);
    r := pod;
    if a.serviceAccount.Some? {
      r := PySpecs.ReplaceServiceAccount(r, a.serviceAccount.value);
    } else {
      ApplyNoPatch(s0);
    }
    AppendEnvs(pod, a.envs);
    ApplyThen(s0, p0, EnvPatch(a.envs));
    AppendAllVolumes(pod, a.volumes);
    ApplyThen(s0, Then(p0, EnvPatch(a.envs)), VolumePatch(a.volumes));
    PatchInParts(a);
  }

  /** The service account, the env half and the volume half make up `Patch`. */
  lemma PatchInParts(a: PodOnlyAuth)
    ensures Then(Then(PodPatch(a.serviceAccount, [], [], [], []), EnvPatch(a.envs)), VolumePatch(a.volumes)) == Patch(a)
  {
  }

  /**
   * The order of what `append_auth_to_pod` adds: every config-map envFrom
   * comes before every secret envFrom, and every config-map volume before
   * every secret volume, each mount named after its volume.
   */
  lemma PatchOrder(a: PodOnlyAuth)
    ensures var p, c, s := Patch(a), |a.envs.fromConfigMaps|, |a.envs.fromSecrets|;
      && |p.envFrom| == c + s
      && (forall i :: 0 <= i < c ==> p.envFrom[i] == ConfigMapRef(a.envs.fromConfigMaps[i]))
      && (forall i :: c <= i < c + s ==> p.envFrom[i] == SecretRef(a.envs.fromSecrets[i - c]))
    ensures var p, c, s := Patch(a), |a.volumes.fromConfigMaps|, |a.volumes.fromSecrets|;
      && |p.volumes| == |p.mounts| == c + s
      && (forall i :: 0 <= i < c ==> p.volumes[i].source == ConfigMapVolume(a.volumes.fromConfigMaps[i].0))
      && (forall i :: c <= i < c + s ==> p.volumes[i].source == SecretVolume(a.volumes.fromSecrets[i - c].0))
      && (forall i :: 0 <= i < c + s ==> p.mounts[i].name == p.volumes[i].name && !p.mounts[i].readOnly)
  {
  }

  /**
   * `append_auth_to_pod` as written: the mutators come from the older
   * `k8s/specs.py`, which has only `replace_service_account` and
   * `append_env_from_secret`, so the first call of any other mutator raises
   * AttributeError. It succeeds exactly for authorisers with nothing but a
   * service account and secret envFroms, and then agrees with `Patch`.
   */
  function AppendAuthToPodAsWritten(a: PodOnlyAuth): (r: Result<PodPatch, Error>)
    ensures r.Success? <==> a.envs.fromConfigMaps == [] && a.envs.keyValues == [] && a.volumes == NoVolumes
    ensures r.Success? ==> r.value == Patch(a)
  {
    if |a.envs.fromConfigMaps| > 0 then Failure(AttributeError("append_env_from_config_map"))
    else if |a.envs.keyValues| > 0 then Failure(AttributeError("append_env_var"))
    else if |a.volumes.fromConfigMaps| > 0 then Failure(AttributeError("append_volume_from_config_map"))
    else if |a.volumes.fromSecrets| > 0 then Failure(AttributeError("append_volume_from_secret"))
    else Success(PodPatch(a.serviceAccount, [], EnvFromsOf(a.envs.fromSecrets, FromSecret), [], []))
  }

  /** The options the builder's tests use: one env entry mounting a config map. */
  const ConfigMapEnvOptions: Dict<Json> := [
    ("url", JString("myregistry.azurecr.io")),
    ("service_account", JNull),
    ("env", JArray([JObject([("from_config_map", JString("my-config"))])])),
    ("volumes", JArray([]))]

  /** The authoriser those options give: one config-map env, nothing else. */
  const ConfigMapEnvAuth := PodOnlyAuth(JString("myregistry.azurecr.io"), None, EnvLists([], ["my-config"], []), NoVolumes)

  lemma ConfigMapEnvEntry(url: string, show: Json -> string)
    ensures EnvStep(url, show, NoEnvs, [("from_config_map", JString("my-config"))]) == Success(EnvLists([], ["my-config"], []))
  {
    var entry := [("from_config_map", JString("my-config"))];
    assert PopValue(entry, "from_secret") == JNull by {
      assert Get(entry, "from_secret") == Get(entry[1..], "from_secret");
    }
    assert PopValue(entry, "from_config_map") == JString("my-config");
    assert OnlyKeys(entry, {"from_secret", "from_config_map"});
    EnvFromConfigMapEntry(url, show, NoEnvs, entry);
    assert NoEnvs.fromConfigMaps + ["my-config"] == ["my-config"];
  }

  lemma ConfigMapEnvOptionValues()
    ensures Get(ConfigMapEnvOptions, "url") == Some(JString("myregistry.azurecr.io"))
    ensures Get(ConfigMapEnvOptions, "service_account") == Some(JNull)
    ensures Get(ConfigMapEnvOptions, "env") == Some(JArray([JObject([("from_config_map", JString("my-config"))])]))
    ensures Get(ConfigMapEnvOptions, "volumes") == Some(JArray([]))
    ensures Leftover(ConfigMapEnvOptions) == []
  {
    assert OnlyKeys(ConfigMapEnvOptions, PodOnlyKeys);
    LeftoverRest(ConfigMapEnvOptions);
  }

  lemma ConfigMapEnvParts(show: Json -> string)
    ensures FromParts(JString("myregistry.azurecr.io"), JNull, JArray([JObject([("from_config_map", JString("my-config"))])]),
                      JArray([]), [], show) == Success(ConfigMapEnvAuth)
  {
    var url := show(JString("myregistry.azurecr.io"));
    var entry := [("from_config_map", JString("my-config"))];
    ConfigMapEnvEntry(url, show);
    assert [JObject(entry)][1..] == [];
    assert ParseEnvs(url, show, [JObject(entry)], NoEnvs) == Success(EnvLists([], ["my-config"], []));
  }

  lemma ConfigMapEnvParses(show: Json -> string)
    ensures FromOptions(ConfigMapEnvOptions, show) == Success(ConfigMapEnvAuth)
  {
    ConfigMapEnvOptionValues();
    ConfigMapEnvParts(show);
  }

  /**
   * A valid configuration whose authoriser the as-written pod mutation
   * rejects, while the corrected one adds the config map's envFrom.
   */
  lemma ConfigMapEnvBreaksAsWritten(show: Json -> string)
    ensures FromOptions(ConfigMapEnvOptions, show).Success?
    ensures AppendAuthToPodAsWritten(FromOptions(ConfigMapEnvOptions, show).value) ==
      Failure(AttributeError("append_env_from_config_map"))
    ensures Patch(FromOptions(ConfigMapEnvOptions, show).value).envFrom == [ConfigMapRef("my-config")]
  {
    ConfigMapEnvParses(show);
    ConfigMapEnvPatches();
  }

  /** The as-written and corrected pod mutations for the authoriser of those options. */
  lemma ConfigMapEnvPatches()
    ensures AppendAuthToPodAsWritten(ConfigMapEnvAuth) == Failure(AttributeError("append_env_from_config_map"))
    ensures Patch(ConfigMapEnvAuth).envFrom == [ConfigMapRef("my-config")]
  {
    assert EnvFromsOf(["my-config"], FromConfigMap) == [ConfigMapRef("my-config")];
  }

  /** `append_auth_to_docker_config`: the dict is returned as it came. */
  function AppendAuthToDockerConfig(c: DockerConfig): (r: DockerConfig)
    ensures r == c
  {
    c
  }

  /**
   * `ACR.__init__`: pop the optional `token`, then construct the pod-only
   * part from the rest. The `token` option is what ACR accepts beyond
   * pod-only: options a pod-only authoriser takes give an ACR with no token,
   * and options with a token that ACR takes, pod-only rejects.
   */
  function ACRFromOptions(options: Dict<Json>, show: Json -> string): (r: Result<ACRAuth, Error>)
    ensures r.Success? <==> FromOptions(Remove(options, "token"), show).Success?
    ensures r.Success? && !HasKey(options, "token") ==> r.value.token == JNull
    ensures r.Success? && HasKey(options, "token") ==> FromOptions(options, show).Failure?
    ensures r.Success? ==> FromOptions(Remove(options, "token"), show) == Success(r.value.podOnly)
    ensures r.Success? && HasKey(options, "token") ==> r.value.token == Get(options, "token").value
  {
    var podOnly :- FromOptions(Remove(options, "token"), show);
    if HasKey(options, "token") then
      PodOnlyRefusesToken(options, show);
      Success(ACRAuth(PopValue(options, "token"), podOnly))
    else Success(ACRAuth(PopValue(options, "token"), podOnly))
  }

  /** Options that pod-only accepts once `token` is removed, it refuses while `token` is there. */
  lemma PodOnlyRefusesToken(options: Dict<Json>, show: Json -> string)
    requires HasKey(options, "token") && FromOptions(Remove(options, "token"), show).Success?
    ensures FromOptions(options, show).Failure?
  {
    var o := Remove(options, "token");
    GetRemove(options, "token", "url");
    GetRemove(options, "token", "service_account");
    GetRemove(options, "token", "env");
    GetRemove(options, "token", "volumes");
    FromOptionsParts(o, show);
    FromOptionsParts(options, show);
    TokenIsLeftover(options);
    var url, account := Get(o, "url").value, Get(o, "service_account").value;
    var envNodes, volNodes := Get(o, "env").value, Get(o, "volumes").value;
    OnlyTheRestDiffers(url, account, envNodes, volNodes, Leftover(o), Leftover(options), show);
  }

  /** The pod-only constructor does not consume a `token`. */
  lemma TokenIsLeftover(options: Dict<Json>)
    requires HasKey(options, "token")
    ensures |Leftover(options)| > 0
  {
    assert !OnlyKeys(options, PodOnlyKeys) by {
      var i :| 0 <= i < |options| && options[i].0 == "token";
      assert options[i].0 !in PodOnlyKeys;
    }
    LeftoverRest(options);
  }

  /** With the four required options present, construction is `FromParts` of their values. */
  lemma FromOptionsParts(options: Dict<Json>, show: Json -> string)
    requires HasKey(options, "url") && HasKey(options, "service_account") && HasKey(options, "env") && HasKey(options, "volumes")
    ensures FromOptions(options, show) ==
      FromParts(Get(options, "url").value, Get(options, "service_account").value, Get(options, "env").value,
                Get(options, "volumes").value, Leftover(options), show)
  {
  }

  /** Once the lists parse, the outcome depends on the leftover options alone. */
  lemma OnlyTheRestDiffers(url: Json, serviceAccount: Json, envNodes: Json, volNodes: Json,
                           rest: Dict<Json>, rest': Dict<Json>, show: Json -> string)
    requires FromParts(url, serviceAccount, envNodes, volNodes, rest, show).Success? && |rest'| > 0
    ensures FromParts(url, serviceAccount, envNodes, volNodes, rest', show) ==
      Failure(ValueError(LeftoverMessage(show(url), show(JObject(rest')))))
  {
  }

  const TokenUser := "00000000-0000-0000-0000-000000000000"
  const CredHelper := "acr-env"

  /** `{"auth": b64encode(f"{TokenUser}:{token}".encode("utf-8"))}`. */
  function TokenAuth(token: string): RegistryAuth
  {
    RegistryAuth(Encode(Utf8Bytes(TokenUser + ":" + token)))
  }

  /**
   * The hostname key: `urlparse(f"https://{url}").hostname`, a foreign
   * parse given as `hostname`.
   */
  function HostKey(a: ACRAuth, show: Json -> string, hostname: string -> string): string
  {
    hostname("https://" + show(a.podOnly.url))
  }

  /** The document `generate_docker_config` leaves. */
  function DockerConfigWith(a: ACRAuth, show: Json -> string, hostname: string -> string, c: DockerConfig): DockerConfig
  {
    var host := HostKey(a, show, hostname);
    var withToken := if Truthy(a.token) then WithAuth(c, host, TokenAuth(show(a.token))) else c;
    WithCredHelper(withToken, host, CredHelper)
  }

  /** `ACR.generate_docker_config`, writing into the dict in place. */
  method GenerateDockerConfig(a: ACRAuth, show: Json -> string, hostname: string -> string, doc: DockerConfigDocument)
    modifies doc
    ensures doc.Value() == DockerConfigWith(a, show, hostname, old(doc.Value()))
  {
    var host := hostname("https://" + show(a.podOnly.url));
    if Truthy(a.token) {
      doc.SetAuth(host, TokenAuth(show(a.token)));
    }
    doc.SetCredHelper(host, CredHelper);
  }

  /**
   * `credHelpers[host]` is always "acr-env"; `auths[host]` is the token
   * entry when the token is truthy, and otherwise `auths` is untouched;
   * other hosts keep their entries.
   */
  lemma DockerConfigEffect(a: ACRAuth, show: Json -> string, hostname: string -> string, c: DockerConfig)
    ensures var r, host := DockerConfigWith(a, show, hostname, c), HostKey(a, show, hostname);
      && r.credHelpers.Some? && host in r.credHelpers.value && r.credHelpers.value[host] == CredHelper
      && (Truthy(a.token) ==> r.auths.Some? && host in r.auths.value && r.auths.value[host] == TokenAuth(show(a.token)))
      && (!Truthy(a.token) ==> r.auths == c.auths)
      && (forall k :: k != host && k in c.credHelpers.GetOr(map[]) ==>
            k in r.credHelpers.value && r.credHelpers.value[k] == c.credHelpers.value[k])
      && (forall k :: k != host && k in c.auths.GetOr(map[]) ==>
            r.auths.Some? && k in r.auths.value && r.auths.value[k] == c.auths.value[k])
  {
    var host := HostKey(a, show, hostname);
    var withToken := if Truthy(a.token) then WithAuth(c, host, TokenAuth(show(a.token))) else c;
    if Truthy(a.token) {
      WithAuthEffect(c, host, TokenAuth(show(a.token)));
    }
    WithCredHelperEffect(withToken, host, CredHelper);
  }

  /** The `auth` value decodes to the UTF-8 bytes of the token user, a colon and the token. */
  lemma TokenAuthDecodes(token: string)
    ensures Decode(TokenAuth(token).auth) == Some(Utf8Bytes(TokenUser + ":" + token))
  {
    DecodeEncode(Utf8Bytes(TokenUser + ":" + token));
  }

  /** Some requested URL starts with `name`. */
  predicate StartsWithAny(urls: seq<string>, name: string)
  {
    exists u :: u in urls && name <= u
  }

  /** `[an for an in all if any(u.startswith(an) for u in urls)]`. */
  function MatchingNames(all: seq<string>, urls: seq<string>): (r: seq<string>)
    ensures |r| <= |all|
    ensures forall n :: n in r <==> n in all && StartsWithAny(urls, n)
  {
    if |all| == 0 then []
    else if StartsWithAny(urls, all[0]) then [all[0]] + MatchingNames(all[1..], urls)
    else MatchingNames(all[1..], urls)
  }

  /** The names before `set()`: the always-mount ones, then the matching ones. */
  function AuthoriserNames(alwaysMount: seq<string>, all: seq<string>, urls: seq<string>): (r: seq<string>)
    ensures forall n :: n in r <==> n in alwaysMount || (n in all && StartsWithAny(urls, n))
  {
    alwaysMount + MatchingNames(all, urls)
  }

  /** An iteration order of `set(names)`: each name once, in an order the runtime picks. */
  ghost predicate IsSetOrder(order: seq<string>, names: seq<string>)
  {
    && (forall n :: n in order <==> n in names)
    && (forall i, j :: 0 <= i < j < |order| ==> order[i] != order[j])
  }

  /** The `type` value that selects this kind of authoriser. */
  function TypeTag(a: PyAuthoriser): Json
  {
    JString(if a.PodOnly? then "pod-only" else "acr")
  }

  /** The `url` a constructed authoriser was given. */
  function AuthUrl(a: PyAuthoriser): Json
  {
    if a.PodOnly? then a.podOnly.url else a.acr.podOnly.url
  }

  /**
   * One selected configuration: pop `type` and construct that kind of
   * authoriser from the remaining options. A missing `type` is a KeyError,
   * an unknown one a ValueError naming it; a constructed authoriser is the
   * kind its `type` names, built from the options without `type`, and keeps
   * the configuration's `url`.
   */
  function Construct(config: Dict<Json>, show: Json -> string): (r: Result<PyAuthoriser, Error>)
    ensures !HasKey(config, "type") ==> r == Failure(KeyError("type"))
    ensures HasKey(config, "type") && Get(config, "type").value != JString("pod-only") && Get(config, "type").value != JString("acr") ==>
      r == Failure(ValueError(UnknownTypeMessage(show(Get(config, "type").value))))
    ensures r.Success? ==> Get(config, "type") == Some(TypeTag(r.value))
    ensures r.Success? && r.value.PodOnly? ==> FromOptions(Remove(config, "type"), show) == Success(r.value.podOnly)
    ensures r.Success? && r.value.Acr? ==> ACRFromOptions(Remove(config, "type"), show) == Success(r.value.acr)
    ensures r.Success? ==> Get(config, "url") == Some(AuthUrl(r.value))
  {
    var authType :- PopRequired(config, "type");
    var rest := Remove(config, "type");
    GetRemove(config, "type", "url");
    GetRemove(rest, "token", "url");
    if authType == JString("pod-only") then
      var p :- FromOptions(rest, show);
      Success(PodOnly(p))
    else if authType == JString("acr") then
      var a :- ACRFromOptions(rest, show);
      Success(Acr(a))
    else
      Failure(ValueError(UnknownTypeMessage(show(authType))))
  }

  /** The appending loop over the selected configurations, after the authorisers `acc` built so far. */
  function ConstructAll(configs: seq<Dict<Json>>, acc: seq<PyAuthoriser>, show: Json -> string): Result<seq<PyAuthoriser>, Error>
    decreases |configs|
  {
    if |configs| == 0 then Success(acc)
    else
      var a :- Construct(configs[0], show);
      ConstructAll(configs[1..], acc + [a], show)
  }

  /** `[config.get_authoriser_options(an) for an in order]`. */
  function ConfigsOf(options: string -> Dict<Json>, order: seq<string>): (r: seq<Dict<Json>>)
    ensures |r| == |order| && forall i :: 0 <= i < |order| ==> r[i] == options(order[i])
  {
    seq(|order|, i requires 0 <= i < |order| => options(order[i]))
  }

  /**
   * `get_matching_authorisers`. The configuration's lists and its
   * `get_authoriser_options` are inputs, and so is the order in which the
   * runtime iterates the set of selected names.
   */
  method GetMatchingAuthorisers(urls: seq<string>, alwaysMount: seq<string>, all: seq<string>,
                                options: string -> Dict<Json>, order: seq<string>, show: Json -> string)
    returns (r: Result<seq<PyAuthoriser>, Error>)
    requires IsSetOrder(order, AuthoriserNames(alwaysMount, all, urls))
    ensures r == ConstructAll(ConfigsOf(options, order), [], show)
  {
    var configs := ConfigsOf(options, order);
    var authorisers: seq<PyAuthoriser> := [];
    var i := 0;
    while i < |configs|
      invariant 0 <= i <= |configs|
      invariant ConstructAll(configs, [], show) == ConstructAll(configs[i..], authorisers, show)
    {
      assert configs[i..][1..] == configs[i + 1..];
      var a :- Construct(configs[i], show);
      authorisers := authorisers + [a];
      i := i + 1;
    }
    r := Success(authorisers);
  }

  /**
   * Every constructed authoriser comes from one selected configuration, in
   * order: it is what `Construct` builds from that configuration, so its
   * kind is the configuration's `type` and its `url` the configuration's
   * `url`.
   */
  lemma {:induction false} ConstructAllKinds(configs: seq<Dict<Json>>, acc: seq<PyAuthoriser>, show: Json -> string)
    ensures ConstructAll(configs, acc, show).Success? ==>
      var r := ConstructAll(configs, acc, show).value;
      && |r| == |acc| + |configs| && r[..|acc|] == acc
      && (forall i :: 0 <= i < |configs| ==> Construct(configs[i], show) == Success(r[|acc| + i]))
      && (forall i :: 0 <= i < |configs| ==> Get(configs[i], "type") == Some(TypeTag(r[|acc| + i])))
      && (forall i :: 0 <= i < |configs| ==> Get(configs[i], "url") == Some(AuthUrl(r[|acc| + i])))
    decreases |configs|
  {
    if |configs| > 0 && Construct(configs[0], show).Success? {
      var a := Construct(configs[0], show).value;
      var rest, acc' := configs[1..], acc + [a];
      ConstructAllKinds(rest, acc', show);
      ConstructAllStep(configs, acc, show);
      if ConstructAll(rest, acc', show).Success? {
        var r := ConstructAll(rest, acc', show).value;
        var build := c => Construct(c, show);
        KindsCons(configs, rest, r, acc, a, acc', build);
        forall i | 0 <= i < |configs|
          ensures Get(configs[i], "type") == Some(TypeTag(r[|acc| + i]))
          ensures Get(configs[i], "url") == Some(AuthUrl(r[|acc| + i]))
        {
          assert Construct(configs[i], show) == Success(r[|acc| + i]);
        }
      }
    }
  }

  /** The authorisers in `r` after `acc` are built from `configs` once they are built from its first entry and its tail. */
  lemma KindsCons(configs: seq<Dict<Json>>, rest: seq<Dict<Json>>, r: seq<PyAuthoriser>, acc: seq<PyAuthoriser>, a: PyAuthoriser,
                  acc': seq<PyAuthoriser>, build: Dict<Json> -> Result<PyAuthoriser, Error>)
    requires |configs| > 0 && rest == configs[1..] && acc' == acc + [a]
    requires build(configs[0]) == Success(a)
    requires |r| == |acc'| + |rest| && r[..|acc'|] == acc'
    requires forall i :: 0 <= i < |rest| ==> build(rest[i]) == Success(r[|acc'| + i])
    ensures r[..|acc|] == acc
    ensures forall i :: 0 <= i < |configs| ==> build(configs[i]) == Success(r[|acc| + i])
  {
    SnocPrefix(r, acc, a);
    forall i | 1 <= i < |configs|
      ensures build(configs[i]) == Success(r[|acc| + i])
    {
      assert configs[i] == rest[i - 1];
      assert |acc'| + (i - 1) == |acc| + i;
    }
  }

  /** One turn of the appending loop. */
  lemma ConstructAllStep(configs: seq<Dict<Json>>, acc: seq<PyAuthoriser>, show: Json -> string)
    requires |configs| > 0 && Construct(configs[0], show).Success?
    ensures ConstructAll(configs, acc, show) == ConstructAll(configs[1..], acc + [Construct(configs[0], show).value], show)
  {
  }

  /** A sequence that starts with `acc + [a]` starts with `acc`, followed by `a`. */
  lemma SnocPrefix<T>(r: seq<T>, acc: seq<T>, a: T)
    requires |acc| < |r| && r[..|acc| + 1] == acc + [a]
    ensures r[..|acc|] == acc && r[|acc|] == a
  {
    assert r[..|acc|] == r[..|acc| + 1][..|acc|];
    assert r[|acc|] == r[..|acc| + 1][|acc|];
  }

  /** Construct refuses a `type` other than "pod-only" and "acr". */
  lemma UnknownTypeRejected(config: Dict<Json>, show: Json -> string)
    requires HasKey(config, "type")
    requires Get(config, "type").value != JString("pod-only") && Get(config, "type").value != JString("acr")
    ensures Construct(config, show).Failure?
  {
  }

  /** A selected configuration whose `type` is neither "pod-only" nor "acr" fails the whole call. */
  lemma {:induction false} ConstructAllRejects(configs: seq<Dict<Json>>, acc: seq<PyAuthoriser>, show: Json -> string, k: nat)
    requires k < |configs| && HasKey(configs[k], "type")
    requires Get(configs[k], "type").value != JString("pod-only") && Get(configs[k], "type").value != JString("acr")
    ensures ConstructAll(configs, acc, show).Failure?
    decreases |configs|
  {
    var first := Construct(configs[0], show);
    if k == 0 {
      UnknownTypeRejected(configs[0], show);
      assert ConstructAll(configs, acc, show) == Failure(first.error);
    } else if first.Failure? {
      assert ConstructAll(configs, acc, show) == Failure(first.error);
    } else {
      assert configs[1..][k - 1] == configs[k];
      ConstructAllRejects(configs[1..], acc + [first.value], show, k - 1);
      assert ConstructAll(configs, acc, show) == ConstructAll(configs[1..], acc + [first.value], show);
    }
  }
}
