/**
 * The C# pod-only authoriser (src/Auth/PodOnly.cs): options name a service
 * account, environment variables (raw, or all of a secret's or config map's
 * keys) and volumes mounted from secrets or config maps. Nothing is written
 * to the docker config; everything goes into the pod through the Specs
 * mutators. The options are parsed once, at construction, into three
 * insertion-ordered tables that are never changed afterwards.
 */
module PodOnly {
  import opened Wrappers
  import opened Json
  import opened Errors
  import opened K8sModels
  import opened Authoriser
  import opened DockerConfigs
  import Specs

  datatype ResourceKind = Secret | ConfigMap

  /** The parsed tables: `Dictionary` enumerates in insertion order here, since nothing is removed. */
  datatype PodOnlyAuth = PodOnlyAuth(
    base: AuthBase,
    serviceAccount: Option<string>,
    rawEnvVars: Dict<string>,
    mountedEnvs: Dict<ResourceKind>,
    mountedVols: Dict<(string, ResourceKind)>)

  const FromSecretMessage := "Invalid 'fromSecret' value"
  const FromConfigMapMessage := "Invalid 'fromConfigMap' value"
  const NameMessage := "Invalid 'name' value"
  const ValueMessage := "Invalid 'value' value"
  const EnvShapeMessage := "Env must only have 'fromSecret' or 'fromConfigMap' or ('name' and 'value')"
  const VolShapeMessage := "env must have 'mountPath' and ('fromSecret' or 'fromConfigMap')"
  const MountPathMessage := "Invalid 'mountPath' value"
  const VolSourceMessage := "Env must have 'mountPath' and ('fromSecret' or 'fromConfigMap')"

  /** `Dictionary.Add`: a key already present raises; otherwise the entry goes last. */
  function DictAdd<V>(d: Dict<V>, k: string, v: V): (r: Result<Dict<V>, Error>)
    ensures r.Success? <==> !HasKey(d, k)
    ensures r.Success? ==> r.value == d + [(k, v)] && (DistinctKeys(d) ==> DistinctKeys(r.value))
    ensures r.Failure? ==> r.error == DuplicateKey(k)
  {
    if HasKey(d, k) then Failure(DuplicateKey(k)) else Success(d + [(k, v)])
  }

  /** `node.AsObject()`: anything but an object raises. */
  function AsObject(node: Json): (r: Result<Dict<Json>, Error>)
    ensures r.Success? <==> node.JObject?
    ensures r.Success? ==> r.value == node.fields
  {
    if node.JObject? then Success(node.fields) else Failure(InvalidOperation("AsObject"))
  }

  datatype EnvTables = EnvTables(raw: Dict<string>, mounted: Dict<ResourceKind>)

  /** One non-null `env` entry, added to the tables. */
  function EnvStep(t: EnvTables, env: Dict<Json>): Result<EnvTables, Error>
  {
    var node := Some(JObject(env));
    if |env| == 1 && env[0].0 == "fromSecret" then
      var secret :- StringOf(env[0].1, "fromSecret");
      if secret.None? then Failure(InvalidConfig(FromSecretMessage, node))
      else
        var mounted :- DictAdd(t.mounted, secret.value, Secret);
        Success(t.(mounted := mounted))
    else if |env| == 1 && env[0].0 == "fromConfigMap" then
      var configMap :- StringOf(env[0].1, "fromConfigMap");
      if configMap.None? then Failure(InvalidConfig(FromConfigMapMessage, node))
      else
        var mounted :- DictAdd(t.mounted, configMap.value, ConfigMap);
        Success(t.(mounted := mounted))
    else if |env| == 2 && HasKey(env, "name") && HasKey(env, "value") then
      var rawName :- StringOf(Get(env, "name").value, "name");
      var rawValue :- StringOf(Get(env, "value").value, "value");
      if rawName.None? then Failure(InvalidConfig(NameMessage, node))
      else if rawValue.None? then Failure(InvalidConfig(ValueMessage, node))
      else
        var raw :- DictAdd(t.raw, rawName.value, rawValue.value);
        Success(t.(raw := raw))
    else
      Failure(InvalidConfig(EnvShapeMessage, node))
  }

  /** The `env` loop: null elements are skipped, the first bad entry stops it. */
  function ParseEnvs(nodes: seq<Json>, t: EnvTables): Result<EnvTables, Error>
    decreases |nodes|
  {
    if |nodes| == 0 then Success(t)
    else if nodes[0].JNull? then ParseEnvs(nodes[1..], t)
    else
      var env :- AsObject(nodes[0]);
      var t' :- EnvStep(t, env);
      ParseEnvs(nodes[1..], t')
  }

  /** One non-null `vol` entry, added to the volume table as the source does it. */
  function VolStep(vols: Dict<(string, ResourceKind)>, vol: Dict<Json>): Result<Dict<(string, ResourceKind)>, Error>
  {
    var node := Some(JObject(vol));
    if |vol| != 2 || !HasKey(vol, "mountPath") then Failure(InvalidConfig(VolShapeMessage, node))
    else
      var mountPath :- StringOf(Get(vol, "mountPath").value, "mountPath");
      if mountPath.None? then Failure(InvalidConfig(MountPathMessage, node))
      else
        var afterSecret :- (
          if HasKey(vol, "fromSecret") then
            var secret :- StringOf(Get(vol, "fromSecret").value, "fromSecret");
            if secret.None? then Failure(InvalidConfig(FromSecretMessage, node))
            else DictAdd(vols, secret.value, (mountPath.value, Secret))
          else Success(vols));
        if HasKey(vol, "fromConfigMap") then
          var configMap :- StringOf(Get(vol, "fromConfigMap").value, "fromConfigMap");
          if configMap.None? then Failure(InvalidConfig(FromConfigMapMessage, node))
          else DictAdd(afterSecret, configMap.value, (mountPath.value, Secret))
        else
          Failure(InvalidConfig(VolSourceMessage, node))
  }

  /** The `vol` loop. */
  function ParseVols(nodes: seq<Json>, vols: Dict<(string, ResourceKind)>): Result<Dict<(string, ResourceKind)>, Error>
    decreases |nodes|
  {
    if |nodes| == 0 then Success(vols)
    else if nodes[0].JNull? then ParseVols(nodes[1..], vols)
    else
      var vol :- AsObject(nodes[0]);
      var vols' :- VolStep(vols, vol);
      ParseVols(nodes[1..], vols')
  }

  /**
   * The constructor as one function: the base validation, the service
   * account, then the `env` list and the `vol` list.
   */
  function FromOptions(options: Dict<Json>): (r: Result<PodOnlyAuth, Error>)
    ensures ParseAuthBase(options).Failure? ==> r == Failure(ParseAuthBase(options).error)
    ensures r.Success? ==> Success(r.value.base) == ParseAuthBase(options)
    ensures r.Success? ==> Success(r.value.serviceAccount) == GetString(options, "serviceAccount")
    ensures r.Success? ==> forall i :: 0 <= i < |r.value.mountedVols| ==> r.value.mountedVols[i].1.1 == Secret
  {
    var base :- ParseAuthBase(options);
    var serviceAccount :- GetString(options, "serviceAccount");
    var envNodes :- GetArray(options, "env");
    var envs :- ParseEnvs(envNodes, EnvTables([], []));
    var volNodes :- GetArray(options, "vol");
    ParsedVolumesAreSecretKind(volNodes, []);
    var vols :- ParseVols(volNodes, []);
    Success(PodOnlyAuth(base, serviceAccount, envs.raw, envs.mounted, vols))
  }

  /** The constructor, its two loops filling the tables entry by entry. */
  method Create(options: Dict<Json>) returns (r: Result<PodOnlyAuth, Error>)
    ensures r == FromOptions(options)
  {
    var base :- ParseAuthBase(options);
    var serviceAccount :- GetString(options, "serviceAccount");
    var envNodes :- GetArray(options, "env");
    var tables := EnvTables([], []);
    var i := 0;
    while i < |envNodes|
      invariant 0 <= i <= |envNodes|
      invariant ParseEnvs(envNodes, EnvTables([], [])) == ParseEnvs(envNodes[i..], tables)
    {
      assert envNodes[i..][1..] == envNodes[i + 1..];
      if !envNodes[i].JNull? {
        var env :- AsObject(envNodes[i]);
        tables :- EnvStep(tables, env);
      }
      i := i + 1;
    }
    var volNodes :- GetArray(options, "vol");
    var vols: Dict<(string, ResourceKind)> := [];
    i := 0;
    while i < |volNodes|
      invariant 0 <= i <= |volNodes|
      invariant ParseVols(volNodes, []) == ParseVols(volNodes[i..], vols)
    {
      assert volNodes[i..][1..] == volNodes[i + 1..];
      if !volNodes[i].JNull? {
        var vol :- AsObject(volNodes[i]);
        vols :- VolStep(vols, vol);
      }
      i := i + 1;
    }
    r := Success(PodOnlyAuth(base, serviceAccount, tables.raw, tables.mounted, vols));
  }

  /** The non-null elements of a JSON list, in order. */
  function NonNull(nodes: seq<Json>): (r: seq<Json>)
    ensures |r| <= |nodes|
    ensures forall i :: 0 <= i < |r| ==> !r[i].JNull?
  {
    if |nodes| == 0 then []
    else if nodes[0].JNull? then NonNull(nodes[1..])
    else [nodes[0]] + NonNull(nodes[1..])
  }

  /** Null elements of the `env` list are skipped: parsing ignores them entirely. */
  lemma {:induction false} ParseEnvsSkipsNulls(nodes: seq<Json>, t: EnvTables)
    ensures ParseEnvs(nodes, t) == ParseEnvs(NonNull(nodes), t)
    decreases |nodes|
  {
    if |nodes| > 0 {
      if nodes[0].JNull? {
        ParseEnvsSkipsNulls(nodes[1..], t);
      } else {
        var n := NonNull(nodes);
        assert n[0] == nodes[0] && n[1..] == NonNull(nodes[1..]);
        if nodes[0].JObject? && EnvStep(t, nodes[0].fields).Success? {
          ParseEnvsSkipsNulls(nodes[1..], EnvStep(t, nodes[0].fields).value);
        }
      }
    }
  }

  /** The shapes of `env` entry the constructor accepts. */
  predicate AcceptedEnv(env: Dict<Json>)
  {
    || (|env| == 1 && env[0].0 == "fromSecret" && env[0].1.JString?)
    || (|env| == 1 && env[0].0 == "fromConfigMap" && env[0].1.JString?)
    || (|env| == 2 && HasKey(env, "name") && HasKey(env, "value")
        && Get(env, "name").value.JString? && Get(env, "value").value.JString?)
  }

  /** What an accepted `env` entry adds to the tables. */
  function EnvEntry(t: EnvTables, env: Dict<Json>): EnvTables
    requires AcceptedEnv(env)
  {
    if env[0].0 == "fromSecret" && |env| == 1 then t.(mounted := t.mounted + [(env[0].1.s, Secret)])
    else if env[0].0 == "fromConfigMap" && |env| == 1 then t.(mounted := t.mounted + [(env[0].1.s, ConfigMap)])
    else t.(raw := t.raw + [(Get(env, "name").value.s, Get(env, "value").value.s)])
  }

  /** The name an accepted entry adds is not yet in the table it goes to. */
  predicate FreshName(t: EnvTables, env: Dict<Json>)
    requires AcceptedEnv(env)
  {
    if |env| == 1 then !HasKey(t.mounted, env[0].1.s) else !HasKey(t.raw, Get(env, "name").value.s)
  }

  /**
   * An entry is taken exactly when it has one of the accepted shapes and
   * does not repeat a name already in its table; it then adds one entry at
   * the end of one table. An entry of any other shape fails with
   * InvalidConfig naming the entry.
   */
  lemma EnvStepAccepts(t: EnvTables, env: Dict<Json>)
    ensures EnvStep(t, env).Success? <==> AcceptedEnv(env) && FreshName(t, env)
    ensures EnvStep(t, env).Success? ==> EnvStep(t, env).value == EnvEntry(t, env)
    ensures !(|env| == 1 && env[0].0 in {"fromSecret", "fromConfigMap"}) &&
            !(|env| == 2 && HasKey(env, "name") && HasKey(env, "value")) ==>
              EnvStep(t, env) == Failure(InvalidConfig(EnvShapeMessage, Some(JObject(env))))
  {
  }

  /**
   * A `vol` entry naming a secret never succeeds: after recording it the
   * constructor falls into the `else` of the config-map test and raises.
   */
  lemma FromSecretVolumeFails(vols: Dict<(string, ResourceKind)>, vol: Dict<Json>)
    requires HasKey(vol, "fromSecret")
    ensures VolStep(vols, vol).Failure?
  {
    if |vol| == 2 && HasKey(vol, "mountPath") {
      assert !HasKey(vol, "fromConfigMap") by {
        assert forall i :: 0 <= i < 2 ==> vol[i].0 in {"mountPath", "fromSecret"};
      }
    }
  }

  /** The shape of `vol` entry the constructor accepts: a string `mountPath` and a string `fromConfigMap`, nothing else. */
  predicate AcceptedVol(vol: Dict<Json>)
  {
    && |vol| == 2 && HasKey(vol, "mountPath") && HasKey(vol, "fromConfigMap")
    && Get(vol, "mountPath").value.JString? && Get(vol, "fromConfigMap").value.JString?
  }

  /**
   * A `vol` entry is taken exactly when it is `{mountPath, fromConfigMap}`
   * with string values and the config map is not yet in the table; it is
   * then recorded at the end under the config map's name, with kind Secret.
   */
  lemma VolStepAccepts(vols: Dict<(string, ResourceKind)>, vol: Dict<Json>)
    ensures VolStep(vols, vol).Success? <==> AcceptedVol(vol) && !HasKey(vols, Get(vol, "fromConfigMap").value.s)
    ensures VolStep(vols, vol).Success? ==>
      VolStep(vols, vol).value == vols + [(Get(vol, "fromConfigMap").value.s, (Get(vol, "mountPath").value.s, Secret))]
  {
    if VolStep(vols, vol).Success? && HasKey(vol, "fromSecret") {
      FromSecretVolumeFails(vols, vol);
    }
    if AcceptedVol(vol) {
      TwoKeysOnly(vol, "mountPath", "fromConfigMap", "fromSecret");
    }
  }

  /** A two-entry dictionary holding keys `a` and `b` holds no third key. */
  lemma TwoKeysOnly<V>(d: Dict<V>, a: string, b: string, c: string)
    requires |d| == 2 && HasKey(d, a) && HasKey(d, b) && a != b && c != a && c != b
    ensures !HasKey(d, c)
  {
    var i :| 0 <= i < 2 && d[i].0 == a;
    var j :| 0 <= j < 2 && d[j].0 == b;
    assert forall k :: 0 <= k < 2 ==> d[k].0 == d[i].0 || d[k].0 == d[j].0;
  }

  /** As written, every volume the constructor records has kind Secret. */
  lemma {:induction false} ParsedVolumesAreSecretKind(nodes: seq<Json>, vols: Dict<(string, ResourceKind)>)
    requires forall i :: 0 <= i < |vols| ==> vols[i].1.1 == Secret
    ensures ParseVols(nodes, vols).Success? ==>
      forall i :: 0 <= i < |ParseVols(nodes, vols).value| ==> ParseVols(nodes, vols).value[i].1.1 == Secret
    decreases |nodes|
  {
    if |nodes| > 0 && !nodes[0].JNull? && nodes[0].JObject? {
      var vol := nodes[0].fields;
      VolStepAccepts(vols, vol);
      if VolStep(vols, vol).Success? {
        ParsedVolumesAreSecretKind(nodes[1..], VolStep(vols, vol).value);
      }
    } else if |nodes| > 0 && nodes[0].JNull? {
      ParsedVolumesAreSecretKind(nodes[1..], vols);
    }
  }

  /** `AppendAuthToDockerConfig`: the docker config is passed through untouched. */
  function AppendAuthToDockerConfig(c: DockerConfig): (r: DockerConfig)
    ensures r == c
  {
    c
  }

  function EnvVarsOf(raw: Dict<string>): (r: seq<EnvVar>)
    ensures |r| == |raw| && forall i :: 0 <= i < |raw| ==> r[i] == EnvVar(raw[i].0, raw[i].1)
  {
    seq(|raw|, i requires 0 <= i < |raw| => EnvVar(raw[i].0, raw[i].1))
  }

  function EnvFromOf(resource: string, kind: ResourceKind): EnvFromSource
  {
    if kind == Secret then SecretRef(resource) else ConfigMapRef(resource)
  }

  function EnvFromsOf(mounted: Dict<ResourceKind>): (r: seq<EnvFromSource>)
    ensures |r| == |mounted| && forall i :: 0 <= i < |mounted| ==> r[i] == EnvFromOf(mounted[i].0, mounted[i].1)
  {
    seq(|mounted|, i requires 0 <= i < |mounted| => EnvFromOf(mounted[i].0, mounted[i].1))
  }

  function VolumeOf(resource: string, kind: ResourceKind): Volume
  {
    Volume(resource, if kind == Secret then SecretVolume(resource) else ConfigMapVolume(resource))
  }

  function VolumesOf(vols: Dict<(string, ResourceKind)>): (r: seq<Volume>)
    ensures |r| == |vols| && forall i :: 0 <= i < |vols| ==> r[i] == VolumeOf(vols[i].0, vols[i].1.1)
  {
    seq(|vols|, i requires 0 <= i < |vols| => VolumeOf(vols[i].0, vols[i].1.1))
  }

  function MountsOf(vols: Dict<(string, ResourceKind)>): (r: seq<VolumeMount>)
    ensures |r| == |vols| && forall i :: 0 <= i < |vols| ==> r[i] == VolumeMount(vols[i].0, vols[i].1.0, true)
  {
    seq(|vols|, i requires 0 <= i < |vols| => VolumeMount(vols[i].0, vols[i].1.0, true))
  }

  /**
   * What AppendAuthToPod adds: the service account when one is configured,
   * one env var per raw variable, one envFrom per mounted env, and one
   * read-only volume and mount per mounted volume, each table in order.
   */
  function Patch(a: PodOnlyAuth): PodPatch
  {
    PodPatch(a.serviceAccount, EnvVarsOf(a.rawEnvVars), EnvFromsOf(a.mountedEnvs),
             VolumesOf(a.mountedVols), MountsOf(a.mountedVols))
  }

  /** The raw-variable loop of AppendAuthToPod. */
  method AppendRawEnvVars(pod: Pod, raw: Dict<string>)
    requires |pod.spec.containers| > 0
    modifies FirstContainer(pod)`env
    ensures AuthStateOf(pod) == Apply(old(AuthStateOf(pod)), PodPatch(None, EnvVarsOf(raw), [], [], []))
  {
    ghost var s0 := AuthStateOf(pod);
    var i := 0;
    while i < |raw|
      invariant 0 <= i <= |raw|
      invariant AuthStateOf(pod) == Apply(s0, PodPatch(None, EnvVarsOf(raw[..i]), [], [], []))
    {
      var _ := Specs.AppendEnvVar(pod, raw[i].0, raw[i].1);
      ApplyThen(s0, PodPatch(None, EnvVarsOf(raw[..i]), [], [], []), PodPatch(None, [EnvVar(raw[i].0, raw[i].1)], [], [], []));
      assert EnvVarsOf(raw[..i]) + [EnvVar(raw[i].0, raw[i].1)] == EnvVarsOf(raw[..i + 1]);
      i := i + 1;
    }
    assert raw[..i] == raw;
  }

  /** The mounted-env loop of AppendAuthToPod. */
  method AppendMountedEnvs(pod: Pod, mounted: Dict<ResourceKind>)
    requires |pod.spec.containers| > 0
    modifies FirstContainer(pod)`envFrom
    ensures AuthStateOf(pod) == Apply(old(AuthStateOf(pod)), PodPatch(None, [], EnvFromsOf(mounted), [], []))
  {
    ghost var s0 := AuthStateOf(pod);
    var i := 0;
    while i < |mounted|
      invariant 0 <= i <= |mounted|
      invariant AuthStateOf(pod) == Apply(s0, PodPatch(None, [], EnvFromsOf(mounted[..i]), [], []))
    {
      if mounted[i].1 == Secret {
        var _ := Specs.AppendEnvFromSecret(pod, mounted[i].0);
      } else {
        var _ := Specs.AppendEnvFromConfigMap(pod, mounted[i].0);
      }
      ApplyThen(s0, PodPatch(None, [], EnvFromsOf(mounted[..i]), [], []),
                PodPatch(None, [], [EnvFromOf(mounted[i].0, mounted[i].1)], [], []));
      assert EnvFromsOf(mounted[..i]) + [EnvFromOf(mounted[i].0, mounted[i].1)] == EnvFromsOf(mounted[..i + 1]);
      i := i + 1;
    }
    assert mounted[..i] == mounted;
  }

  /** The mounted-volume loop of AppendAuthToPod. */
  method AppendMountedVols(pod: Pod, vols: Dict<(string, ResourceKind)>)
    requires |pod.spec.containers| > 0
    modifies pod.spec`volumes, FirstContainer(pod).volumeMounts
    ensures AuthStateOf(pod) == Apply(old(AuthStateOf(pod)), PodPatch(None, [], [], VolumesOf(vols), MountsOf(vols)))
  {
    ghost var s0 := AuthStateOf(pod);
    var i := 0;
    while i < |vols|
      invariant 0 <= i <= |vols|
      invariant AuthStateOf(pod) == Apply(s0, PodPatch(None, [], [], VolumesOf(vols[..i]), MountsOf(vols[..i])))
    {
      if vols[i].1.1 == Secret {
        var _ := Specs.AppendVolumeFromSecret(pod, vols[i].0, vols[i].1.0);
      } else {
        var _ := Specs.AppendVolumeFromConfigMap(pod, vols[i].0, vols[i].1.0);
      }
      ApplyThen(s0, PodPatch(None, [], [], VolumesOf(vols[..i]), MountsOf(vols[..i])),
                PodPatch(None, [], [], [VolumeOf(vols[i].0, vols[i].1.1)], [VolumeMount(vols[i].0, vols[i].1.0, true)]));
      assert VolumesOf(vols[..i]) + [VolumeOf(vols[i].0, vols[i].1.1)] == VolumesOf(vols[..i + 1]);
      assert MountsOf(vols[..i]) + [VolumeMount(vols[i].0, vols[i].1.0, true)] == MountsOf(vols[..i + 1]);
      i := i + 1;
    }
    assert vols[..i] == vols;
  }

  /** The Specs mutators, applied in the constructor tables' order. */
  method AppendAuthToPod(a: PodOnlyAuth, pod: Pod) returns (r: Pod)
    requires |pod.spec.containers| > 0
    modifies pod.spec`serviceAccountName, pod.spec`automountServiceAccountToken, pod.spec`volumes
    modifies FirstContainer(pod)`env, FirstContainer(pod)`envFrom, FirstContainer(pod).volumeMounts
    ensures r == pod
    ensures AuthStateOf(pod) == Apply(old(AuthStateOf(pod)), Patch(a))
  {
    ghost var s0 := AuthStateOf(pod);
    ghost var p0 := PodPatch(a.serviceAccount, [], [], [], []);
    r := pod;
    if a.serviceAccount.Some? {
      r := Specs.ReplaceServiceAccount(r, a.serviceAccount.value);
    } else {
      ApplyNoPatch(s0);
    }
    AppendRawEnvVars(pod, a.rawEnvVars);
    ghost var p1 := PodPatch(None, EnvVarsOf(a.rawEnvVars), [], [], []);
    ApplyThen(s0, p0, p1);
    AppendMountedEnvs(pod, a.mountedEnvs);
    ghost var p2 := PodPatch(None, [], EnvFromsOf(a.mountedEnvs), [], []);
    ApplyThen(s0, Then(p0, p1), p2);
    AppendMountedVols(pod, a.mountedVols);
    ghost var p3 := PodPatch(None, [], [], VolumesOf(a.mountedVols), MountsOf(a.mountedVols));
    ApplyThen(s0, Then(Then(p0, p1), p2), p3);
    PatchInParts(a);
  }

  /** The service account and the three tables make up `Patch`, in that order. */
  lemma PatchInParts(a: PodOnlyAuth)
    ensures Then(Then(Then(PodPatch(a.serviceAccount, [], [], [], []), PodPatch(None, EnvVarsOf(a.rawEnvVars), [], [], [])),
                      PodPatch(None, [], EnvFromsOf(a.mountedEnvs), [], [])),
                 PodPatch(None, [], [], VolumesOf(a.mountedVols), MountsOf(a.mountedVols))) == Patch(a)
  {
  }

  /**
   * The pod mutation in numbers: the service account is replaced exactly
   * when one is configured, and each table entry adds exactly one element.
   */
  lemma PatchCounts(a: PodOnlyAuth, s: AuthState)
    ensures Apply(s, Patch(a)).serviceAccountName == (if a.serviceAccount.Some? then a.serviceAccount else s.serviceAccountName)
    ensures |Apply(s, Patch(a)).volumes| == |s.volumes| + |a.mountedVols|
    ensures |Apply(s, Patch(a)).mounts| == |s.mounts| + |a.mountedVols|
    ensures |Apply(s, Patch(a)).env.GetOr([])| == |s.env.GetOr([])| + |a.rawEnvVars|
    ensures |Apply(s, Patch(a)).envFrom.GetOr([])| == |s.envFrom.GetOr([])| + |a.mountedEnvs|
  {
  }
}
