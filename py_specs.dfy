/**
 * The Python pod-spec builder and mutators (src/kaniko_remote/k8s_specs.py).
 * The pod has the same shape as the C# port's, with an API version, a kind
 * and a version annotation; its mutators append mounts without the
 * read-only flag. `set_kaniko_args` assembles the builder's argument list
 * from ordered settings and the three multi-valued arguments.
 */
module PySpecs {
  import opened Wrappers
  import opened Json
  import opened K8sModels
  import opened Errors
  import opened KanikoFlags
  import Specs

  const VersionAnnotation := "kaniko-remote/version"

  /** The caller's annotations with the package version forced in. */
  function PodAnnotations(additionalAnnotations: map<string, string>, version: string): (annotations: map<string, string>)
    ensures annotations.Keys == additionalAnnotations.Keys + {VersionAnnotation}
    ensures annotations[VersionAnnotation] == version
    ensures forall k :: k in additionalAnnotations && k != VersionAnnotation ==> annotations[k] == additionalAnnotations[k]
  {
    additionalAnnotations[VersionAnnotation := version]
  }

  /**
   * generate_pod_spec: one list of mounts and one resource map handed to
   * both containers; `version` is the installed package's `__version__`.
   */
  method GeneratePodSpec(
    name: string, cpu: string, memory: string, kanikoImage: string, setupImage: string,
    additionalLabels: map<string, string>, additionalAnnotations: map<string, string>, version: string)
    returns (pod: Pod)
    ensures fresh(pod) && fresh(pod.spec)
    ensures pod.apiVersion == Some("v1") && pod.kind == Some("Pod")
    ensures pod.metadata == ObjectMeta(None, Specs.GenerateName(name),
      Specs.PodLabels(additionalLabels, name), PodAnnotations(additionalAnnotations, version))
    ensures !pod.spec.automountServiceAccountToken && pod.spec.serviceAccountName == None
    ensures pod.spec.volumes == [Volume(Specs.ConfigVolumeName, EmptyDir)]
    ensures |pod.spec.initContainers| == 1 && |pod.spec.containers| == 1
    ensures var setup, builder := pod.spec.initContainers[0], pod.spec.containers[0];
      && fresh(setup) && fresh(builder) && fresh(builder.volumeMounts)
      && setup.name == "setup" && setup.image == setupImage
      && setup.command == Some(["sh", "-c"]) && setup.args == Some([Specs.WaitForConfigScript])
      && builder.name == "builder" && builder.image == kanikoImage
      && builder.command == None && builder.args == None
      && builder.env == None && builder.envFrom == None
      && setup.volumeMounts == builder.volumeMounts
      && builder.volumeMounts.items == [VolumeMount(Specs.ConfigVolumeName, Specs.ConfigMountPath, false)]
      && setup.resources == builder.resources
      && builder.resources.requests == builder.resources.limits == map["cpu" := cpu, "memory" := memory]
  {
    var dockerConfigVolumeMounts := new VolumeMountList([VolumeMount(Specs.ConfigVolumeName, Specs.ConfigMountPath, false)]);
    var resourceMap := map["cpu" := cpu, "memory" := memory];
    var resources := Resources(resourceMap, resourceMap);
    var labels := Specs.PodLabels(additionalLabels, name);
    var annotations := PodAnnotations(additionalAnnotations, version);
    var setup := new Container("setup", setupImage, Some(["sh", "-c"]), Some([Specs.WaitForConfigScript]),
                               dockerConfigVolumeMounts, resources);
    var builder := new Container("builder", kanikoImage, None, None, dockerConfigVolumeMounts, resources);
    var spec := new PodSpec(false, [setup], [builder], [Volume(Specs.ConfigVolumeName, EmptyDir)]);
    pod := new Pod(Some("v1"), Some("Pod"), ObjectMeta(None, Specs.GenerateName(name), labels, annotations), spec);
  }

  /** Same as the C# mutator: a `context` volume and its mount at /workspace. */
  method MountContextForExecTransfer(pod: Pod) returns (r: Pod)
    requires |pod.spec.containers| > 0
    modifies pod.spec`volumes, pod.spec.containers[0].volumeMounts
    ensures r == pod
    ensures pod.spec.volumes == old(pod.spec.volumes) + [Volume(Specs.ContextVolumeName, EmptyDir)]
    ensures pod.spec.containers[0].volumeMounts.items ==
      old(pod.spec.containers[0].volumeMounts.items) + [VolumeMount(Specs.ContextVolumeName, Specs.ContextMountPath, false)]
  {
    r := Specs.MountContextForExecTransfer(pod);
  }

  const MissingDestinations := "Missing required kaniko argument --destinations"

  /** The settings every build starts from; the caller's keyword arguments override them. */
  const DefaultArgs: Dict<Option<string>> := [("dockerfile", Some("Dockerfile")), ("digest-file", Some("/dev/termination-log"))]

  /**
   * The assembled argument list: the settings flags (defaults updated by the
   * caller's keyword arguments, valueless settings dropped), the pre-parsed
   * arguments, then one flag per destination, the build-arg pairs and one
   * flag per label.
   */
  function KanikoArgs(preparsed: seq<string>, kwargs: Dict<Option<string>>, destinations: seq<string>,
                      buildArgs: seq<string>, labels: seq<string>): (r: seq<string>)
    ensures |r| == |Flags(Merge(DefaultArgs, kwargs))| + |preparsed| + |destinations| + 2 * |buildArgs| + |labels|
  {
    Flags(Merge(DefaultArgs, kwargs)) + preparsed + FlagEach("destination", destinations)
      + BuildArgPairs(buildArgs) + FlagEach("label", labels)
  }

  /** `args.update(kwargs)`: each keyword argument set in turn over the defaults. */
  method UpdateSettings(kwargs: Dict<Option<string>>) returns (settings: Dict<Option<string>>)
    ensures settings == Merge(DefaultArgs, kwargs)
  {
    settings := DefaultArgs;
    var i := 0;
    while i < |kwargs|
      invariant 0 <= i <= |kwargs|
      invariant Merge(settings, kwargs[i..]) == Merge(DefaultArgs, kwargs)
    {
      assert kwargs[i..][1..] == kwargs[i + 1..];
      settings := Set(settings, kwargs[i].0, kwargs[i].1);
      i := i + 1;
    }
    assert kwargs[i..] == [];
  }

  /** The settings comprehension, one setting at a time. */
  method FormatSettings(settings: Dict<Option<string>>) returns (args: seq<string>)
    ensures args == Flags(settings)
  {
    args := [];
    var i := 0;
    while i < |settings|
      invariant 0 <= i <= |settings|
      invariant args + Flags(settings[i..]) == Flags(settings)
    {
      assert settings[i..][1..] == settings[i + 1..];
      args := args + SettingFlag(settings[i]);
      i := i + 1;
    }
    assert settings[i..] == [];
  }

  /** `for v in values: args.append(f"--{name}={v}")`. */
  method AppendFlags(args: seq<string>, name: string, values: seq<string>) returns (r: seq<string>)
    ensures r == args + FlagEach(name, values)
  {
    r := args;
    var i := 0;
    while i < |values|
      invariant 0 <= i <= |values|
      invariant r == args + FlagEach(name, values[..i])
    {
      assert FlagEach(name, values[..i + 1]) == FlagEach(name, values[..i]) + [Flag(name, values[i])];
      r := r + [Flag(name, values[i])];
      i := i + 1;
    }
    assert values[..i] == values;
  }

  /** `for ba in build_args: args.append("--build-arg"); args.append(ba)`. */
  method AppendBuildArgs(args: seq<string>, buildArgs: seq<string>) returns (r: seq<string>)
    ensures r == args + BuildArgPairs(buildArgs)
  {
    r := args;
    var i := 0;
    while i < |buildArgs|
      invariant 0 <= i <= |buildArgs|
      invariant r == args + BuildArgPairs(buildArgs[..i])
    {
      assert buildArgs[..i + 1][..i] == buildArgs[..i];
      r := r + ["--build-arg", buildArgs[i]];
      i := i + 1;
    }
    assert buildArgs[..i] == buildArgs;
  }

  /**
   * The argument list `set_kaniko_args` builds, step by step as the source
   * does. `destinations` is None when the keyword is missing; `buildArgs` and
   * `labels` are empty when theirs are.
   */
  method AssembleKanikoArgs(preparsed: seq<string>, kwargs: Dict<Option<string>>, destinations: Option<seq<string>>,
                            buildArgs: seq<string>, labels: seq<string>)
    returns (r: Result<seq<string>, Error>)
    ensures destinations.None? ==> r == Failure(ValueError(MissingDestinations))
    ensures destinations.Some? ==> r == Success(KanikoArgs(preparsed, kwargs, destinations.value, buildArgs, labels))
  {
    if destinations.None? {
      return Failure(ValueError(MissingDestinations));
    }
    var settings := UpdateSettings(kwargs);
    var args := FormatSettings(settings);
    args := args + preparsed;
    args := AppendFlags(args, "destination", destinations.value);
    args := AppendBuildArgs(args, buildArgs);
    args := AppendFlags(args, "label", labels);
    r := Success(args);
  }

  /**
   * set_kaniko_args: fails before touching the pod when `destinations` is
   * missing; otherwise clears the builder's command and sets its arguments.
   */
  method SetKanikoArgs(pod: Pod, preparsed: seq<string>, kwargs: Dict<Option<string>>,
                       destinations: Option<seq<string>>, buildArgs: seq<string>, labels: seq<string>)
    returns (r: Result<Pod, Error>)
    requires |pod.spec.containers| > 0
    modifies FirstContainer(pod)`command, FirstContainer(pod)`args
    ensures destinations.None? ==>
      r == Failure(ValueError(MissingDestinations)) && unchanged(FirstContainer(pod))
    ensures destinations.Some? ==>
      && r == Success(pod)
      && pod.spec.containers[0].command == None
      && pod.spec.containers[0].args == Some(KanikoArgs(preparsed, kwargs, destinations.value, buildArgs, labels))
  {
    var args := AssembleKanikoArgs(preparsed, kwargs, destinations, buildArgs, labels);
    if args.Failure? {
      return Failure(args.error);
    }
    pod.spec.containers[0].command := None;
    pod.spec.containers[0].args := Some(args.value);
    r := Success(pod);
  }

  /**
   * The settings behind the flags: `dockerfile` then `digest-file` first,
   * each keyword argument's value winning over the default, and each key
   * once.
   */
  lemma KanikoSettings(kwargs: Dict<Option<string>>)
    requires DistinctKeys(kwargs)
    ensures var m := Merge(DefaultArgs, kwargs);
      && DistinctKeys(m) && |m| >= 2 && m[0].0 == "dockerfile" && m[1].0 == "digest-file"
      && (forall x :: HasKey(m, x) <==> x == "dockerfile" || x == "digest-file" || HasKey(kwargs, x))
      && (forall x :: Get(m, x) == if HasKey(kwargs, x) then Get(kwargs, x) else Get(DefaultArgs, x))
  {
    var m := Merge(DefaultArgs, kwargs);
    MergeKeys(DefaultArgs, kwargs);
    MergePositions(DefaultArgs, kwargs);
    forall x ensures Get(m, x) == if HasKey(kwargs, x) then Get(kwargs, x) else Get(DefaultArgs, x) {
      GetMerge(DefaultArgs, kwargs, x);
    }
    assert DefaultArgs[0].0 == "dockerfile" && DefaultArgs[1].0 == "digest-file";
  }

  /**
   * The first argument is the Dockerfile flag: the caller's value, or
   * "Dockerfile" when the caller gave none; the caller can drop it only by
   * passing None.
   */
  lemma DockerfileComesFirst(preparsed: seq<string>, kwargs: Dict<Option<string>>, destinations: seq<string>,
                             buildArgs: seq<string>, labels: seq<string>)
    requires DistinctKeys(kwargs)
    ensures var args := KanikoArgs(preparsed, kwargs, destinations, buildArgs, labels);
      && (!HasKey(kwargs, "dockerfile") ==> |args| > 0 && args[0] == Flag("dockerfile", "Dockerfile"))
      && (forall v :: Get(kwargs, "dockerfile") == Some(Some(v)) ==> |args| > 0 && args[0] == Flag("dockerfile", v))
  {
    KanikoSettings(kwargs);
    var m := Merge(DefaultArgs, kwargs);
    GetAt(m, 0);
    assert Flags(m) == SettingFlag(m[0]) + Flags(m[1..]);
  }

  /** The default settings keep their values unless a keyword argument names them. */
  lemma DefaultSetting(kwargs: Dict<Option<string>>, i: nat)
    requires DistinctKeys(kwargs) && i < |DefaultArgs| && !HasKey(kwargs, DefaultArgs[i].0)
    ensures |Merge(DefaultArgs, kwargs)| > i && Merge(DefaultArgs, kwargs)[i] == DefaultArgs[i]
  {
    var m := Merge(DefaultArgs, kwargs);
    MergeKeys(DefaultArgs, kwargs);
    MergePositions(DefaultArgs, kwargs);
    GetMerge(DefaultArgs, kwargs, DefaultArgs[i].0);
    GetAt(DefaultArgs, i);
    GetAt(m, i);
  }

  /**
   * The digest file defaults to the termination log, so the image digest
   * ends up in the builder's termination message.
   */
  lemma DigestFileDefault(preparsed: seq<string>, kwargs: Dict<Option<string>>, destinations: seq<string>,
                          buildArgs: seq<string>, labels: seq<string>)
    requires DistinctKeys(kwargs) && !HasKey(kwargs, "digest-file")
    ensures Flag("digest-file", "/dev/termination-log") in KanikoArgs(preparsed, kwargs, destinations, buildArgs, labels)
  {
    var m := Merge(DefaultArgs, kwargs);
    DefaultSetting(kwargs, 1);
    var f := Flags(m[1..]);
    assert f == [Flag("digest-file", "/dev/termination-log")] + Flags(m[2..]);
    assert Flags(m) == SettingFlag(m[0]) + f;
    var k := |SettingFlag(m[0])|;
    assert Flags(m)[k] == f[0];
    assert KanikoArgs(preparsed, kwargs, destinations, buildArgs, labels)[k] == Flags(m)[k];
  }

  /** Runs the pod as `serviceAccountName`; as in the C# port. */
  method ReplaceServiceAccount(pod: Pod, serviceAccountName: string) returns (r: Pod)
    requires |pod.spec.containers| > 0
    modifies pod.spec`serviceAccountName, pod.spec`automountServiceAccountToken
    ensures r == pod
    ensures pod.spec.serviceAccountName == Some(serviceAccountName) && pod.spec.automountServiceAccountToken
    ensures AuthStateOf(pod) == Apply(old(AuthStateOf(pod)), PodPatch(Some(serviceAccountName), [], [], [], []))
  {
    r := Specs.ReplaceServiceAccount(pod, serviceAccountName);
  }

  /**
   * Appends a secret envFrom reference; an empty list is replaced by a new
   * empty one first, which leaves the same contents.
   */
  method AppendEnvFromSecret(pod: Pod, secretName: string) returns (r: Pod)
    requires |pod.spec.containers| > 0
    modifies FirstContainer(pod)`envFrom
    ensures r == pod
    ensures pod.spec.containers[0].envFrom ==
      Some(old(pod.spec.containers[0].envFrom).GetOr([]) + [SecretRef(secretName)])
    ensures AuthStateOf(pod) == Apply(old(AuthStateOf(pod)), PodPatch(None, [], [SecretRef(secretName)], [], []))
  {
    r := Specs.AppendEnvFromSecret(pod, secretName);
  }

  method AppendEnvFromConfigMap(pod: Pod, configMapName: string) returns (r: Pod)
    requires |pod.spec.containers| > 0
    modifies FirstContainer(pod)`envFrom
    ensures r == pod
    ensures pod.spec.containers[0].envFrom ==
      Some(old(pod.spec.containers[0].envFrom).GetOr([]) + [ConfigMapRef(configMapName)])
    ensures AuthStateOf(pod) == Apply(old(AuthStateOf(pod)), PodPatch(None, [], [ConfigMapRef(configMapName)], [], []))
  {
    r := Specs.AppendEnvFromConfigMap(pod, configMapName);
  }

  method AppendEnvVar(pod: Pod, envVarName: string, envVarValue: string) returns (r: Pod)
    requires |pod.spec.containers| > 0
    modifies FirstContainer(pod)`env
    ensures r == pod
    ensures pod.spec.containers[0].env ==
      Some(old(pod.spec.containers[0].env).GetOr([]) + [EnvVar(envVarName, envVarValue)])
    ensures AuthStateOf(pod) == Apply(old(AuthStateOf(pod)), PodPatch(None, [EnvVar(envVarName, envVarValue)], [], [], []))
  {
    r := Specs.AppendEnvVar(pod, envVarName, envVarValue);
  }

  /** Mounts a secret at `mountPath`; unlike the C# port the mount is not read-only. */
  method AppendVolumeFromSecret(pod: Pod, secretName: string, mountPath: string) returns (r: Pod)
    requires |pod.spec.containers| > 0
    modifies pod.spec`volumes, pod.spec.containers[0].volumeMounts
    ensures r == pod
    ensures pod.spec.containers[0].volumeMounts.items ==
      old(pod.spec.containers[0].volumeMounts.items) + [VolumeMount(secretName, mountPath, false)]
    ensures pod.spec.volumes == old(pod.spec.volumes) + [Volume(secretName, SecretVolume(secretName))]
    ensures AuthStateOf(pod) == Apply(old(AuthStateOf(pod)),
      PodPatch(None, [], [], [Volume(secretName, SecretVolume(secretName))], [VolumeMount(secretName, mountPath, false)]))
  {
    pod.spec.containers[0].volumeMounts.Add(VolumeMount(secretName, mountPath, false));
    pod.spec.volumes := pod.spec.volumes + [Volume(secretName, SecretVolume(secretName))];
    r := pod;
  }

  /** Mounts a config map at `mountPath`; not read-only. */
  method AppendVolumeFromConfigMap(pod: Pod, configMapName: string, mountPath: string) returns (r: Pod)
    requires |pod.spec.containers| > 0
    modifies pod.spec`volumes, pod.spec.containers[0].volumeMounts
    ensures r == pod
    ensures pod.spec.containers[0].volumeMounts.items ==
      old(pod.spec.containers[0].volumeMounts.items) + [VolumeMount(configMapName, mountPath, false)]
    ensures pod.spec.volumes == old(pod.spec.volumes) + [Volume(configMapName, ConfigMapVolume(configMapName))]
    ensures AuthStateOf(pod) == Apply(old(AuthStateOf(pod)),
      PodPatch(None, [], [], [Volume(configMapName, ConfigMapVolume(configMapName))], [VolumeMount(configMapName, mountPath, false)]))
  {
    pod.spec.containers[0].volumeMounts.Add(VolumeMount(configMapName, mountPath, false));
    pod.spec.volumes := pod.spec.volumes + [Volume(configMapName, ConfigMapVolume(configMapName))];
    r := pod;
  }
}
