/**
 * The older Python pod-spec builder (src/kaniko_remote/k8s/specs.py): the
 * kaniko image is chosen by a debug switch, the pod carries instance and
 * version labels, and `add_kaniko_args` turns every keyword argument into a
 * `--key=value` flag after checking the required ones and filling in the
 * default Dockerfile location.
 */
module PyLegacySpecs {
  import opened Wrappers
  import opened Json
  import opened K8sModels
  import opened Errors
  import opened KanikoFlags
  import Specs

  const DebugImage := "gcr.io/kaniko-project/executor:debug"
  const LatestImage := "gcr.io/kaniko-project/executor:latest"
  const SetupImage := "busybox:stable"

  const InstanceLabel := "kaniko-remote/instance"
  const VersionLabel := "kaniko-remote/version"
  const LegacySystemLabelKeys := {Specs.NameLabel, Specs.ComponentLabel, InstanceLabel, VersionLabel}

  /** The executor image: the debug build exactly when asked for. */
  function KanikoImage(useDebugImage: bool): (image: string)
    ensures image == DebugImage <==> useDebugImage
    ensures !useDebugImage ==> image == LatestImage
  {
    if useDebugImage then DebugImage else LatestImage
  }

  /** The caller's labels with the four system labels, the version among them, forced in. */
  function PodLabels(additionalLabels: map<string, string>, instanceId: string, version: string): (labels: map<string, string>)
    ensures labels.Keys == additionalLabels.Keys + LegacySystemLabelKeys
    ensures labels[Specs.NameLabel] == "kaniko-remote" && labels[Specs.ComponentLabel] == "builder"
    ensures labels[InstanceLabel] == instanceId && labels[VersionLabel] == version
    ensures forall k :: k in additionalLabels && k !in LegacySystemLabelKeys ==> labels[k] == additionalLabels[k]
  {
    additionalLabels[Specs.NameLabel := "kaniko-remote"][Specs.ComponentLabel := "builder"]
      [InstanceLabel := instanceId][VersionLabel := version]
  }

  /** generate_pod_spec of the older builder; `version` is the package's `__version__`. */
  method GeneratePodSpec(
    instanceId: string, useDebugImage: bool, cpu: string, memory: string,
    additionalLabels: map<string, string>, additionalAnnotations: map<string, string>, version: string)
    returns (pod: Pod)
    ensures fresh(pod) && fresh(pod.spec)
    ensures pod.apiVersion == Some("v1") && pod.kind == Some("Pod")
    ensures pod.metadata == ObjectMeta(None, Specs.GenerateName(instanceId),
      PodLabels(additionalLabels, instanceId, version), additionalAnnotations)
    ensures !pod.spec.automountServiceAccountToken && pod.spec.serviceAccountName == None
    ensures pod.spec.volumes == [Volume(Specs.ConfigVolumeName, EmptyDir)]
    ensures |pod.spec.initContainers| == 1 && |pod.spec.containers| == 1
    ensures var setup, builder := pod.spec.initContainers[0], pod.spec.containers[0];
      && fresh(setup) && fresh(builder) && fresh(builder.volumeMounts)
      && setup.name == "setup" && setup.image == SetupImage
      && setup.command == Some(["sh", "-c"]) && setup.args == Some([Specs.WaitForConfigScript])
      && builder.name == "builder" && builder.image == KanikoImage(useDebugImage)
      && builder.command == None && builder.args == None
      && builder.env == None && builder.envFrom == None
      && setup.volumeMounts == builder.volumeMounts
      && builder.volumeMounts.items == [VolumeMount(Specs.ConfigVolumeName, Specs.ConfigMountPath, false)]
      && setup.resources == builder.resources
      && builder.resources.requests == builder.resources.limits == map["cpu" := cpu, "memory" := memory]
  {
    var dockerConfigVolumeMounts := new VolumeMountList([VolumeMount(Specs.ConfigVolumeName, Specs.ConfigMountPath, false)]);
    var resourceMap := map["cpu" := cpu, "memory" := memory];
    var resources := Resources(resourceMap, resourceMap);
    var setup := new Container("setup", SetupImage, Some(["sh", "-c"]), Some([Specs.WaitForConfigScript]),
                               dockerConfigVolumeMounts, resources);
    var builder := new Container("builder", KanikoImage(useDebugImage), None, None, dockerConfigVolumeMounts, resources);
    var spec := new PodSpec(false, [setup], [builder], [Volume(Specs.ConfigVolumeName, EmptyDir)]);
    pod := new Pod(Some("v1"), Some("Pod"),
      ObjectMeta(None, Specs.GenerateName(instanceId), PodLabels(additionalLabels, instanceId, version), additionalAnnotations),
      spec);
  }

  /** As in the newer builder: a `context` volume and its mount at /workspace. */
  method MountContextForExecTransfer(pod: Pod) returns (r: Pod)
    requires |pod.spec.containers| > 0
    modifies pod.spec`volumes, pod.spec.containers[0].volumeMounts
    ensures r == pod
    ensures pod.spec.volumes == old(pod.spec.volumes) + [Volume(Specs.ContextVolumeName, EmptyDir)]
    ensures pod.spec.containers[0].volumeMounts.items ==
      old(pod.spec.containers[0].volumeMounts.items) + [VolumeMount(Specs.ContextVolumeName, Specs.ContextMountPath, false)]
  {
    r := Specs.MountContextForExecTransfer(pod);
  }

  const RequiredArgs := ["context", "destination"]
  const DefaultArgs: Dict<string> := [("dockerfile", ".")]

  /** The message for the first required argument that is missing. */
  function MissingArgMessage(arg: string): string
  {
    "Missing required kaniko argument --" + arg
  }

  /** The first of `required` that `kwargs` lacks. */
  function FirstMissing(kwargs: Dict<string>, required: seq<string>): (r: Option<string>)
    ensures r.None? <==> forall j :: 0 <= j < |required| ==> HasKey(kwargs, required[j])
    ensures r.Some? ==> r.value in required && !HasKey(kwargs, r.value)
  {
    if |required| == 0 then None
    else if !HasKey(kwargs, required[0]) then Some(required[0])
    else
      assert forall j :: 1 <= j < |required| ==> required[j] == required[1..][j - 1];
      FirstMissing(kwargs, required[1..])
  }

  /** `kwargs[key] = value` for each default whose key is absent, in order. */
  function FillDefaults(kwargs: Dict<string>, defaults: Dict<string>): Dict<string>
    decreases |defaults|
  {
    if |defaults| == 0 then kwargs
    else FillDefaults(if HasKey(kwargs, defaults[0].0) then kwargs else kwargs + [defaults[0]], defaults[1..])
  }

  /** One `--key=value` flag per setting, in order. */
  function SettingsFlags(settings: Dict<string>): (r: seq<string>)
    ensures |r| == |settings|
    ensures forall i :: 0 <= i < |settings| ==> r[i] == Flag(settings[i].0, settings[i].1)
  {
    seq(|settings|, i requires 0 <= i < |settings| => Flag(settings[i].0, settings[i].1))
  }

  /**
   * The argument list `add_kaniko_args` builds: the required-argument check,
   * the default fill-in and the flag comprehension, each as the source's loop.
   */
  method AssembleArgs(kwargs: Dict<string>) returns (r: Result<seq<string>, Error>)
    ensures FirstMissing(kwargs, RequiredArgs).Some? ==>
      r == Failure(ValueError(MissingArgMessage(FirstMissing(kwargs, RequiredArgs).value)))
    ensures FirstMissing(kwargs, RequiredArgs).None? ==>
      r == Success(SettingsFlags(FillDefaults(kwargs, DefaultArgs)))
  {
    var i := 0;
    while i < |RequiredArgs|
      invariant 0 <= i <= |RequiredArgs|
      invariant FirstMissing(kwargs, RequiredArgs) == FirstMissing(kwargs, RequiredArgs[i..])
    {
      assert RequiredArgs[i..][1..] == RequiredArgs[i + 1..];
      if !HasKey(kwargs, RequiredArgs[i]) {
        return Failure(ValueError(MissingArgMessage(RequiredArgs[i])));
      }
      i := i + 1;
    }
    var settings := kwargs;
    i := 0;
    while i < |DefaultArgs|
      invariant 0 <= i <= |DefaultArgs|
      invariant FillDefaults(settings, DefaultArgs[i..]) == FillDefaults(kwargs, DefaultArgs)
    {
      assert DefaultArgs[i..][1..] == DefaultArgs[i + 1..];
      if !HasKey(settings, DefaultArgs[i].0) {
        settings := settings + [DefaultArgs[i]];
      }
      i := i + 1;
    }
    var args: seq<string> := [];
    i := 0;
    while i < |settings|
      invariant 0 <= i <= |settings|
      invariant args == SettingsFlags(settings[..i])
    {
      assert SettingsFlags(settings[..i + 1]) == args + [Flag(settings[i].0, settings[i].1)];
      args := args + [Flag(settings[i].0, settings[i].1)];
      i := i + 1;
    }
    assert settings[..i] == settings;
    r := Success(args);
  }

  /**
   * Which required argument is reported: `context` when it is missing,
   * otherwise `destination`; with both present the assembly succeeds.
   */
  lemma {:induction false} MissingArgument(kwargs: Dict<string>)
    ensures !HasKey(kwargs, "context") ==> FirstMissing(kwargs, RequiredArgs) == Some("context")
    ensures HasKey(kwargs, "context") && !HasKey(kwargs, "destination") ==>
      FirstMissing(kwargs, RequiredArgs) == Some("destination")
    ensures HasKey(kwargs, "context") && HasKey(kwargs, "destination") ==> FirstMissing(kwargs, RequiredArgs) == None
  {
    assert RequiredArgs[1..] == ["destination"];
    assert RequiredArgs[1..][1..] == [];
  }

  /**
   * With the required arguments present, the flags are one per keyword
   * argument in the caller's order, followed by `--dockerfile=.` exactly
   * when the caller gave no Dockerfile.
   */
  lemma {:induction false} ArgsOfKwargs(kwargs: Dict<string>)
    ensures var args := SettingsFlags(FillDefaults(kwargs, DefaultArgs));
      && |args| == |kwargs| + (if HasKey(kwargs, "dockerfile") then 0 else 1)
      && (forall i :: 0 <= i < |kwargs| ==> args[i] == Flag(kwargs[i].0, kwargs[i].1))
      && (!HasKey(kwargs, "dockerfile") ==> args[|kwargs|] == Flag("dockerfile", "."))
  {
    assert DefaultArgs[0].0 == "dockerfile" && DefaultArgs[1..] == [];
    var filled := if HasKey(kwargs, "dockerfile") then kwargs else kwargs + [("dockerfile", ".")];
    assert FillDefaults(kwargs, DefaultArgs) == FillDefaults(filled, []) == filled;
  }

  /**
   * add_kaniko_args: fails before touching the pod when a required argument
   * is missing; otherwise clears the builder's command and sets the flags.
   */
  method AddKanikoArgs(pod: Pod, kwargs: Dict<string>) returns (r: Result<Pod, Error>)
    requires |pod.spec.containers| > 0
    modifies FirstContainer(pod)`command, FirstContainer(pod)`args
    ensures FirstMissing(kwargs, RequiredArgs).Some? ==>
      && r == Failure(ValueError(MissingArgMessage(FirstMissing(kwargs, RequiredArgs).value)))
      && unchanged(FirstContainer(pod))
    ensures FirstMissing(kwargs, RequiredArgs).None? ==>
      && r == Success(pod)
      && pod.spec.containers[0].command == None
      && pod.spec.containers[0].args == Some(SettingsFlags(FillDefaults(kwargs, DefaultArgs)))
  {
    var args := AssembleArgs(kwargs);
    if args.Failure? {
      return Failure(args.error);
    }
    pod.spec.containers[0].command := None;
    pod.spec.containers[0].args := Some(args.value);
    r := Success(pod);
  }

  /** As in the newer builder. */
  method ReplaceServiceAccount(pod: Pod, serviceAccountName: string) returns (r: Pod)
    requires |pod.spec.containers| > 0
    modifies pod.spec`serviceAccountName, pod.spec`automountServiceAccountToken
    ensures r == pod
    ensures pod.spec.serviceAccountName == Some(serviceAccountName) && pod.spec.automountServiceAccountToken
    ensures AuthStateOf(pod) == Apply(old(AuthStateOf(pod)), PodPatch(Some(serviceAccountName), [], [], [], []))
  {
    r := Specs.ReplaceServiceAccount(pod, serviceAccountName);
  }

  /** Appends a secret envFrom reference at the end, keeping the earlier ones. */
  method AppendEnvFromSecret(pod: Pod, secretName: string) returns (r: Pod)
    requires |pod.spec.containers| > 0
    modifies FirstContainer(pod)`envFrom
    ensures r == pod
    ensures pod.spec.containers[0].envFrom ==
      Some(old(pod.spec.containers[0].envFrom).GetOr([]) + [SecretRef(secretName)])
    ensures AuthStateOf(pod) == Apply(old(AuthStateOf(pod)), PodPatch(None, [], [SecretRef(secretName)], [], []))
  {
    r := Specs.AppendEnvFromSecret(pod, secretName);
  }

  /** append_file_mount_from_secret is not implemented: it always raises. */
  function AppendFileMountFromSecret(pod: Pod, secretName: string): (r: Result<Pod, Error>)
    ensures r.Failure? && r.error == NotImplemented
  {
    Failure(NotImplemented)
  }
}
