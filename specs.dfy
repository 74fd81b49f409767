/**
 * The C# pod-spec builder and its in-place mutators (src/K8s/Specs.cs).
 * Every mutator changes the pod it is given and returns that same pod; the
 * ones that append to the first container's mounts append to the list the
 * setup container shares with it.
 */
module Specs {
  import opened Wrappers
  import opened K8sModels

  const NameLabel := "app.kubernetes.io/name"
  const ComponentLabel := "app.kubernetes.io/component"
  const BuilderNameLabel := "kaniko-remote/builder-name"
  const SystemLabelKeys := {NameLabel, ComponentLabel, BuilderNameLabel}

  const ConfigVolumeName := "config"
  const ConfigMountPath := "/kaniko/.docker"
  const ContextVolumeName := "context"
  const ContextMountPath := "/workspace"
  /** The setup container waits until the docker config has been uploaded. */
  const WaitForConfigScript := "until [ -e /kaniko/.docker/config.json ]; do sleep 1; done"

  /** The pod labels: the caller's labels with the three system labels forced. */
  function PodLabels(additionalLabels: map<string, string>, name: string): (labels: map<string, string>)
    ensures labels.Keys == additionalLabels.Keys + SystemLabelKeys
    ensures labels[NameLabel] == "kaniko-remote"
    ensures labels[ComponentLabel] == "builder"
    ensures labels[BuilderNameLabel] == name
    ensures forall k :: k in additionalLabels && k !in SystemLabelKeys ==> labels[k] == additionalLabels[k]
  {
    additionalLabels[NameLabel := "kaniko-remote"][ComponentLabel := "builder"][BuilderNameLabel := name]
  }

  /** `kaniko-remote-{name}-`: the prefix the API server completes into a unique pod name. */
  function GenerateName(name: string): string
  {
    "kaniko-remote-" + name + "-"
  }

  /**
   * GeneratePodSpec: a setup init container and a builder container that
   * share one mount list and one resource requirement, and a single
   * empty-dir volume for the docker config.
   */
  method GeneratePodSpec(
    name: string, cpu: string, memory: string, kanikoImage: string, setupImage: string,
    additionalLabels: map<string, string>, additionalAnnotations: map<string, string>)
    returns (pod: Pod)
    ensures fresh(pod) && fresh(pod.spec)
    ensures pod.metadata == ObjectMeta(None, GenerateName(name), PodLabels(additionalLabels, name), additionalAnnotations)
    ensures pod.apiVersion == None && pod.kind == None
    ensures !pod.spec.automountServiceAccountToken && pod.spec.serviceAccountName == None
    ensures pod.spec.volumes == [Volume(ConfigVolumeName, EmptyDir)]
    ensures |pod.spec.initContainers| == 1 && |pod.spec.containers| == 1
    ensures var setup, builder := pod.spec.initContainers[0], pod.spec.containers[0];
      && fresh(setup) && fresh(builder) && fresh(builder.volumeMounts)
      && setup.name == "setup" && setup.image == setupImage
      && setup.command == Some(["sh", "-c"]) && setup.args == Some([WaitForConfigScript])
      && builder.name == "builder" && builder.image == kanikoImage
      && builder.command == None && builder.args == None
      && builder.env == None && builder.envFrom == None
      && setup.volumeMounts == builder.volumeMounts
      && builder.volumeMounts.items == [VolumeMount(ConfigVolumeName, ConfigMountPath, false)]
      && setup.resources == builder.resources
      && builder.resources.requests == builder.resources.limits == map["cpu" := cpu, "memory" := memory]
  {
    var dockerConfigVolumeMounts := new VolumeMountList([VolumeMount(ConfigVolumeName, ConfigMountPath, false)]);
    var resourcesDict := map["cpu" := cpu, "memory" := memory];
    var resources := Resources(resourcesDict, resourcesDict);
    var labels := PodLabels(additionalLabels, name);
    var setup := new Container("setup", setupImage, Some(["sh", "-c"]), Some([WaitForConfigScript]),
                               dockerConfigVolumeMounts, resources);
    var builder := new Container("builder", kanikoImage, None, None, dockerConfigVolumeMounts, resources);
    var spec := new PodSpec(false, [setup], [builder], [Volume(ConfigVolumeName, EmptyDir)]);
    pod := new Pod(None, None, ObjectMeta(None, GenerateName(name), labels, additionalAnnotations), spec);
  }

  /** Adds the `context` volume and mounts it at /workspace in the first container. */
  method MountContextForExecTransfer(pod: Pod) returns (r: Pod)
    requires |pod.spec.containers| > 0
    modifies pod.spec`volumes, pod.spec.containers[0].volumeMounts
    ensures r == pod
    ensures pod.spec.volumes == old(pod.spec.volumes) + [Volume(ContextVolumeName, EmptyDir)]
    ensures pod.spec.containers[0].volumeMounts.items ==
      old(pod.spec.containers[0].volumeMounts.items) + [VolumeMount(ContextVolumeName, ContextMountPath, false)]
  {
    pod.spec.volumes := pod.spec.volumes + [Volume(ContextVolumeName, EmptyDir)];
    pod.spec.containers[0].volumeMounts.Add(VolumeMount(ContextVolumeName, ContextMountPath, false));
    r := pod;
  }

  /** Clears the first container's command so the image entrypoint runs with `args`. */
  method SetKanikoArgs(pod: Pod, args: seq<string>) returns (r: Pod)
    requires |pod.spec.containers| > 0
    modifies FirstContainer(pod)`command, FirstContainer(pod)`args
    ensures r == pod
    ensures pod.spec.containers[0].command == None
    ensures pod.spec.containers[0].args == Some(args)
  {
    pod.spec.containers[0].command := None;
    pod.spec.containers[0].args := Some(args);
    r := pod;
  }

  /** Runs the pod as `serviceAccountName` and mounts that account's token. */
  method ReplaceServiceAccount(pod: Pod, serviceAccountName: string) returns (r: Pod)
    requires |pod.spec.containers| > 0
    modifies pod.spec`serviceAccountName, pod.spec`automountServiceAccountToken
    ensures r == pod
    ensures pod.spec.serviceAccountName == Some(serviceAccountName)
    ensures pod.spec.automountServiceAccountToken
    ensures AuthStateOf(pod) == Apply(old(AuthStateOf(pod)), PodPatch(Some(serviceAccountName), [], [], [], []))
  {
    pod.spec.serviceAccountName := Some(serviceAccountName);
    pod.spec.automountServiceAccountToken := true;
    r := pod;
  }

  /** Appends an envFrom reference to a secret, creating the list when missing. */
  method AppendEnvFromSecret(pod: Pod, secretName: string) returns (r: Pod)
    requires |pod.spec.containers| > 0
    modifies FirstContainer(pod)`envFrom
    ensures r == pod
    ensures pod.spec.containers[0].envFrom ==
      Some(old(pod.spec.containers[0].envFrom).GetOr([]) + [SecretRef(secretName)])
    ensures AuthStateOf(pod) == Apply(old(AuthStateOf(pod)), PodPatch(None, [], [SecretRef(secretName)], [], []))
  {
    var container := pod.spec.containers[0];
    if container.envFrom.None? {
      container.envFrom := Some([]);
    }
    container.envFrom := Some(container.envFrom.value + [SecretRef(secretName)]);
    r := pod;
  }

  /** Appends an envFrom reference to a config map, creating the list when missing. */
  method AppendEnvFromConfigMap(pod: Pod, configMapName: string) returns (r: Pod)
    requires |pod.spec.containers| > 0
    modifies FirstContainer(pod)`envFrom
    ensures r == pod
    ensures pod.spec.containers[0].envFrom ==
      Some(old(pod.spec.containers[0].envFrom).GetOr([]) + [ConfigMapRef(configMapName)])
    ensures AuthStateOf(pod) == Apply(old(AuthStateOf(pod)), PodPatch(None, [], [ConfigMapRef(configMapName)], [], []))
  {
    var container := pod.spec.containers[0];
    if container.envFrom.None? {
      container.envFrom := Some([]);
    }
    container.envFrom := Some(container.envFrom.value + [ConfigMapRef(configMapName)]);
    r := pod;
  }

  /** Appends a plain environment variable, creating the list when missing. */
  method AppendEnvVar(pod: Pod, envVarName: string, envVarValue: string) returns (r: Pod)
    requires |pod.spec.containers| > 0
    modifies FirstContainer(pod)`env
    ensures r == pod
    ensures pod.spec.containers[0].env ==
      Some(old(pod.spec.containers[0].env).GetOr([]) + [EnvVar(envVarName, envVarValue)])
    ensures AuthStateOf(pod) == Apply(old(AuthStateOf(pod)), PodPatch(None, [EnvVar(envVarName, envVarValue)], [], [], []))
  {
    var container := pod.spec.containers[0];
    if container.env.None? {
      container.env := Some([]);
    }
    container.env := Some(container.env.value + [EnvVar(envVarName, envVarValue)]);
    r := pod;
  }

  /** Mounts a secret read-only at `mountPath`; volume and mount share the secret's name. */
  method AppendVolumeFromSecret(pod: Pod, secretName: string, mountPath: string) returns (r: Pod)
    requires |pod.spec.containers| > 0
    modifies pod.spec`volumes, pod.spec.containers[0].volumeMounts
    ensures r == pod
    ensures pod.spec.containers[0].volumeMounts.items ==
      old(pod.spec.containers[0].volumeMounts.items) + [VolumeMount(secretName, mountPath, true)]
    ensures pod.spec.volumes == old(pod.spec.volumes) + [Volume(secretName, SecretVolume(secretName))]
    ensures AuthStateOf(pod) == Apply(old(AuthStateOf(pod)),
      PodPatch(None, [], [], [Volume(secretName, SecretVolume(secretName))], [VolumeMount(secretName, mountPath, true)]))
  {
    var mounts := pod.spec.containers[0].volumeMounts;
    mounts.Add(VolumeMount(secretName, mountPath, true));
    pod.spec.volumes := pod.spec.volumes + [Volume(secretName, SecretVolume(secretName))];
    r := pod;
  }

  /** Mounts a config map read-only at `mountPath`; volume and mount share the map's name. */
  method AppendVolumeFromConfigMap(pod: Pod, configMapName: string, mountPath: string) returns (r: Pod)
    requires |pod.spec.containers| > 0
    modifies pod.spec`volumes, pod.spec.containers[0].volumeMounts
    ensures r == pod
    ensures pod.spec.containers[0].volumeMounts.items ==
      old(pod.spec.containers[0].volumeMounts.items) + [VolumeMount(configMapName, mountPath, true)]
    ensures pod.spec.volumes == old(pod.spec.volumes) + [Volume(configMapName, ConfigMapVolume(configMapName))]
    ensures AuthStateOf(pod) == Apply(old(AuthStateOf(pod)),
      PodPatch(None, [], [], [Volume(configMapName, ConfigMapVolume(configMapName))], [VolumeMount(configMapName, mountPath, true)]))
  {
    var mounts := pod.spec.containers[0].volumeMounts;
    mounts.Add(VolumeMount(configMapName, mountPath, true));
    pod.spec.volumes := pod.spec.volumes + [Volume(configMapName, ConfigMapVolume(configMapName))];
    r := pod;
  }

  /**
   * A freshly generated pod with the build context mounted: the setup
   * container sees the context mount as well, because its mount list is the
   * builder's.
   */
  method GenerateAndMountContext(
    name: string, cpu: string, memory: string, kanikoImage: string, setupImage: string,
    additionalLabels: map<string, string>, additionalAnnotations: map<string, string>)
    returns (pod: Pod)
    ensures |pod.spec.initContainers| == 1 && |pod.spec.containers| == 1
    ensures pod.spec.volumes == [Volume(ConfigVolumeName, EmptyDir), Volume(ContextVolumeName, EmptyDir)]
    ensures pod.spec.containers[0].volumeMounts.items
         == pod.spec.initContainers[0].volumeMounts.items
         == [VolumeMount(ConfigVolumeName, ConfigMountPath, false), VolumeMount(ContextVolumeName, ContextMountPath, false)]
  {
    pod := GeneratePodSpec(name, cpu, memory, kanikoImage, setupImage, additionalLabels, additionalAnnotations);
    pod := MountContextForExecTransfer(pod);
  }
}
