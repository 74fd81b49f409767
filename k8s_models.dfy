/**
 * The Kubernetes client objects both generations build and mutate
 * (`k8s.Models.V1Pod` in C#, `kubernetes.client.V1Pod` in Python).
 * Objects the programs change in place are classes; the leaves they only
 * create are values. A container's volume-mount list is an object of its
 * own, because the generated pod hands ONE list to both containers.
 */
module K8sModels {
  import opened Wrappers

  datatype VolumeMount = VolumeMount(name: string, mountPath: string, readOnly: bool)

  datatype VolumeSource =
    | EmptyDir
    | SecretVolume(secretName: string)
    | ConfigMapVolume(configMapName: string)

  datatype Volume = Volume(name: string, source: VolumeSource)

  datatype EnvVar = EnvVar(name: string, value: string)

  datatype EnvFromSource = SecretRef(secretName: string) | ConfigMapRef(configMapName: string)

  datatype Resources = Resources(requests: map<string, string>, limits: map<string, string>)

  datatype ObjectMeta = ObjectMeta(
    name: Option<string>,
    generateName: string,
    labels: map<string, string>,
    annotations: map<string, string>)

  datatype ContainerStateWaiting = ContainerStateWaiting(reason: Option<string>)
  datatype ContainerStateRunning = ContainerStateRunning(startedAt: Option<string>)
  datatype ContainerStateTerminated = ContainerStateTerminated(exitCode: int, reason: Option<string>, message: Option<string>)

  /** `V1ContainerState`: three optional parts, normally exactly one present. */
  datatype ContainerState = ContainerState(
    waiting: Option<ContainerStateWaiting>,
    running: Option<ContainerStateRunning>,
    terminated: Option<ContainerStateTerminated>)

  datatype ContainerStatus = ContainerStatus(name: string, state: Option<ContainerState>)

  /** The status part of one pod snapshot delivered by a watch. */
  datatype PodStatus = PodStatus(
    containerStatuses: Option<seq<ContainerStatus>>,
    initContainerStatuses: Option<seq<ContainerStatus>>,
    ephemeralContainerStatuses: Option<seq<ContainerStatus>>)

  /** A `List<V1VolumeMount>` that several containers may share. */
  class VolumeMountList {
    var items: seq<VolumeMount>

    constructor (items: seq<VolumeMount>)
      ensures this.items == items
    {
      this.items := items;
    }

    method Add(m: VolumeMount)
      modifies this
      ensures items == old(items) + [m]
    {
      items := items + [m];
    }
  }

  class Container {
    const name: string
    var image: string
    var command: Option<seq<string>>
    var args: Option<seq<string>>
    const volumeMounts: VolumeMountList
    var env: Option<seq<EnvVar>>
    var envFrom: Option<seq<EnvFromSource>>
    const resources: Resources

    constructor (name: string, image: string, command: Option<seq<string>>, args: Option<seq<string>>,
                 volumeMounts: VolumeMountList, resources: Resources)
      ensures this.name == name && this.image == image
      ensures this.command == command && this.args == args
      ensures this.volumeMounts == volumeMounts && this.resources == resources
      ensures env == None && envFrom == None
    {
      this.name := name;
      this.image := image;
      this.command := command;
      this.args := args;
      this.volumeMounts := volumeMounts;
      this.env := None;
      this.envFrom := None;
      this.resources := resources;
    }
  }

  class PodSpec {
    var automountServiceAccountToken: bool
    var serviceAccountName: Option<string>
    const initContainers: seq<Container>
    const containers: seq<Container>
    var volumes: seq<Volume>

    constructor (automount: bool, initContainers: seq<Container>, containers: seq<Container>, volumes: seq<Volume>)
      ensures automountServiceAccountToken == automount && serviceAccountName == None
      ensures this.initContainers == initContainers && this.containers == containers
      ensures this.volumes == volumes
    {
      automountServiceAccountToken := automount;
      serviceAccountName := None;
      this.initContainers := initContainers;
      this.containers := containers;
      this.volumes := volumes;
    }
  }

  class Pod {
    const apiVersion: Option<string>
    const kind: Option<string>
    var metadata: ObjectMeta
    const spec: PodSpec

    constructor (apiVersion: Option<string>, kind: Option<string>, metadata: ObjectMeta, spec: PodSpec)
      ensures this.apiVersion == apiVersion && this.kind == kind
      ensures this.metadata == metadata && this.spec == spec
    {
      this.apiVersion := apiVersion;
      this.kind := kind;
      this.metadata := metadata;
      this.spec := spec;
    }
  }

  /**
   * The cluster as a client sees it: the namespace it works in, and the pods
   * it has asked the API server to delete, in order (`DeletePodAsync`,
   * `delete_pod`). Creation, reads and watches are inputs of the callers.
   */
  class PodClient {
    const namespace: string
    var deletedPods: seq<string>

    constructor (namespace: string)
      ensures this.namespace == namespace && deletedPods == []
    {
      this.namespace := namespace;
      deletedPods := [];
    }

    method DeletePod(podName: string)
      modifies this`deletedPods
      ensures deletedPods == old(deletedPods) + [podName]
    {
      deletedPods := deletedPods + [podName];
    }
  }

  /** The statuses named `name`, in order. */
  function Named(statuses: seq<ContainerStatus>, name: string): (r: seq<ContainerStatus>)
    ensures |r| <= |statuses|
    ensures forall s :: s in r <==> s in statuses && s.name == name
  {
    if |statuses| == 0 then []
    else
      var init := statuses[..|statuses| - 1];
      var last := statuses[|statuses| - 1];
      assert forall s :: s in statuses <==> s in init || s == last;
      Named(init, name) + if last.name == name then [last] else []
  }

  /** No status named `name` gives nothing, one gives exactly that status. */
  lemma {:induction false} NamedByIndex(statuses: seq<ContainerStatus>, name: string, k: int)
    requires forall i :: 0 <= i < |statuses| && i != k ==> statuses[i].name != name
    ensures 0 <= k < |statuses| && statuses[k].name == name ==> Named(statuses, name) == [statuses[k]]
    ensures !(0 <= k < |statuses| && statuses[k].name == name) ==> Named(statuses, name) == []
  {
    if |statuses| > 0 {
      var init := statuses[..|statuses| - 1];
      NamedByIndex(init, name, k);
    }
  }

  /** Two statuses with the same name make the selection ambiguous. */
  lemma {:induction false} NamedTwice(statuses: seq<ContainerStatus>, name: string, i: int, j: int)
    requires 0 <= i < j < |statuses| && statuses[i].name == name && statuses[j].name == name
    ensures |Named(statuses, name)| >= 2
  {
    var init := statuses[..|statuses| - 1];
    if j < |statuses| - 1 {
      NamedTwice(init, name, i, j);
    } else {
      assert statuses[i] == init[i];
      assert |Named(init, name)| >= 1;
    }
  }

  /** `pod.Spec.Containers.First()`, the builder container of a generated pod. */
  function FirstContainer(pod: Pod): Container
    requires |pod.spec.containers| > 0
  {
    pod.spec.containers[0]
  }

  /**
   * The part of a pod the authorisers touch: the service account, the
   * volumes, and the first container's env, envFrom and mounts.
   */
  datatype AuthState = AuthState(
    serviceAccountName: Option<string>,
    automountServiceAccountToken: bool,
    volumes: seq<Volume>,
    env: Option<seq<EnvVar>>,
    envFrom: Option<seq<EnvFromSource>>,
    mounts: seq<VolumeMount>)

  function AuthStateOf(pod: Pod): AuthState
    requires |pod.spec.containers| > 0
    reads pod.spec, pod.spec.containers[0], pod.spec.containers[0].volumeMounts
  {
    var c := pod.spec.containers[0];
    AuthState(pod.spec.serviceAccountName, pod.spec.automountServiceAccountToken,
              pod.spec.volumes, c.env, c.envFrom, c.volumeMounts.items)
  }

  /** What a run of Specs mutators adds to a pod. */
  datatype PodPatch = PodPatch(
    serviceAccount: Option<string>,
    env: seq<EnvVar>,
    envFrom: seq<EnvFromSource>,
    volumes: seq<Volume>,
    mounts: seq<VolumeMount>)

  const NoPatch := PodPatch(None, [], [], [], [])

  /**
   * Appending to a list the mutators create on first use: nothing to add
   * leaves a missing list missing.
   */
  function AppendList<T>(list: Option<seq<T>>, xs: seq<T>): (r: Option<seq<T>>)
    ensures xs == [] ==> r == list
    ensures xs != [] ==> r.Some? && r.value == list.GetOr([]) + xs
  {
    if xs == [] then list else Some(list.GetOr([]) + xs)
  }

  function Apply(s: AuthState, p: PodPatch): AuthState
  {
    AuthState(
      if p.serviceAccount.Some? then p.serviceAccount else s.serviceAccountName,
      p.serviceAccount.Some? || s.automountServiceAccountToken,
      s.volumes + p.volumes,
      AppendList(s.env, p.env),
      AppendList(s.envFrom, p.envFrom),
      s.mounts + p.mounts)
  }

  /** An empty patch leaves the state as it was. */
  lemma ApplyNoPatch(s: AuthState)
    ensures Apply(s, NoPatch) == s
  {
    assert s.volumes + [] == s.volumes;
    assert s.mounts + [] == s.mounts;
  }

  /** `p` followed by `q`. */
  function Then(p: PodPatch, q: PodPatch): PodPatch
  {
    PodPatch(
      if q.serviceAccount.Some? then q.serviceAccount else p.serviceAccount,
      p.env + q.env, p.envFrom + q.envFrom, p.volumes + q.volumes, p.mounts + q.mounts)
  }

  lemma AppendListTwice<T>(list: Option<seq<T>>, xs: seq<T>, ys: seq<T>)
    ensures AppendList(AppendList(list, xs), ys) == AppendList(list, xs + ys)
  {
    if xs == [] {
      assert xs + ys == ys;
    } else if ys == [] {
      assert xs + ys == xs;
    } else {
      assert list.GetOr([]) + xs + ys == list.GetOr([]) + (xs + ys);
    }
  }

  /** Applying two patches in turn is applying their composition. */
  lemma ApplyThen(s: AuthState, p: PodPatch, q: PodPatch)
    ensures Apply(Apply(s, p), q) == Apply(s, Then(p, q))
  {
    assert s.volumes + p.volumes + q.volumes == s.volumes + (p.volumes + q.volumes);
    assert s.mounts + p.mounts + q.mounts == s.mounts + (p.mounts + q.mounts);
    AppendListTwice(s.env, p.env, q.env);
    AppendListTwice(s.envFrom, p.envFrom, q.envFrom);
  }
}
