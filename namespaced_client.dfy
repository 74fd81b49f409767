/**
 * The C# Kubernetes client wrapper (src/K8s/NamespacedClient.cs): how it
 * picks its namespace, how one watch event's pod status is turned into the
 * state of the watched container, and the two waits that scan the watch
 * stream for the first running or terminated state.
 *
 * The watch stream is a finite sequence of snapshots: the status of the pod
 * in each event, missing when the event's pod has none. The end of the
 * sequence is the server-side timeout ending the stream.
 */
module NamespacedClient {
  import opened Wrappers
  import opened Errors
  import opened K8sModels

  const DefaultNamespace := "default"
  const ServiceAccountNamespaceFile := "/var/run/secrets/kubernetes.io/serviceaccount/namespace"

  /** `KubernetesOptions`, the `kubernetes` section. */
  datatype KubernetesOptions = KubernetesOptions(kubeconfig: Option<string>, context: Option<string>, namespace: Option<string>)

  /**
   * The constructor's namespace: the explicit option, else the service
   * account's namespace file in a cluster, else "default". `readAllText`
   * stands for `File.ReadAllText`.
   */
  function SelectNamespace(options: KubernetesOptions, runningInCluster: bool, readAllText: string -> string): (ns: string)
    ensures options.namespace.Some? ==> ns == options.namespace.value
    ensures options.namespace.None? && runningInCluster ==> ns == readAllText(ServiceAccountNamespaceFile)
    ensures options.namespace.None? && !runningInCluster ==> ns == DefaultNamespace
  {
    if options.namespace.Some? then options.namespace.value
    else if runningInCluster then readAllText(ServiceAccountNamespaceFile)
    else DefaultNamespace
  }

  /** The service-account file is read only inside a cluster and only without an explicit namespace. */
  lemma NamespaceFileReadOnlyInCluster(options: KubernetesOptions, runningInCluster: bool, f: string -> string, g: string -> string)
    ensures options.namespace.Some? || !runningInCluster ==>
      SelectNamespace(options, runningInCluster, f) == SelectNamespace(options, runningInCluster, g)
    ensures options.namespace.None? && runningInCluster && f(ServiceAccountNamespaceFile) != g(ServiceAccountNamespaceFile) ==>
      SelectNamespace(options, runningInCluster, f) != SelectNamespace(options, runningInCluster, g)
  {
  }

  class NamespacedClient {
    const kubeconfig: Option<string>
    const context: Option<string>
    const namespace: string
    const runningInCluster: bool

    /** `runningInCluster` is whether `KUBERNETES_SERVICE_HOST` is set. */
    constructor (options: KubernetesOptions, runningInCluster: bool, readAllText: string -> string)
      ensures kubeconfig == options.kubeconfig && context == options.context
      ensures this.runningInCluster == runningInCluster
      ensures namespace == SelectNamespace(options, runningInCluster, readAllText)
    {
      kubeconfig := options.kubeconfig;
      context := options.context;
      this.runningInCluster := runningInCluster;
      if options.namespace.Some? {
        namespace := options.namespace.value;
      } else if runningInCluster {
        namespace := readAllText(ServiceAccountNamespaceFile);
      } else {
        namespace := DefaultNamespace;
      }
    }
  }

  /**
   * `ContainerStatuses.Concat(InitContainerStatuses).Concat(EphemeralContainerStatuses)`:
   * `Enumerable.Concat` raises ArgumentNullException for a null first or
   * second list.
   */
  function AllStatuses(status: PodStatus): (r: Result<seq<ContainerStatus>, Error>)
    ensures r.Success? <==>
      status.containerStatuses.Some? && status.initContainerStatuses.Some? && status.ephemeralContainerStatuses.Some?
    ensures status.containerStatuses.None? ==> r == Failure(ArgumentNull("first"))
    ensures status.containerStatuses.Some? && r.Failure? ==> r == Failure(ArgumentNull("second"))
  {
    if status.containerStatuses.None? then Failure(ArgumentNull("first"))
    else if status.initContainerStatuses.None? || status.ephemeralContainerStatuses.None? then Failure(ArgumentNull("second"))
    else Success(status.containerStatuses.value + status.initContainerStatuses.value + status.ephemeralContainerStatuses.value)
  }

  function MoreThanOneMessage(podName: string, container: string): string
  {
    "Pod '" + podName + "' has more than one container named '" + container + "'"
  }

  /**
   * The state of one watch event, as written: statuses are matched by
   * their name against the pod name (`s?.Name == podName`), not against
   * the container; `SingleOrDefault` raises for a second match, which is
   * rethrown with a message naming the container.
   */
  function SelectState(snapshot: Option<PodStatus>, podName: string, container: string): (r: Result<Option<ContainerState>, Error>)
    ensures snapshot.None? ==> r == Failure(NullReference)
    ensures snapshot.Some? && AllStatuses(snapshot.value).Failure? ==> r == Failure(AllStatuses(snapshot.value).error)
    ensures snapshot.Some? && AllStatuses(snapshot.value).Success? ==>
      var named := Named(AllStatuses(snapshot.value).value, podName);
      && (|named| > 1 <==> r.Failure?)
      && (|named| > 1 ==> r.error == InvalidOperation(MoreThanOneMessage(podName, container)))
      && (|named| == 0 ==> r == Success(None))
      && (|named| == 1 ==> r == Success(named[0].state))
  {
    if snapshot.None? then Failure(NullReference)
    else
      var statuses :- AllStatuses(snapshot.value);
      var named := Named(statuses, podName);
      if |named| > 1 then Failure(InvalidOperation(MoreThanOneMessage(podName, container)))
      else if |named| == 0 then Success(None)
      else Success(named[0].state)
  }

  /**
   * Selection by index: the state of the one status named after the pod, or
   * an InvalidOperationException when two statuses share that name.
   */
  lemma SelectStateByIndex(status: PodStatus, podName: string, container: string, k: int)
    requires AllStatuses(status).Success?
    ensures var xs := AllStatuses(status).value;
      (0 <= k < |xs| && xs[k].name == podName && forall i :: 0 <= i < |xs| && i != k ==> xs[i].name != podName) ==>
        SelectState(Some(status), podName, container) == Success(xs[k].state)
    ensures var xs := AllStatuses(status).value;
      (exists i, j :: 0 <= i < j < |xs| && xs[i].name == podName && xs[j].name == podName) ==>
        SelectState(Some(status), podName, container) == Failure(InvalidOperation(MoreThanOneMessage(podName, container)))
  {
    var xs := AllStatuses(status).value;
    if 0 <= k < |xs| && xs[k].name == podName && forall i :: 0 <= i < |xs| && i != k ==> xs[i].name != podName {
      NamedByIndex(xs, podName, k);
    }
    if exists i, j :: 0 <= i < j < |xs| && xs[i].name == podName && xs[j].name == podName {
      var i, j :| 0 <= i < j < |xs| && xs[i].name == podName && xs[j].name == podName;
      NamedTwice(xs, podName, i, j);
    }
  }

  /** As written, the container argument only shapes the error message: a selection that succeeds ignores it. */
  lemma ContainerOnlyNamesTheError(snapshot: Option<PodStatus>, podName: string, c1: string, c2: string)
    ensures SelectState(snapshot, podName, c1).Success? <==> SelectState(snapshot, podName, c2).Success?
    ensures SelectState(snapshot, podName, c1).Success? ==> SelectState(snapshot, podName, c1) == SelectState(snapshot, podName, c2)
  {
  }

  function TimeoutMessage(container: string, podName: string, reached: string): string
  {
    "Container '" + container + "' in pod '" + podName + "' did not reach " + reached + " state before timeout reached"
  }

  /** A snapshot the wait passes over: its selection succeeds without a state of the awaited kind. */
  predicate PassesOver<T>(snapshot: Option<PodStatus>, podName: string, container: string, pick: ContainerState -> Option<T>)
  {
    var sel := SelectState(snapshot, podName, container);
    sel.Success? && (sel.value.None? || pick(sel.value.value).None?)
  }

  /**
   * The outcome of waiting on `snapshots`: `pick` reads the awaited part of
   * a state (`state.Running`, `state.Terminated`), `reached` names it in
   * the timeout message. An empty stream times out; the only timeout a wait
   * reports is its own, naming the container, the pod and the state.
   */
  function Await<T>(snapshots: seq<Option<PodStatus>>, podName: string, container: string,
                    pick: ContainerState -> Option<T>, reached: string): (r: Result<T, Error>)
    ensures |snapshots| == 0 ==> r == Failure(Timeout(TimeoutMessage(container, podName, reached)))
    ensures r.Failure? && r.error.Timeout? ==> r.error == Timeout(TimeoutMessage(container, podName, reached))
  {
    if |snapshots| == 0 then Failure(Timeout(TimeoutMessage(container, podName, reached)))
    else
      assert forall i :: 1 <= i < |snapshots| ==> snapshots[1..][i - 1] == snapshots[i];
      match SelectState(snapshots[0], podName, container)
      case Failure(e) => Failure(e)
      case Success(None) => Await(snapshots[1..], podName, container, pick, reached)
      case Success(Some(state)) =>
        if pick(state).Some? then Success(pick(state).value) else Await(snapshots[1..], podName, container, pick, reached)
  }

  /**
   * One step of the wait: a snapshot passed over leaves the rest to decide;
   * any other ends it, either with a selection error, which is never a
   * timeout, or with the awaited part of its state.
   */
  lemma AwaitStep<T>(snapshots: seq<Option<PodStatus>>, podName: string, container: string,
                     pick: ContainerState -> Option<T>, reached: string)
    requires |snapshots| > 0
    ensures PassesOver(snapshots[0], podName, container, pick) ==>
      Await(snapshots, podName, container, pick, reached) == Await(snapshots[1..], podName, container, pick, reached)
    ensures !PassesOver(snapshots[0], podName, container, pick) && Await(snapshots, podName, container, pick, reached).Failure? ==>
      !Await(snapshots, podName, container, pick, reached).error.Timeout?
    ensures !PassesOver(snapshots[0], podName, container, pick) && Await(snapshots, podName, container, pick, reached).Success? ==>
      Picked(snapshots[0], podName, container, pick) == Some(Await(snapshots, podName, container, pick, reached).value)
  {
    var sel := SelectState(snapshots[0], podName, container);
    var r := Await(snapshots, podName, container, pick, reached);
    if sel.Failure? {
      assert r == Failure(sel.error);
    } else if sel.value.None? || pick(sel.value.value).None? {
      assert r == Await(snapshots[1..], podName, container, pick, reached);
    } else {
      assert r == Success(pick(sel.value.value).value);
    }
  }

  /** The awaited part of a snapshot's selected state, when the selection gives one that has it. */
  function Picked<T>(snapshot: Option<PodStatus>, podName: string, container: string, pick: ContainerState -> Option<T>): Option<T>
  {
    var sel := SelectState(snapshot, podName, container);
    if sel.Success? && sel.value.Some? then pick(sel.value.value) else None
  }

  /** Snapshot `k` gives `v` and every snapshot before it was passed over. */
  ghost predicate FoundFirstAt<T>(snapshots: seq<Option<PodStatus>>, podName: string, container: string,
                            pick: ContainerState -> Option<T>, k: int, v: T)
  {
    && 0 <= k < |snapshots|
    && (forall j :: 0 <= j < k ==> PassesOver(snapshots[j], podName, container, pick))
    && Picked(snapshots[k], podName, container, pick) == Some(v)
  }

  /**
   * A wait succeeds with the awaited part of the first state in stream
   * order that has one; every earlier snapshot was passed over.
   */
  lemma {:induction false} AwaitFindsFirst<T>(snapshots: seq<Option<PodStatus>>, podName: string, container: string,
                                              pick: ContainerState -> Option<T>, reached: string)
    ensures Await(snapshots, podName, container, pick, reached).Success? ==>
      exists k :: FoundFirstAt(snapshots, podName, container, pick, k, Await(snapshots, podName, container, pick, reached).value)
  {
    var r := Await(snapshots, podName, container, pick, reached);
    if |snapshots| > 0 && r.Success? {
      AwaitStep(snapshots, podName, container, pick, reached);
      if PassesOver(snapshots[0], podName, container, pick) {
        var rest := snapshots[1..];
        AwaitFindsFirst(rest, podName, container, pick, reached);
        var k :| FoundFirstAt(rest, podName, container, pick, k, r.value);
        assert forall j :: 1 <= j < k + 1 ==> snapshots[j] == rest[j - 1];
        assert snapshots[k + 1] == rest[k];
        assert FoundFirstAt(snapshots, podName, container, pick, k + 1, r.value);
      } else {
        assert FoundFirstAt(snapshots, podName, container, pick, 0, r.value);
      }
    }
  }

  /**
   * Conversely, when snapshot `k` is the first whose state has the awaited
   * part and every earlier one was passed over, the wait returns that part.
   */
  lemma {:induction false} AwaitReturnsFirst<T>(snapshots: seq<Option<PodStatus>>, podName: string, container: string,
                                                pick: ContainerState -> Option<T>, reached: string, k: int, v: T)
    requires FoundFirstAt(snapshots, podName, container, pick, k, v)
    ensures Await(snapshots, podName, container, pick, reached) == Success(v)
    decreases k
  {
    if k == 0 {
      var sel := SelectState(snapshots[0], podName, container);
      assert sel.Success? && sel.value.Some? && pick(sel.value.value) == Some(v);
    } else {
      var rest := snapshots[1..];
      assert FoundFirstAt(rest, podName, container, pick, k - 1, v) by {
        assert forall j :: 0 <= j < k - 1 ==> rest[j] == snapshots[j + 1];
        assert rest[k - 1] == snapshots[k];
      }
      AwaitReturnsFirst(rest, podName, container, pick, reached, k - 1, v);
      assert PassesOver(snapshots[0], podName, container, pick);
      AwaitStep(snapshots, podName, container, pick, reached);
    }
  }

  /**
   * A wait times out exactly when the stream ends with every snapshot passed
   * over; a selection error stops it with that error.
   */
  lemma {:induction false} AwaitTimesOut<T>(snapshots: seq<Option<PodStatus>>, podName: string, container: string,
                                            pick: ContainerState -> Option<T>, reached: string)
    ensures Await(snapshots, podName, container, pick, reached) == Failure(Timeout(TimeoutMessage(container, podName, reached)))
      <==> forall j :: 0 <= j < |snapshots| ==> PassesOver(snapshots[j], podName, container, pick)
  {
    if |snapshots| > 0 {
      var rest := snapshots[1..];
      AwaitStep(snapshots, podName, container, pick, reached);
      AwaitTimesOut(rest, podName, container, pick, reached);
      assert forall j :: 1 <= j < |snapshots| ==> snapshots[j] == rest[j - 1];
    }
  }

  /**
   * The loop of `WatchContainerStatesAsync` and the await that consumes it:
   * each snapshot's state is selected, states are skipped until one has the
   * awaited part, and the end of the stream raises TimeoutException.
   */
  method AwaitContainerState<T>(snapshots: seq<Option<PodStatus>>, podName: string, container: string,
                                pick: ContainerState -> Option<T>, reached: string)
    returns (r: Result<T, Error>)
    ensures r == Await(snapshots, podName, container, pick, reached)
  {
    var i := 0;
    while i < |snapshots|
      invariant 0 <= i <= |snapshots|
      invariant Await(snapshots, podName, container, pick, reached) == Await(snapshots[i..], podName, container, pick, reached)
    {
      var state := SelectState(snapshots[i], podName, container);
      if state.Failure? {
        return Failure(state.error);
      }
      if state.value.Some? {
        var picked := pick(state.value.value);
        if picked.Some? {
          return Success(picked.value);
        }
      }
      assert snapshots[i..][1..] == snapshots[i + 1..];
      i := i + 1;
    }
    return Failure(Timeout(TimeoutMessage(container, podName, reached)));
  }

  function Running(state: ContainerState): Option<ContainerStateRunning>
  {
    state.running
  }

  function Terminated(state: ContainerState): Option<ContainerStateTerminated>
  {
    state.terminated
  }

  /** AwaitContainerRunningStateAsync: the first running state, or TimeoutException. */
  method AwaitContainerRunningState(snapshots: seq<Option<PodStatus>>, podName: string, container: string)
    returns (r: Result<ContainerStateRunning, Error>)
    ensures r == Await(snapshots, podName, container, Running, "running")
  {
    r := AwaitContainerState(snapshots, podName, container, Running, "running");
  }

  /** AwaitContainerTerminatedStateAsync: the first terminated state, or TimeoutException. */
  method AwaitContainerTerminatedState(snapshots: seq<Option<PodStatus>>, podName: string, container: string)
    returns (r: Result<ContainerStateTerminated, Error>)
    ensures r == Await(snapshots, podName, container, Terminated, "terminated")
  {
    r := AwaitContainerState(snapshots, podName, container, Terminated, "terminated");
  }
}
