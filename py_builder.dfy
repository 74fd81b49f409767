/**
 * The build driver of the Python package (src/kaniko_remote/builder.py):
 * the pod lifecycle kept in `pod_name` and `stopped`, the docker config
 * `setup` writes, and the log forwarding of `build` that ends once the
 * builder is stopped.
 *
 * The Kubernetes wrapper is reduced to the deletions it is asked for; the
 * name the server gives the created pod, the tailed log lines and the
 * `stopped` flag as the log loop reads it after each line (another task
 * sets it) are inputs. `urlparse(...).hostname` is a parameter.
 *
 * As written, every step of the builder calls the imported `K8sSpecs` and
 * `K8sWrapper` by names or keywords those classes do not have; the calls
 * are modelled by name at the end of the module, and the class models what
 * the steps evidently intend.
 */
module PyBuilder {
  import opened Wrappers
  import opened K8sModels
  import opened DockerConfigs
  import opened Base64
  import opened Errors
  import PyAuthorisers

  class Builder {
    const k8s: PodClient
    const destination: string
    const acrToken: Option<string>
    var podName: Option<string>
    var stopped: bool

    /** `__init__`'s fields: no pod yet and not stopped. */
    constructor (k8s: PodClient, destination: string, acrToken: Option<string>)
      ensures this.k8s == k8s && this.destination == destination && this.acrToken == acrToken
      ensures podName == None && !stopped
    {
      this.k8s := k8s;
      this.destination := destination;
      this.acrToken := acrToken;
      podName := None;
      stopped := false;
    }

    /** `_create`: `pod_name` becomes the created pod's name. */
    method Create(createdName: Option<string>)
      modifies this`podName
      ensures podName == createdName
    {
      podName := createdName;
    }

    /** `_destroy`: the pod is deleted exactly when `pod_name` is truthy; the builder is stopped either way. */
    method Destroy()
      modifies this`stopped, k8s`deletedPods
      ensures stopped
      ensures k8s.deletedPods == old(k8s.deletedPods) + if TruthyString(podName) then [podName.value] else []
    {
      if TruthyString(podName) {
        k8s.DeletePod(podName.value);
      }
      stopped := true;
    }

    /** `__enter__`: create the pod and hand back the builder itself. */
    method Enter(createdName: Option<string>) returns (r: Builder)
      modifies this`podName
      ensures r == this && podName == createdName
    {
      Create(createdName);
      r := this;
    }

    /** `__exit__`: always destroys and returns False, so an exception in the block propagates. */
    method Exit() returns (suppress: bool)
      modifies this`stopped, k8s`deletedPods
      ensures !suppress && stopped
      ensures k8s.deletedPods == old(k8s.deletedPods) + if TruthyString(podName) then [podName.value] else []
    {
      Destroy();
      suppress := false;
    }

    /** The docker config `setup` uploads for this builder's destination. */
    function SetupDockerConfig(hostname: string -> string): DockerConfig
      reads this
    {
      DockerConfigFor(hostname("http://" + destination), acrToken)
    }
  }

  /**
   * `setup`'s docker config: the `acr-env` helper for the registry, replaced
   * by an `auths` entry holding the token when a token is set.
   */
  function DockerConfigFor(host: string, acrToken: Option<string>): (c: DockerConfig)
    ensures !TruthyString(acrToken) ==> c == DockerConfig(None, Some(map[host := PyAuthorisers.CredHelper]))
    ensures TruthyString(acrToken) ==> c.credHelpers.None? && c.auths == Some(map[host := PyAuthorisers.TokenAuth(acrToken.value)])
  {
    var dockerConfig := DockerConfig(None, Some(map[host := PyAuthorisers.CredHelper]));
    if TruthyString(acrToken) then DockerConfig(Some(map[host := PyAuthorisers.TokenAuth(acrToken.value)]), None)
    else dockerConfig
  }

  /**
   * The config names the registry exactly once, under one of the two keys,
   * and with a token its `auth` decodes to the token user, a colon and the token.
   */
  lemma DockerConfigForShape(host: string, acrToken: Option<string>)
    ensures var c := DockerConfigFor(host, acrToken);
      && (c.auths.Some? <==> c.credHelpers.None?)
      && (c.auths.Some? ==> c.auths.value.Keys == {host})
      && (c.credHelpers.Some? ==> c.credHelpers.value.Keys == {host} && c.credHelpers.value[host] == "acr-env")
      && (TruthyString(acrToken) ==> Decode(c.auths.value[host].auth) == Some(Utf8Bytes(PyAuthorisers.TokenUser + ":" + acrToken.value)))
  {
    if TruthyString(acrToken) {
      PyAuthorisers.TokenAuthDecodes(acrToken.value);
    }
  }

  /**
   * The lines `build` forwards: every tailed line up to and including the
   * first one after which the builder is seen stopped. `stoppedAfter[i]` is
   * the flag as read after forwarding line `i`.
   */
  function Forwarded(lines: seq<string>, stoppedAfter: seq<bool>): (r: seq<string>)
    requires |stoppedAfter| == |lines|
    ensures |r| <= |lines|
  {
    if |lines| == 0 then []
    else if stoppedAfter[0] then [lines[0]]
    else [lines[0]] + Forwarded(lines[1..], stoppedAfter[1..])
  }

  /**
   * The forwarded lines are a prefix of the log, in order; the log is cut
   * right after the first line read with the builder stopped, so it runs to
   * its end exactly when no earlier line saw the builder stopped.
   */
  lemma {:induction false} ForwardedIsPrefix(lines: seq<string>, stoppedAfter: seq<bool>)
    requires |stoppedAfter| == |lines|
    ensures var f := Forwarded(lines, stoppedAfter);
      && f == lines[..|f|]
      && (f == lines <==> forall i :: 0 <= i < |lines| - 1 ==> !stoppedAfter[i])
      && (forall i :: 0 <= i < |f| - 1 ==> !stoppedAfter[i])
      && (|f| < |lines| ==> |f| > 0 && stoppedAfter[|f| - 1])
  {
    if |lines| > 0 && !stoppedAfter[0] {
      ForwardedIsPrefix(lines[1..], stoppedAfter[1..]);
      assert forall i :: 1 <= i < |lines| ==> stoppedAfter[i] == stoppedAfter[1..][i - 1];
    }
  }

  /** `build`'s `async for` loop over the tailed lines, proved against `Forwarded`. */
  method Build(lines: seq<string>, stoppedAfter: seq<bool>) returns (forwarded: seq<string>)
    requires |stoppedAfter| == |lines|
    ensures forwarded == Forwarded(lines, stoppedAfter)
  {
    forwarded := [];
    var i := 0;
    while i < |lines|
      invariant 0 <= i <= |lines|
      invariant forwarded + Forwarded(lines[i..], stoppedAfter[i..]) == Forwarded(lines, stoppedAfter)
    {
      forwarded := forwarded + [lines[i]];
      if stoppedAfter[i] {
        return;
      }
      assert lines[i..][1..] == lines[i + 1..] && stoppedAfter[i..][1..] == stoppedAfter[i + 1..];
      i := i + 1;
    }
  }

  /** A method's parameter names, and whether it also takes any other keyword (`**kwargs`). */
  datatype Params = Params(names: seq<string>, anyKeyword: bool)

  /**
   * A class as Python sees it when a method is looked up and called with
   * keyword arguments: each method name with its parameters.
   */
  type Methods = map<string, Params>

  /** The class methods of `K8sSpecs` in src/kaniko_remote/k8s/specs.py. */
  const SpecsMethods: Methods := map[
    "generate_pod_spec" := Params(["instance_id", "use_debug_image", "cpu", "memory", "additional_labels", "additional_annotations"], false),
    "mount_context_for_exec_transfer" := Params(["pod"], false),
    "add_kaniko_args" := Params(["pod"], true),
    "replace_service_account" := Params(["pod", "service_account_name"], false),
    "append_env_from_secret" := Params(["pod", "secret_name"], false),
    "append_file_mount_from_secret" := Params(["pod", "secret_name"], false)]

  /** The methods of `K8sWrapper` in src/kaniko_remote/k8s/k8s.py that a builder could call. */
  const WrapperMethods: Methods := map[
    "create_pod" := Params(["body"], false),
    "read_pod" := Params(["pod_name"], false),
    "delete_pod" := Params(["pod_name"], false),
    "wait_for_container_running_state" := Params(["pod_name", "container", "timeout_seconds"], false),
    "wait_for_container_terminated_state" := Params(["pod_name", "container", "timeout_seconds"], false),
    "tail_container" := Params(["pod_name", "container"], false),
    "upload_local_dir_to_container" := Params(["pod_name", "container", "local_files", "remote_path", "relative_local_root",
                                               "packet_size", "progress_bar_description"], false)]

  /** The first keyword that names no parameter, if any. */
  function UnknownKeyword(kwargs: seq<string>, params: seq<string>): (r: Option<string>)
    ensures r.None? <==> forall k :: k in kwargs ==> k in params
    ensures r.Some? ==> r.value in kwargs && r.value !in params
  {
    if |kwargs| == 0 then None
    else if kwargs[0] !in params then Some(kwargs[0])
    else
      assert forall k :: k in kwargs ==> k == kwargs[0] || k in kwargs[1..];
      UnknownKeyword(kwargs[1..], params)
  }

  /**
   * `cls.name(**kwargs)`: `AttributeError` when the class has no such
   * method, `TypeError` naming a keyword the method does not take, unless it
   * takes `**kwargs`. Missing required arguments are not checked.
   */
  function Call(methods: Methods, name: string, kwargs: seq<string>): (r: Result<(), Error>)
    ensures r.Success? <==> name in methods && (methods[name].anyKeyword || forall k :: k in kwargs ==> k in methods[name].names)
    ensures name !in methods ==> r == Failure(AttributeError(name))
    ensures name in methods && r.Failure? ==> exists k :: k in kwargs && k !in methods[name].names && r == Failure(TypeError(k))
  {
    if name !in methods then Failure(AttributeError(name))
    else if methods[name].anyKeyword then Success(())
    else
      var unknown := UnknownKeyword(kwargs, methods[name].names);
      if unknown.Some? then Failure(TypeError(unknown.value)) else Success(())
  }

  /** `__init__` as written: the kaniko arguments, the pod spec and, with a secret, its env. */
  function InitAsWritten(envFromSecret: bool): Result<(), Error>
  {
    var _ :- Call(SpecsMethods, "build_kaniko_args", ["context", "destination", "dockerfile"]);
    var _ :- Call(SpecsMethods, "generate_pod_spec", ["instance_id", "kaniko_args", "use_debug_image", "service_account_name"]);
    if envFromSecret then Call(SpecsMethods, "add_env_from_secret", []) else Success(())
  }

  /** `setup` as written: wait for the setup container, then the two uploads. */
  function SetupAsWritten(): Result<(), Error>
  {
    var _ :- Call(WrapperMethods, "wait_for_container", ["pod", "container"]);
    var _ :- Call(WrapperMethods, "upload_local_dir_to_container",
                  ["pod", "container", "local_path", "remote_path", "progress_bar_description"]);
    Call(WrapperMethods, "upload_local_dir_to_container", ["pod", "container", "local_path", "remote_path"])
  }

  /** `build` as written: wait for the builder container, then tail it. */
  function BuildAsWritten(): Result<(), Error>
  {
    var _ :- Call(WrapperMethods, "wait_for_container", ["pod", "container", "timeout"]);
    Call(WrapperMethods, "tail_container", ["pod", "container"])
  }

  /**
   * No builder can be made as written: `K8sSpecs` has no
   * `build_kaniko_args`, with or without a secret for the environment; and
   * had it one, `generate_pod_spec` takes no `kaniko_args`, and there is no
   * `add_env_from_secret` either.
   */
  lemma InitRaisesAsWritten(envFromSecret: bool)
    ensures InitAsWritten(envFromSecret) == Failure(AttributeError("build_kaniko_args"))
    ensures Call(SpecsMethods, "generate_pod_spec", ["instance_id", "kaniko_args", "use_debug_image", "service_account_name"]).Failure?
    ensures Call(SpecsMethods, "add_env_from_secret", []) == Failure(AttributeError("add_env_from_secret"))
  {
    assert "build_kaniko_args" !in SpecsMethods;
    assert "kaniko_args" !in SpecsMethods["generate_pod_spec"].names;
    assert "add_env_from_secret" !in SpecsMethods;
  }

  /**
   * `setup` and `build` raise as written before sending anything or
   * forwarding any line: `K8sWrapper` has no `wait_for_container`, and
   * `upload_local_dir_to_container` and `tail_container` take `pod_name`,
   * not `pod`.
   */
  lemma StepsRaiseAsWritten()
    ensures SetupAsWritten() == Failure(AttributeError("wait_for_container"))
    ensures BuildAsWritten() == Failure(AttributeError("wait_for_container"))
    ensures Call(WrapperMethods, "upload_local_dir_to_container", ["pod", "container", "local_path", "remote_path"]) == Failure(TypeError("pod"))
    ensures Call(WrapperMethods, "tail_container", ["pod", "container"]) == Failure(TypeError("pod"))
  {
    assert "wait_for_container" !in WrapperMethods;
    assert "pod" !in WrapperMethods["upload_local_dir_to_container"].names;
    assert "pod" !in WrapperMethods["tail_container"].names;
  }
}
