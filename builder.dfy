/**
 * The C# build driver (src/Builder/Builder.cs): composing the pod spec, the
 * kaniko arguments and the docker config from the configuration and the
 * authorisers; the pod name the API server assigns; disposal; the outcome
 * of a build; and the `.dockerignore` filter for a local context.
 *
 * The Kubernetes client is reduced to what the builder observes: the name
 * the server gives the created pod, which of the two watches won the race,
 * the terminated state the final watch reports, and the deletions it asks
 * for. URI parsing, `Path.Combine` and `File.Exists` are parameters.
 */
module Builder {
  import opened Wrappers
  import opened Errors
  import opened K8sModels
  import opened DockerConfigs
  import opened KanikoFlags
  import opened AuthVariants
  import Specs

  /** `BuilderConfiguration`, the `builder` section. */
  datatype BuilderConfiguration = BuilderConfiguration(
    name: string,
    cpu: string,
    memory: string,
    kanikoImage: string,
    setupImage: string,
    additionalLabels: map<string, string>,
    additionalAnnotations: map<string, string>,
    additionalKanikoArgs: seq<string>,
    podStartTimeout: int,
    podTransferPacketSize: int,
    keepPod: string)

  /** `new BuilderConfiguration()`; the name defaults to the user running the program. */
  function DefaultBuilderConfiguration(userName: string): BuilderConfiguration
  {
    BuilderConfiguration(userName, "1", "1G", "gcr.io/kaniko-project/executor:latest", "busybox:stable",
                         map[], map[], ["--use-new-run"], 5 * 60, 14000, "false")
  }

  const DigestFile := "/dev/termination-log"
  const DefaultDockerfile := "Dockerfile"
  const PodNameMessage := "Cannot get pod name before Pod is initialised"
  const ParseContextMessage := "Unable to parse context location"
  const StartFailedMessage := "Kaniko failed to start, see above logs for more information"
  const BuildFailedMessage := "Kaniko failed to build and/or push image, increase verbosity if kaniko logs are not visible above"

  /**
   * GenerateKanikoArgumentList: the settings dictionary `digest-file`,
   * `dockerfile`, `context` (null values dropped) as `--key=value`, then the
   * destinations, then the remaining arguments. Flag by flag: the digest
   * file first, `--dockerfile` and `--context` only when given and in that
   * order, one `--destination` per tag in order, and the passthrough
   * arguments unchanged at the end.
   */
  function GenerateKanikoArgumentList(dockerfile: Option<string>, destinationTags: seq<string>,
                                      parsedKanikoArgs: seq<string>, remoteContext: Option<string>): (r: seq<string>)
    ensures var h := 1 + Count(dockerfile) + Count(remoteContext);
      && |r| == h + |destinationTags| + |parsedKanikoArgs|
      && r[0] == Flag("digest-file", DigestFile)
      && (dockerfile.Some? ==> r[1] == Flag("dockerfile", dockerfile.value))
      && (remoteContext.Some? ==> r[h - 1] == Flag("context", remoteContext.value))
      && (forall i :: 0 <= i < |destinationTags| ==> r[h + i] == Flag("destination", destinationTags[i]))
      && r[h + |destinationTags|..] == parsedKanikoArgs
  {
    var flags := SettingsFlags(dockerfile, remoteContext);
    SettingsLayout(dockerfile, remoteContext);
    var dests := FlagEach("destination", destinationTags);
    var h := 1 + Count(dockerfile) + Count(remoteContext);
    var r := flags + dests + parsedKanikoArgs;
    assert |flags| == h && |dests| == |destinationTags|;
    assert forall i :: 0 <= i < h ==> r[i] == flags[i];
    assert r[h..h + |dests|] == dests;
    FlagEachAt(r, h, "destination", destinationTags);
    assert r[h + |dests|..] == parsedKanikoArgs;
    r
  }

  /** The settings dictionary of the argument list, as flags. */
  function SettingsFlags(dockerfile: Option<string>, remoteContext: Option<string>): seq<string>
  {
    Flags([("digest-file", Some(DigestFile)), ("dockerfile", dockerfile), ("context", remoteContext)])
  }

  function Count(o: Option<string>): nat
  {
    if o.Some? then 1 else 0
  }

  /** The settings part: the digest file, then `--dockerfile` and `--context` when given. */
  lemma SettingsLayout(dockerfile: Option<string>, remoteContext: Option<string>)
    ensures var f := SettingsFlags(dockerfile, remoteContext);
      && |f| == 1 + Count(dockerfile) + Count(remoteContext)
      && f[0] == Flag("digest-file", DigestFile)
      && (dockerfile.Some? ==> f[1] == Flag("dockerfile", dockerfile.value))
      && (remoteContext.Some? ==> f[|f| - 1] == Flag("context", remoteContext.value))
  {
    var settings := [("digest-file", Some(DigestFile)), ("dockerfile", dockerfile), ("context", remoteContext)];
    assert settings[1..][1..][1..] == [];
    var last := Flags(settings[1..][1..]);
    assert last == SettingFlag(settings[2]);
    var rest := Flags(settings[1..]);
    assert rest == SettingFlag(settings[1]) + last;
    assert Flags(settings) == [Flag("digest-file", DigestFile)] + rest;
  }

  /**
   * ParseIsLocalContext: `tryCreateUri` stands for `Uri.TryCreate`, giving
   * whether the URI is absolute, or None when it does not parse. A relative
   * URI is a local directory.
   */
  function ParseIsLocalContext(contextLocation: string, tryCreateUri: string -> Option<bool>): (r: Result<bool, Error>)
    ensures r.Failure? <==> tryCreateUri(contextLocation).None?
    ensures r.Failure? ==> r.error == ArgumentOutOfRange(ParseContextMessage)
    ensures r.Success? ==> (r.value <==> !tryCreateUri(contextLocation).value)
  {
    match tryCreateUri(contextLocation)
    case None => Failure(ArgumentOutOfRange(ParseContextMessage))
    case Some(isAbsolute) => Success(!isAbsolute)
  }

  /** The pod state the authorisers start from: the config volume, plus the context volume for a local context. */
  function InitialAuthState(isLocal: bool): AuthState
  {
    var configVolume := Volume(Specs.ConfigVolumeName, EmptyDir);
    var configMount := VolumeMount(Specs.ConfigVolumeName, Specs.ConfigMountPath, false);
    if isLocal then
      AuthState(None, false, [configVolume, Volume(Specs.ContextVolumeName, EmptyDir)], None, None,
                [configMount, VolumeMount(Specs.ContextVolumeName, Specs.ContextMountPath, false)])
    else AuthState(None, false, [configVolume], None, None, [configMount])
  }

  /** The URLs matched against the authorisers: the destinations, and a remote context. */
  function UrlsToAuth(destinationTags: seq<string>, contextLocation: string, isLocal: bool): seq<string>
  {
    destinationTags + if isLocal then [] else [contextLocation]
  }

  /** The authorisers counted in the log line: always-mount ones and those whose URL is one of `urls`. */
  function MatchingAuthorisers(auths: seq<Auth>, urls: seq<string>): (r: seq<Auth>)
    ensures |r| <= |auths|
    ensures forall a :: a in r <==> a in auths && (Base(a).AlwaysMount() || Base(a).urlToMatch.value in urls)
  {
    if |auths| == 0 then []
    else
      var a := auths[|auths| - 1];
      var rest := MatchingAuthorisers(auths[..|auths| - 1], urls);
      assert forall x :: x in auths <==> x in auths[..|auths| - 1] || x == a;
      if Base(a).AlwaysMount() || Base(a).urlToMatch.value in urls then rest + [a] else rest
  }

  /**
   * The builder's own state: the pod (replaced by the server's copy once
   * created), the local context directory, the docker config document and
   * the settings it reads later.
   */
  class Builder {
    const client: PodClient
    var pod: Pod
    const localContext: Option<string>
    const dockerConfig: DockerConfigDocument
    const podStartTimeout: int
    const podTransferPacketSize: int
    const keepPod: bool

    constructor (client: PodClient, pod: Pod, localContext: Option<string>, dockerConfig: DockerConfigDocument,
                 config: BuilderConfiguration)
      ensures this.client == client && this.pod == pod && this.localContext == localContext
      ensures this.dockerConfig == dockerConfig
      ensures podStartTimeout == config.podStartTimeout && podTransferPacketSize == config.podTransferPacketSize
      ensures keepPod == (config.keepPod == "true")
    {
      this.client := client;
      this.pod := pod;
      this.localContext := localContext;
      this.dockerConfig := dockerConfig;
      this.podStartTimeout := config.podStartTimeout;
      this.podTransferPacketSize := config.podTransferPacketSize;
      this.keepPod := config.keepPod == "true";
    }

    /** The pod has a name only once the API server has created it. */
    predicate PodExistsInKubeApi()
      reads this, pod
    {
      pod.metadata.name.Some? && pod.metadata.name.value != ""
    }

    /** `podNameInKube`: the server-assigned name, or InvalidOperationException before creation. */
    function PodNameInKube(): (r: Result<string, Error>)
      reads this, pod
      ensures r.Success? <==> PodExistsInKubeApi()
      ensures r.Success? ==> pod.metadata.name == Some(r.value) && r.value != ""
      ensures r.Failure? ==> r.error == InvalidOperation(PodNameMessage)
    {
      if !PodExistsInKubeApi() then Failure(InvalidOperation(PodNameMessage)) else Success(pod.metadata.name.value)
    }

    /** `builderName`: `namespace/pod`. */
    function BuilderName(): (r: Result<string, Error>)
      reads this, pod
      ensures r.Success? <==> PodExistsInKubeApi()
      ensures r.Success? ==> r.value == client.namespace + "/" + pod.metadata.name.value
    {
      var name :- PodNameInKube();
      Success(client.namespace + "/" + name)
    }

    /**
     * Initialise: the pod is created and the server's copy, named
     * `createdName`, replaces the local one; its name is returned.
     */
    method Initialise(createdName: Option<string>) returns (r: Result<string, Error>)
      modifies pod`metadata
      ensures pod == old(pod) && pod.metadata == old(pod.metadata).(name := createdName)
      ensures r == PodNameInKube()
    {
      pod.metadata := pod.metadata.(name := createdName);
      r := PodNameInKube();
    }

    /**
     * DisposeAsync: the pod is deleted exactly when it exists in the cluster
     * and `keepPod` is off; otherwise nothing is asked of the cluster.
     */
    method DisposeAsync()
      modifies client`deletedPods
      ensures client.deletedPods ==
        old(client.deletedPods) + if PodExistsInKubeApi() && !keepPod then [pod.metadata.name.value] else []
    {
      if PodExistsInKubeApi() {
        if !keepPod {
          var name := PodNameInKube();
          client.DeletePod(name.value);
        }
      }
    }

    /**
     * The outcome of Build. `race` is the watch that completed first; when
     * the termination watch won, the start failure carries its state.
     * Otherwise the exit code of the `finished` state decides: 0 returns the
     * termination message (the digest kaniko writes), anything else raises.
     */
    function Build(race: RaceWinner, finished: Result<ContainerStateTerminated, Error>): (r: Result<Option<string>, Error>)
      reads this, pod
      ensures r.Success? <==>
        PodExistsInKubeApi() && race.StartedFirst? && finished.Success? && finished.value.exitCode == 0
      ensures r.Success? ==> r.value == finished.value.message
      ensures !PodExistsInKubeApi() ==> r == Failure(InvalidOperation(PodNameMessage))
      ensures PodExistsInKubeApi() && race.TerminatedFirst? && race.failed.Success? ==>
        r == Failure(KanikoRuntime(StartFailedMessage, Some(race.failed.value)))
      ensures PodExistsInKubeApi() && race.StartedFirst? && finished.Success? && finished.value.exitCode != 0 ==>
        r == Failure(KanikoRuntime(BuildFailedMessage, None))
    {
      var _ :- PodNameInKube();
      if race.TerminatedFirst? then
        var state :- race.failed;
        Failure(KanikoRuntime(StartFailedMessage, Some(state)))
      else
        var state :- finished;
        if state.exitCode == 0 then Success(state.message) else Failure(KanikoRuntime(BuildFailedMessage, None))
    }
  }

  /** Which awaited watch finished first (`Task.WhenAny`); a started watch that failed is not looked at. */
  datatype RaceWinner = StartedFirst | TerminatedFirst(failed: Result<ContainerStateTerminated, Error>)

  /** The dockerfile checked for a local context: `Path.Combine(context, dockerfile ?? "Dockerfile")`. */
  function LocalDockerfile(contextLocation: string, dockerfile: Option<string>, combine: (string, string) -> string): string
  {
    combine(contextLocation, dockerfile.GetOr(DefaultDockerfile))
  }

  /** The pieces the constructor takes from its caller. */
  datatype BuildRequest = BuildRequest(
    contextLocation: string,
    dockerfile: Option<string>,
    destinationTags: seq<string>,
    authorisers: seq<Auth>,
    kanikoPassthroughArgs: seq<string>)

  /** The foreign calls the constructor makes. */
  datatype Host = Host(
    tryCreateUri: string -> Option<bool>,
    combine: (string, string) -> string,
    fileExists: string -> bool)

  /** Whether the constructor raises, and with what. */
  function ConstructionError(req: BuildRequest, config: BuilderConfiguration, host: Host): Option<Error>
  {
    match ParseIsLocalContext(req.contextLocation, host.tryCreateUri)
    case Failure(e) => Some(e)
    case Success(isLocal) =>
      var path := LocalDockerfile(req.contextLocation, req.dockerfile, host.combine);
      if isLocal && !host.fileExists(path) then Some(LocalContext("Could not find dockerfile " + path)) else None
  }

  /** The kaniko arguments the constructor sets on the builder container. */
  function KanikoArgs(req: BuildRequest, config: BuilderConfiguration, isLocal: bool): seq<string>
  {
    GenerateKanikoArgumentList(req.dockerfile, req.destinationTags,
                               req.kanikoPassthroughArgs + config.additionalKanikoArgs,
                               if isLocal then None else Some(req.contextLocation))
  }

  /** The pod spec and the kaniko arguments, before any authoriser. */
  method PrepareBuilderPod(req: BuildRequest, config: BuilderConfiguration, isLocal: bool) returns (pod: Pod)
    ensures fresh(pod) && fresh(pod.spec) && |pod.spec.containers| == 1 && fresh(pod.spec.containers[0])
    ensures fresh(pod.spec.containers[0].volumeMounts)
    ensures pod.metadata.name == None
    ensures AuthStateOf(pod) == InitialAuthState(isLocal)
    ensures pod.spec.containers[0].command == None
    ensures pod.spec.containers[0].args == Some(KanikoArgs(req, config, isLocal))
  {
    pod := Specs.GeneratePodSpec(config.name, config.cpu, config.memory, config.kanikoImage, config.setupImage,
                                 config.additionalLabels, config.additionalAnnotations);
    if isLocal {
      pod := Specs.MountContextForExecTransfer(pod);
    }
    pod := Specs.SetKanikoArgs(pod, KanikoArgs(req, config, isLocal));
  }

  /**
   * The constructor. It raises for an unparsable context location or a
   * local context without its dockerfile; otherwise every authoriser, in
   * list order and whether or not it matches a URL, is folded into a fresh
   * docker config and into the pod.
   */
  method NewBuilder(client: PodClient, req: BuildRequest, config: BuilderConfiguration, host: Host)
    returns (r: Result<Builder, Error>)
    ensures ConstructionError(req, config, host).Some? <==> r.Failure?
    ensures r.Failure? ==> r.error == ConstructionError(req, config, host).value
    ensures r.Success? ==>
      var b := r.value;
      var isLocal := ParseIsLocalContext(req.contextLocation, host.tryCreateUri).value;
      && fresh(b) && fresh(b.pod) && fresh(b.dockerConfig) && b.client == client
      && b.localContext == (if isLocal then Some(req.contextLocation) else None)
      && b.keepPod == (config.keepPod == "true")
      && b.pod.metadata.name == None
      && |b.pod.spec.containers| == 1
      && b.pod.spec.containers[0].args == Some(KanikoArgs(req, config, isLocal))
      && b.dockerConfig.Value() == ConfigAfter(req.authorisers, EmptyDockerConfig)
      && AuthStateOf(b.pod) == Apply(InitialAuthState(isLocal), PatchOf(req.authorisers))
  {
    var isLocal :- ParseIsLocalContext(req.contextLocation, host.tryCreateUri);
    var localContext: Option<string> := None;
    if isLocal {
      localContext := Some(req.contextLocation);
      var localDockerfile := LocalDockerfile(req.contextLocation, req.dockerfile, host.combine);
      if !host.fileExists(localDockerfile) {
        return Failure(LocalContext("Could not find dockerfile " + localDockerfile));
      }
    }
    var pod := PrepareBuilderPod(req, config, isLocal);
    var doc := new DockerConfigDocument();
    AddAuthorisers(req.authorisers, doc, pod);
    var b := new Builder(client, pod, localContext, doc, config);
    return Success(b);
  }

  /**
   * The constructor's loop over the authorisers: each one, in list order,
   * adds to the docker config and to the pod.
   */
  method AddAuthorisers(auths: seq<Auth>, doc: DockerConfigDocument, pod: Pod)
    requires |pod.spec.containers| > 0
    modifies doc, pod.spec`serviceAccountName, pod.spec`automountServiceAccountToken, pod.spec`volumes
    modifies FirstContainer(pod)`env, FirstContainer(pod)`envFrom, FirstContainer(pod).volumeMounts
    ensures doc.Value() == ConfigAfter(auths, old(doc.Value()))
    ensures AuthStateOf(pod) == Apply(old(AuthStateOf(pod)), PatchOf(auths))
  {
    ghost var c0, s0 := doc.Value(), AuthStateOf(pod);
    ApplyNoPatch(s0);
    for i := 0 to |auths|
      invariant doc.Value() == ConfigAfter(auths[..i], c0)
      invariant AuthStateOf(pod) == Apply(s0, PatchOf(auths[..i]))
    {
      AppendAuthToDockerConfig(auths[i], doc);
      var _ := AppendAuthToPod(auths[i], pod);
      assert auths[..i + 1][..i] == auths[..i];
      ApplyThen(s0, PatchOf(auths[..i]), Patch(auths[i]));
    }
    assert auths[..|auths|] == auths;
  }

  /** The lines of a `.dockerignore` that become exclusions: every line not starting with `#`. */
  function Exclusions(lines: seq<string>): (r: seq<string>)
    ensures |r| <= |lines|
    ensures forall l :: l in r <==> l in lines && !("#" <= l)
  {
    if |lines| == 0 then []
    else
      var init := lines[..|lines| - 1];
      var last := lines[|lines| - 1];
      assert forall l :: l in lines <==> l in init || l == last;
      Exclusions(init) + if "#" <= last then [] else [last]
  }

  /** The file matcher for a local context: include everything, then exclude each pattern. */
  datatype ContextMatcher = ContextMatcher(includes: seq<string>, excludes: seq<string>)

  /**
   * transferLocalBuildContext's `.dockerignore` loop: `dockerIgnore` is the
   * file's lines when it exists.
   */
  method ContextMatcherFor(dockerIgnore: Option<seq<string>>) returns (m: ContextMatcher)
    ensures m.includes == ["**"]
    ensures m.excludes == if dockerIgnore.Some? then Exclusions(dockerIgnore.value) else []
  {
    m := ContextMatcher(["**"], []);
    if dockerIgnore.Some? {
      var lines := dockerIgnore.value;
      var i := 0;
      while i < |lines|
        invariant 0 <= i <= |lines|
        invariant m == ContextMatcher(["**"], Exclusions(lines[..i]))
      {
        var ignorePattern := lines[i];
        if !("#" <= ignorePattern) {
          m := m.(excludes := m.excludes + [ignorePattern]);
        }
        i := i + 1;
        assert lines[..i][..i - 1] == lines[..i - 1];
      }
      assert lines[..|lines|] == lines;
    }
  }
}
