/**
 * The configuration loader of the C# port (src/Config/Config.cs): where the
 * YAML file is looked for, how the `kubernetes`, `builder` and `tags`
 * sections are taken out of the root object and checked, how the `auth`
 * list becomes authorisers, and the rejection of any other top-level key.
 *
 * The environment, the file system, YAML loading, the JSON deserialiser of
 * each section record and the URI helpers the authorisers use are fields
 * of `Host`.
 */
module ConfigLoader {
  import opened Wrappers
  import opened Json
  import opened Errors
  import opened AuthVariants
  import opened DockerConfigs
  import Authoriser
  import Builder
  import Tagger
  import PodOnly
  import ACR
  import GCR
  import DockerHub

  const ConfigLocationEnvVar := "KANIKO_REMOTE_CONFIG"
  const ConfigFileName := ".kaniko-remote.yaml"
  const NonEmptyOptionsMessage := "'auth' must be an array of non empty options"
  const TopLevelMessage := "Allowed top level options are 'kubernetes', 'builder', 'tags' and 'auth'"
  const TopLevelKeys := {"kubernetes", "builder", "tags", "auth"}

  /** `KubernetesConfiguration`, the `kubernetes` section; the namespace defaults to "default". */
  datatype KubernetesConfiguration = KubernetesConfiguration(kubeconfig: Option<string>, context: Option<string>, namespace: string)

  const DefaultKubernetesConfiguration := KubernetesConfiguration(None, None, "default")

  /** `new TaggerConfiguration()`: nothing set and no regexes. */
  const DefaultTaggerConfiguration := Tagger.TaggerConfiguration(None, None, None, [])

  /** The loaded `Config` record. */
  datatype Config = Config(
    kubernetes: KubernetesConfiguration,
    builder: Builder.BuilderConfiguration,
    tagger: Tagger.TaggerConfiguration,
    authorisers: seq<Auth>)

  /**
   * What the JSON deserialiser makes of a section that is not null: null, or
   * a record and whether it collected properties the record does not declare.
   */
  datatype Deserialised<T> = Deserialised(value: T, hasExtraJson: bool)

  type Deserialiser<T> = Json -> Result<Option<Deserialised<T>>, Error>

  /** The world the loader reads. */
  datatype Host = Host(
    /** `KANIKO_REMOTE_CONFIG`, when set. */
    environmentVariable: Option<string>,
    currentDirectory: string,
    userProfile: string,
    combine: (string, string) -> string,
    fileExists: string -> bool,
    /** `LoadYamlFileAsJsonObject`, including its own errors. */
    loadYaml: string -> Result<Dict<Json>, Error>,
    /** The user name `new BuilderConfiguration()` starts from. */
    userName: string,
    deserialiseKubernetes: Deserialiser<KubernetesConfiguration>,
    deserialiseBuilder: Deserialiser<Builder.BuilderConfiguration>,
    deserialiseTagger: Deserialiser<Tagger.TaggerConfiguration>,
    /** `new UriBuilder(url).Host`, used by the ACR authoriser. */
    uriHost: string -> string,
    /** `new UriBuilder(url).Path`, used by the GCR authoriser. */
    uriPath: string -> string)

  /**
   * The file `LoadConfig` reads. A set environment variable decides alone:
   * its file if it exists, otherwise none at all. Without it the file in the
   * working directory wins over the one in the user's home. Whatever is
   * chosen exists.
   */
  function ConfigLocation(envVarLocation: Option<string>, cwdLocation: string, userLocation: string,
                          fileExists: string -> bool): (r: Option<string>)
    ensures r.Some? ==> fileExists(r.value)
    ensures envVarLocation.Some? ==> r.None? || r == envVarLocation
    ensures envVarLocation.Some? && fileExists(envVarLocation.value) ==> r == envVarLocation
    ensures envVarLocation.None? ==> (r.None? <==> !fileExists(cwdLocation) && !fileExists(userLocation))
    ensures envVarLocation.None? && fileExists(cwdLocation) ==> r == Some(cwdLocation)
    ensures envVarLocation.None? && r.Some? ==> r.value in {cwdLocation, userLocation}
  {
    if envVarLocation.Some? then
      if fileExists(envVarLocation.value) then envVarLocation else None
    else if fileExists(cwdLocation) then Some(cwdLocation)
    else if fileExists(userLocation) then Some(userLocation)
    else None
  }

  /** The root object: the loaded file, or an empty object when there is none. */
  function RootFields(host: Host): Result<Dict<Json>, Error>
  {
    var location := ConfigLocation(host.environmentVariable,
                                   host.combine(host.currentDirectory, ConfigFileName),
                                   host.combine(host.userProfile, ConfigFileName),
                                   host.fileExists);
    if location.Some? then host.loadYaml(location.value) else Success([])
  }

  function EmptySectionMessage(name: string): string
  {
    "Empty configuration section '" + name + "'"
  }

  function UnknownPropertiesMessage(name: string): string
  {
    "Unknown properties in '" + name + "'"
  }

  /**
   * `ParseAndRemoveStaticConfigSection` on the root's fields: an absent
   * section gives the defaults, a null one (or one the deserialiser reads as
   * null) is an empty section, and a record with undeclared properties is
   * rejected with the section's JSON.
   */
  function Section<T>(fields: Dict<Json>, name: string, deserialise: Deserialiser<T>, default: T): (r: Result<T, Error>)
    ensures !HasKey(fields, name) ==> r == Success(default)
    ensures HasKey(fields, name) && r.Success? ==>
      deserialise(Get(fields, name).value) == Success(Some(Deserialised(r.value, false)))
    ensures HasKey(fields, name) && Get(fields, name).value.JNull? ==>
      r == Failure(KanikoRemoteConfig(EmptySectionMessage(name), Some(JObject(Remove(fields, name)))))
    ensures HasKey(fields, name) && !Get(fields, name).value.JNull? ==>
      var d := deserialise(Get(fields, name).value);
      d == Success(None) ==> r == Failure(KanikoRemoteConfig(EmptySectionMessage(name), Some(JObject(Remove(fields, name)))))
    ensures HasKey(fields, name) && !Get(fields, name).value.JNull? ==>
      var d := deserialise(Get(fields, name).value);
      d.Failure? ==> r == Failure(d.error)
    ensures HasKey(fields, name) && !Get(fields, name).value.JNull? ==>
      var d := deserialise(Get(fields, name).value);
      d.Success? && d.value.Some? && !d.value.value.hasExtraJson ==> r == Success(d.value.value.value)
    ensures HasKey(fields, name) && !Get(fields, name).value.JNull? ==>
      var d := deserialise(Get(fields, name).value);
      d.Success? && d.value.Some? && d.value.value.hasExtraJson ==>
      r == Failure(KanikoRemoteConfig(UnknownPropertiesMessage(name), Some(Get(fields, name).value)))
  {
    var v: Option<Json> := Get(fields, name);
    match v
    case None => Success(default)
    case Some(node) =>
      var d :- if node.JNull? then Success(None) else deserialise(node);
      if node.JNull? || d.None? then
        Failure(KanikoRemoteConfig(EmptySectionMessage(name), Some(JObject(Remove(fields, name)))))
      else if d.value.hasExtraJson then
        Failure(KanikoRemoteConfig(UnknownPropertiesMessage(name), Some(node)))
      else Success(d.value.value)
  }

  /**
   * The authoriser built for one `auth` entry as Config.cs:126 is written:
   * `authType != null || authType == "pod-only"` sends every entry with a
   * type to `PodOnlyAuth`, and an entry without one to "Unknown auth type ".
   */
  function DispatchAsWritten(option: Dict<Json>): (r: Result<Auth, Error>)
    ensures r.Success? ==> r.value.PodOnlyAuth?
  {
    var authType :- Authoriser.GetString(option, "type");
    if authType.Some? then
      var a :- PodOnly.FromOptions(option);
      Success(PodOnlyAuth(a))
    else Failure(KanikoRemoteConfig("Unknown auth type ", Some(JObject(option))))
  }

  const KnownTypes := {"pod-only", "acr", "docker-hub", "gcr"}

  /** The `type` value that selects each authoriser class. */
  function TypeName(a: Auth): (t: string)
    ensures t in KnownTypes
  {
    match a
    case PodOnlyAuth(_) => "pod-only"
    case ACRAuth(_) => "acr"
    case DockerHubAuth(_) => "docker-hub"
    case GCRAuth(_) => "gcr"
  }

  /**
   * The dispatch the branches below Config.cs:126 intend: a missing type or
   * "pod-only" gives `PodOnlyAuth`, "acr", "docker-hub" and "gcr" their own
   * class, and any other type is unknown.
   */
  function Dispatch(option: Dict<Json>, uriHost: string -> string, uriPath: string -> string): (r: Result<Auth, Error>)
    ensures r.Success? ==>
      || Authoriser.GetString(option, "type") == Success(Some(TypeName(r.value)))
      || (Authoriser.GetString(option, "type") == Success(None) && r.value.PodOnlyAuth?)
    ensures forall t :: Authoriser.GetString(option, "type") == Success(Some(t)) && t !in KnownTypes ==>
      r == Failure(KanikoRemoteConfig("Unknown auth type " + t, Some(JObject(option))))
  {
    var authType :- Authoriser.GetString(option, "type");
    if authType.None? || authType.value == "pod-only" then
      var a :- PodOnly.FromOptions(option);
      Success(PodOnlyAuth(a))
    else if authType.value == "acr" then
      var a :- ACR.FromOptions(option, uriHost);
      Success(ACRAuth(a))
    else if authType.value == "docker-hub" then
      var a :- DockerHub.FromOptions(option);
      Success(DockerHubAuth(a))
    else if authType.value == "gcr" then
      var a :- GCR.FromOptions(option, uriPath);
      Success(GCRAuth(a))
    else Failure(KanikoRemoteConfig("Unknown auth type " + authType.value, Some(JObject(option))))
  }

  /** The intended dispatch with the host's URI helpers. */
  function Dispatcher(host: Host): Dict<Json> -> Result<Auth, Error>
  {
    o => Dispatch(o, host.uriHost, host.uriPath)
  }

  /** One element of the `auth` array: null is refused with the whole array, anything but an object raises. */
  function AuthOf(node: Json, authNode: Json, dispatch: Dict<Json> -> Result<Auth, Error>): Result<Auth, Error>
  {
    if node.JNull? then Failure(KanikoRemoteConfig(NonEmptyOptionsMessage, Some(authNode)))
    else
      var option :- PodOnly.AsObject(node);
      dispatch(option)
  }

  /** `acc` in front of a list result; a failure stays as it is. */
  function Prepend(acc: seq<Auth>, r: Result<seq<Auth>, Error>): Result<seq<Auth>, Error>
  {
    if r.Failure? then r else Success(acc + r.value)
  }

  /** The authorisers of the `auth` array's elements, in order; the first failing element decides the error. */
  function Authorisers(nodes: seq<Json>, authNode: Json, dispatch: Dict<Json> -> Result<Auth, Error>): Result<seq<Auth>, Error>
  {
    if |nodes| == 0 then Success([])
    else
      var a :- AuthOf(nodes[0], authNode, dispatch);
      var rest := Authorisers(nodes[1..], authNode, dispatch);
      Prepend([a], rest)
  }

  /**
   * The list holds one authoriser per element, in the array's order, and it
   * is refused exactly when some element is.
   */
  lemma {:induction false} AuthorisersInOrder(nodes: seq<Json>, authNode: Json, dispatch: Dict<Json> -> Result<Auth, Error>)
    ensures var r := Authorisers(nodes, authNode, dispatch);
      && (r.Success? <==> forall i :: 0 <= i < |nodes| ==> AuthOf(nodes[i], authNode, dispatch).Success?)
      && (r.Success? ==> |r.value| == |nodes|)
      && (r.Success? ==> forall i :: 0 <= i < |nodes| ==> AuthOf(nodes[i], authNode, dispatch) == Success(r.value[i]))
  {
    if |nodes| > 0 {
      AuthorisersInOrder(nodes[1..], authNode, dispatch);
      assert forall i :: 1 <= i < |nodes| ==> nodes[i] == nodes[1..][i - 1];
    }
  }

  /** `ParseAuthorisers` on the root's fields: no `auth` key gives no authorisers, a null or non-array one raises. */
  function AuthSection(fields: Dict<Json>, dispatch: Dict<Json> -> Result<Auth, Error>): (r: Result<seq<Auth>, Error>)
    ensures !HasKey(fields, "auth") ==> r == Success([])
    ensures r.Success? && HasKey(fields, "auth") ==>
      Get(fields, "auth").value.JArray? && |r.value| == |Get(fields, "auth").value.items|
  {
    var v: Option<Json> := Get(fields, "auth");
    match v
    case None => Success([])
    case Some(JNull) => Failure(NullReference)
    case Some(JArray(items)) =>
      AuthorisersInOrder(items, JArray(items), dispatch);
      Authorisers(items, JArray(items), dispatch)
    case Some(_) => Failure(InvalidOperation("AsArray"))
  }

  /**
   * The whole of `LoadConfig` after the file is read: the three sections and
   * the authorisers, each taken out of the root in turn, then nothing may be
   * left. `dispatch` builds the authoriser of one `auth` entry:
   * `DispatchAsWritten` for the program, `Dispatcher(host)` as intended.
   */
  function Loaded(fields: Dict<Json>, host: Host, dispatch: Dict<Json> -> Result<Auth, Error>): (r: Result<Config, Error>)
  {
    var kubernetes :- Section(fields, "kubernetes", host.deserialiseKubernetes, DefaultKubernetesConfiguration);
    var f1 := Remove(fields, "kubernetes");
    var builder :- Section(f1, "builder", host.deserialiseBuilder, Builder.DefaultBuilderConfiguration(host.userName));
    var f2 := Remove(f1, "builder");
    var tagger :- Section(f2, "tags", host.deserialiseTagger, DefaultTaggerConfiguration);
    var f3 := Remove(f2, "tags");
    var authorisers :- AuthSection(f3, dispatch);
    var f4 := Remove(f3, "auth");
    if |f4| > 0 then Failure(KanikoRemoteConfig(TopLevelMessage, Some(JObject(f4))))
    else Success(Config(kubernetes, builder, tagger, authorisers))
  }

  /**
   * `LoadConfig`: the root object of the chosen file, loaded. A file that
   * cannot be read fails the load with its error; a load that succeeds read
   * a root with only the four top-level keys.
   */
  function Load(host: Host, dispatch: Dict<Json> -> Result<Auth, Error>): (r: Result<Config, Error>)
    ensures RootFields(host).Failure? ==> r == Failure(RootFields(host).error)
    ensures r.Success? ==> RootFields(host).Success? && OnlyKeys(RootFields(host).value, TopLevelKeys)
  {
    var fields :- RootFields(host);
    LoadedOnlyTopLevelKeys(fields, host, dispatch);
    Loaded(fields, host, dispatch)
  }

  /** The `JsonObject` the loader takes sections out of. */
  class ConfigRoot {
    var fields: Dict<Json>

    constructor (fields: Dict<Json>)
      ensures this.fields == fields
    {
      this.fields := fields;
    }

    /** `JsonObject.Remove(name, out node)`: the value that was there, if any, and the object without the key. */
    method Take(name: string) returns (node: Option<Json>)
      modifies this
      ensures node == Get(old(fields), name)
      ensures fields == Remove(old(fields), name)
    {
      node := Get(fields, name);
      fields := Remove(fields, name);
    }
  }

  /** `ParseAndRemoveStaticConfigSection<T>`: takes the section out of the root and parses it. */
  method ParseAndRemoveStaticConfigSection<T>(root: ConfigRoot, name: string, deserialise: Deserialiser<T>, default: T)
    returns (r: Result<T, Error>)
    modifies root
    ensures root.fields == Remove(old(root.fields), name)
    ensures r == Section(old(root.fields), name, deserialise, default)
  {
    var node := root.Take(name);
    if node.None? {
      return Success(default);
    }
    var d := if node.value.JNull? then Success(None) else deserialise(node.value);
    if d.Failure? {
      return Failure(d.error);
    }
    if node.value.JNull? || d.value.None? {
      return Failure(KanikoRemoteConfig(EmptySectionMessage(name), Some(JObject(root.fields))));
    }
    if d.value.value.hasExtraJson {
      return Failure(KanikoRemoteConfig(UnknownPropertiesMessage(name), Some(node.value)));
    }
    r := Success(d.value.value.value);
  }

  /** `ParseAuthorisers`: takes `auth` out of the root and adds one authoriser per element, in order. */
  method ParseAuthorisers(root: ConfigRoot, dispatch: Dict<Json> -> Result<Auth, Error>) returns (r: Result<seq<Auth>, Error>)
    modifies root
    ensures root.fields == Remove(old(root.fields), "auth")
    ensures r == AuthSection(old(root.fields), dispatch)
  {
    var authNode := root.Take("auth");
    if authNode.None? {
      return Success([]);
    }
    if authNode.value.JNull? {
      return Failure(NullReference);
    }
    if !authNode.value.JArray? {
      return Failure(InvalidOperation("AsArray"));
    }
    r := AddAuthorisers(authNode.value.items, authNode.value, dispatch);
  }

  /** One element of the `auth` array: its authoriser in front of the rest's, or its error. */
  lemma AuthorisersStep(nodes: seq<Json>, authNode: Json, dispatch: Dict<Json> -> Result<Auth, Error>)
    requires |nodes| > 0
    ensures var a := AuthOf(nodes[0], authNode, dispatch);
      Authorisers(nodes, authNode, dispatch) ==
        if a.Failure? then Failure(a.error) else Prepend([a.value], Authorisers(nodes[1..], authNode, dispatch))
  {
  }

  /** Prepending nothing leaves a result as it is. */
  lemma PrependNothing(r: Result<seq<Auth>, Error>)
    ensures Prepend([], r) == r
  {
    if r.Success? {
      assert [] + r.value == r.value;
    }
  }

  /** Prepending twice is prepending the concatenation. */
  lemma PrependTwice(acc: seq<Auth>, front: seq<Auth>, r: Result<seq<Auth>, Error>)
    ensures Prepend(acc, Prepend(front, r)) == Prepend(acc + front, r)
  {
    if r.Success? {
      assert acc + (front + r.value) == (acc + front) + r.value;
    }
  }

  /** The `foreach` of `ParseAuthorisers`: one `Add` per element, stopping at the first that raises. */
  method AddAuthorisers(nodes: seq<Json>, authNode: Json, dispatch: Dict<Json> -> Result<Auth, Error>)
    returns (r: Result<seq<Auth>, Error>)
    ensures r == Authorisers(nodes, authNode, dispatch)
  {
    var authorisers: seq<Auth> := [];
    var i := 0;
    assert nodes[i..] == nodes;
    PrependNothing(Authorisers(nodes, authNode, dispatch));
    while i < |nodes|
      invariant 0 <= i <= |nodes|
      invariant Authorisers(nodes, authNode, dispatch) == Prepend(authorisers, Authorisers(nodes[i..], authNode, dispatch))
    {
      var auth := AuthOf(nodes[i], authNode, dispatch);
      AuthorisersStep(nodes[i..], authNode, dispatch);
      assert nodes[i..][1..] == nodes[i + 1..];
      if auth.Failure? {
        return Failure(auth.error);
      }
      PrependTwice(authorisers, [auth.value], Authorisers(nodes[i + 1..], authNode, dispatch));
      authorisers := authorisers + [auth.value];
      i := i + 1;
    }
    assert nodes[i..] == [];
    assert authorisers + [] == authorisers;
    r := Success(authorisers);
  }

  /** `LoadConfig` as written, step by step over one root object. */
  method LoadConfig(host: Host) returns (r: Result<Config, Error>)
    ensures r == Load(host, DispatchAsWritten)
  {
    var fields :- RootFields(host);
    var root := new ConfigRoot(fields);
    var kubernetes :- ParseAndRemoveStaticConfigSection(root, "kubernetes", host.deserialiseKubernetes, DefaultKubernetesConfiguration);
    var builder :- ParseAndRemoveStaticConfigSection(root, "builder", host.deserialiseBuilder,
                                                     Builder.DefaultBuilderConfiguration(host.userName));
    var tagger :- ParseAndRemoveStaticConfigSection(root, "tags", host.deserialiseTagger, DefaultTaggerConfiguration);
    var authorisers :- ParseAuthorisers(root, DispatchAsWritten);
    if |root.fields| > 0 {
      return Failure(KanikoRemoteConfig(TopLevelMessage, Some(JObject(root.fields))));
    }
    r := Success(Config(kubernetes, builder, tagger, authorisers));
  }

  /**
   * Config.cs:126 as written: an entry typed "acr" that the intended
   * dispatch turns into an ACR authoriser is loaded as a pod-only one, which
   * leaves the docker config untouched, where the ACR authoriser would have
   * written the registry's `acr-env` helper into it.
   */
  lemma AcrEntryLoadedAsPodOnly(option: Dict<Json>, uriHost: string -> string, uriPath: string -> string, c: DockerConfig)
    requires Get(option, "type") == Some(JString("acr"))
    requires Dispatch(option, uriHost, uriPath).Success?
    ensures DispatchAsWritten(option).Success? && DispatchAsWritten(option).value.PodOnlyAuth?
    ensures DockerConfigWith(DispatchAsWritten(option).value, c) == c
    ensures Dispatch(option, uriHost, uriPath).value.ACRAuth?
    ensures DockerConfigWith(Dispatch(option, uriHost, uriPath).value, EmptyDockerConfig) != EmptyDockerConfig
  {
    var a := Dispatch(option, uriHost, uriPath).value;
    assert a.ACRAuth?;
    ACR.DockerConfigEffect(a.acr, EmptyDockerConfig);
  }

  /**
   * Config.cs:126 as written: an entry without a `type` is refused as an
   * unknown type, where the intended dispatch reads it as pod-only.
   */
  lemma UntypedEntryRefusedAsWritten(option: Dict<Json>, uriHost: string -> string, uriPath: string -> string)
    requires !HasKey(option, "type")
    ensures DispatchAsWritten(option) == Failure(KanikoRemoteConfig("Unknown auth type ", Some(JObject(option))))
    ensures PodOnly.FromOptions(option).Success? ==>
      Dispatch(option, uriHost, uriPath) == Success(PodOnlyAuth(PodOnly.FromOptions(option).value))
  {
  }

  /** As written, no authoriser loaded from the `auth` list ever contributes to the docker config. */
  lemma AsWrittenKeepsDockerConfig(nodes: seq<Json>, authNode: Json, c: DockerConfig)
    requires Authorisers(nodes, authNode, DispatchAsWritten).Success?
    ensures ConfigAfter(Authorisers(nodes, authNode, DispatchAsWritten).value, c) == c
  {
    var auths := Authorisers(nodes, authNode, DispatchAsWritten).value;
    AuthorisersInOrder(nodes, authNode, DispatchAsWritten);
    forall i | 0 <= i < |auths| ensures auths[i].PodOnlyAuth? {
      assert AuthOf(nodes[i], authNode, DispatchAsWritten) == Success(auths[i]);
    }
    PodOnlyKeepsConfig(auths, c);
  }

  /**
   * As written, every authoriser `LoadConfig` returns is a pod-only one, so
   * whatever the file says, the Docker config the build receives is the one
   * it started with.
   */
  lemma LoadAsWrittenKeepsDockerConfig(host: Host, c: DockerConfig)
    requires Load(host, DispatchAsWritten).Success?
    ensures ConfigAfter(Load(host, DispatchAsWritten).value.authorisers, c) == c
  {
    var fields := RootFields(host).value;
    assert Load(host, DispatchAsWritten) == Loaded(fields, host, DispatchAsWritten);
    LoadedAsWrittenKeepsDockerConfig(fields, host, c);
  }

  /** `LoadAsWrittenKeepsDockerConfig`, over the root object once it is read. */
  lemma LoadedAsWrittenKeepsDockerConfig(fields: Dict<Json>, host: Host, c: DockerConfig)
    requires Loaded(fields, host, DispatchAsWritten).Success?
    ensures ConfigAfter(Loaded(fields, host, DispatchAsWritten).value.authorisers, c) == c
  {
    var f1 := Remove(fields, "kubernetes");
    var f2 := Remove(f1, "builder");
    var f3 := Remove(f2, "tags");
    var k := Section(fields, "kubernetes", host.deserialiseKubernetes, DefaultKubernetesConfiguration);
    var b := Section(f1, "builder", host.deserialiseBuilder, Builder.DefaultBuilderConfiguration(host.userName));
    var t := Section(f2, "tags", host.deserialiseTagger, DefaultTaggerConfiguration);
    var a := AuthSection(f3, DispatchAsWritten);
    assert k.Success? && b.Success? && t.Success? && a.Success?;
    assert Loaded(fields, host, DispatchAsWritten).value.authorisers == a.value;
    AuthSectionAsWrittenKeepsDockerConfig(f3, c);
  }

  /** The `auth` section read as written holds pod-only authorisers only. */
  lemma AuthSectionAsWrittenKeepsDockerConfig(fields: Dict<Json>, c: DockerConfig)
    requires AuthSection(fields, DispatchAsWritten).Success?
    ensures ConfigAfter(AuthSection(fields, DispatchAsWritten).value, c) == c
  {
    match Get(fields, "auth")
    case None =>
      PodOnlyKeepsConfig([], c);
    case Some(v) =>
      assert v.JArray?;
      AsWrittenKeepsDockerConfig(v.items, v, c);
  }

  /** Without a configuration file every section takes its defaults and there are no authorisers. */
  lemma NoFileGivesDefaults(host: Host, dispatch: Dict<Json> -> Result<Auth, Error>)
    requires ConfigLocation(host.environmentVariable, host.combine(host.currentDirectory, ConfigFileName),
                            host.combine(host.userProfile, ConfigFileName), host.fileExists).None?
    ensures Load(host, dispatch) == Success(Config(DefaultKubernetesConfiguration, Builder.DefaultBuilderConfiguration(host.userName),
                                         DefaultTaggerConfiguration, []))
  {
    assert Remove<Json>([], "kubernetes") == [];
    assert Remove<Json>([], "builder") == [];
    assert Remove<Json>([], "tags") == [];
    assert Remove<Json>([], "auth") == [];
  }

  /** The root left over once the four top-level options are taken out. */
  function Leftover(fields: Dict<Json>): Dict<Json>
  {
    Remove(Remove(Remove(Remove(fields, "kubernetes"), "builder"), "tags"), "auth")
  }

  /** The three sections and the `auth` list all parse. */
  predicate PartsParse(fields: Dict<Json>, host: Host, dispatch: Dict<Json> -> Result<Auth, Error>)
  {
    var f1 := Remove(fields, "kubernetes");
    var f2 := Remove(f1, "builder");
    && Section(fields, "kubernetes", host.deserialiseKubernetes, DefaultKubernetesConfiguration).Success?
    && Section(f1, "builder", host.deserialiseBuilder, Builder.DefaultBuilderConfiguration(host.userName)).Success?
    && Section(f2, "tags", host.deserialiseTagger, DefaultTaggerConfiguration).Success?
    && AuthSection(Remove(f2, "tags"), dispatch).Success?
  }

  /**
   * Every key of an accepted file is one of the four top-level options; once
   * the four parts parse, a file with any other key is refused with what is
   * left of the root.
   */
  lemma LoadedOnlyTopLevelKeys(fields: Dict<Json>, host: Host, dispatch: Dict<Json> -> Result<Auth, Error>)
    ensures Loaded(fields, host, dispatch).Success? ==> PartsParse(fields, host, dispatch) && OnlyKeys(fields, TopLevelKeys)
    ensures PartsParse(fields, host, dispatch) && !OnlyKeys(fields, TopLevelKeys) ==>
      Loaded(fields, host, dispatch) == Failure(KanikoRemoteConfig(TopLevelMessage, Some(JObject(Leftover(fields)))))
    ensures PartsParse(fields, host, dispatch) && OnlyKeys(fields, TopLevelKeys) ==> Loaded(fields, host, dispatch).Success?
  {
    LeftoverEmpty(fields);
  }

  /** Each top-level option the file leaves out takes its default in the loaded configuration. */
  lemma AbsentOptionsTakeDefaults(fields: Dict<Json>, host: Host, dispatch: Dict<Json> -> Result<Auth, Error>)
    requires Loaded(fields, host, dispatch).Success?
    ensures var c := Loaded(fields, host, dispatch).value;
      && (!HasKey(fields, "kubernetes") ==> c.kubernetes == DefaultKubernetesConfiguration)
      && (!HasKey(fields, "builder") ==> c.builder == Builder.DefaultBuilderConfiguration(host.userName))
      && (!HasKey(fields, "tags") ==> c.tagger == DefaultTaggerConfiguration)
      && (!HasKey(fields, "auth") ==> c.authorisers == [])
  {
    var f1 := Remove(fields, "kubernetes");
    var f2 := Remove(f1, "builder");
    var f3 := Remove(f2, "tags");
    var k := Section(fields, "kubernetes", host.deserialiseKubernetes, DefaultKubernetesConfiguration);
    var b := Section(f1, "builder", host.deserialiseBuilder, Builder.DefaultBuilderConfiguration(host.userName));
    var t := Section(f2, "tags", host.deserialiseTagger, DefaultTaggerConfiguration);
    var a := AuthSection(f3, dispatch);
    assert k.Success? && b.Success? && t.Success? && a.Success?;
    assert Loaded(fields, host, dispatch).value == Config(k.value, b.value, t.value, a.value);
    GetRemove(fields, "kubernetes", "builder");
    GetRemove(fields, "kubernetes", "tags");
    GetRemove(fields, "kubernetes", "auth");
    GetRemove(f1, "builder", "tags");
    GetRemove(f1, "builder", "auth");
    GetRemove(f2, "tags", "auth");
  }

  /** Nothing is left over exactly when the root holds only the four top-level options. */
  lemma LeftoverEmpty(fields: Dict<Json>)
    ensures OnlyKeys(fields, TopLevelKeys) <==> |Leftover(fields)| == 0
  {
    var f1 := Remove(fields, "kubernetes");
    var f2 := Remove(f1, "builder");
    var f3 := Remove(f2, "tags");
    var f4 := Remove(f3, "auth");
    assert OnlyKeys(f3, {"auth"}) <==> |f4| == 0 by {
      OnlyNoKeys(f4);
      RemoveOnlyKeys(f3, "auth", {});
      assert {} + {"auth"} == {"auth"};
    }
    assert OnlyKeys(f2, {"tags", "auth"}) <==> OnlyKeys(f3, {"auth"}) by {
      RemoveOnlyKeys(f2, "tags", {"auth"});
      assert {"auth"} + {"tags"} == {"tags", "auth"};
    }
    assert OnlyKeys(f1, {"builder", "tags", "auth"}) <==> OnlyKeys(f2, {"tags", "auth"}) by {
      RemoveOnlyKeys(f1, "builder", {"tags", "auth"});
      assert {"tags", "auth"} + {"builder"} == {"builder", "tags", "auth"};
    }
    assert OnlyKeys(fields, TopLevelKeys) <==> OnlyKeys(f1, {"builder", "tags", "auth"}) by {
      RemoveOnlyKeys(fields, "kubernetes", {"builder", "tags", "auth"});
      assert {"builder", "tags", "auth"} + {"kubernetes"} == TopLevelKeys;
    }
  }
}
