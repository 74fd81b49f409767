# kaniko-remote, modelled in Dafny

kaniko-remote builds container images with kaniko in a Kubernetes pod from a
local or remote build context. The repository holds two generations of the
same tool. One is the Python package under `src/kaniko_remote` (with an
earlier configuration module and pod-spec builder still in it). The other is
a C# port under `src/`. This model covers the core of both, one Dafny module
per source file, side by side and not reconciled:

- the pod-spec builders (`Specs`, `PySpecs`, `PyLegacySpecs`) over a shared
  pod object model (`K8sModels`), including the one volume-mount list that
  the setup and builder containers share;
- the registry authorisers: option validation and what each one adds to the
  builder pod and to the docker `config.json` (`Authoriser`, `PodOnly`,
  `ACR`, `GCR`, `DockerHub`, `AuthVariants`, `DockerConfigs`,
  `PyAuthorisers`);
- tag transformation (`Tagger`, `PyTagger`) and kaniko argument assembly
  (`KanikoFlags`, `BuildArguments`, and the builders' own argument lists);
- the builder lifecycle as a small state machine (`Builder`, `PyBuilder`);
- container-state selection and the "await the first matching state" scans
  over a finite stream of pod snapshots (`NamespacedClient`, `K8s`);
- the heredoc commands that carry the gzipped build context into the pod,
  with the packet split and its line count (`K8s`);
- configuration: file location, section parsing and validation, snake-casing
  and default merging (`ConfigLoader`, `SnakeCase`, `PyConfig`,
  `PyLegacyConfig`), and the exception messages (`Exceptions`).

JSON and YAML documents are the value type `Json.Json`. Python dicts are
ordered association lists (`Json.Dict`). `Base64` holds an encoder and
decoder with their round trip. `Wrappers` holds `Option` and `Result`.
`Errors` holds the exception kinds of both generations. Calls into libraries
whose code is not part of this model are parameters of the operations that
use them: URL parsing, regular expressions, file existence, YAML and JSON
parsing, the dotted lookup of `DeflatableDict`, `os.path.relpath`, Python's
`str()` of a value and `uuid4`.

## Model

| member | source | states |
|---|---|---|
| Authoriser.StringOf | src/Auth/Authoriser.cs:22-23 | a null option reads as no value, a string as itself, and any other JSON value is refused |
| Authoriser.GetString | src/Auth/Authoriser.cs:22-23 | a missing key reads as no value; a present key reads as its node does |
| Authoriser.GetArray | src/Auth/PodOnly.cs:31 | a missing or null option reads as the empty array, an array as its items, anything else is refused |
| Authoriser.ParseAuthBase | src/Auth/Authoriser.cs:18-43 | succeeds exactly when `mount` is absent, "onMatch" or "always" and a URL is given exactly when `mount` is not "always"; the URL kept is the option's and `AlwaysMount` holds exactly for `mount: always`; a non-string `url` or `mount` is refused naming the key, an unknown `mount` gives the mount message and a URL present with `always` or missing without it gives the URL message |
| ACR.FromOptions | src/Auth/ACR.cs:12-35 | succeeds exactly when the pod-only part parses, `registry` and `token` are strings or absent, and a registry is given or the authoriser does not always mount; the registry is the explicit one or else the URL's host; with neither the registry error is raised; the token is the `token` option |
| ACR.AppendAuthToDockerConfig | src/Auth/ACR.cs:37-59 | the shared document becomes `DockerConfigWith` of the old one |
| ACR.DockerConfigEffect | src/Auth/ACR.cs:37-59 | the registry always gets the `acr-env` helper; its `auths` entry is the token's exactly when a token is set; `auths` is created only for a token; other registries' entries are kept |
| ACR.DockerConfigIdempotent | src/Auth/ACR.cs:37-59 | applying the authoriser twice gives the same document as once |
| ACR.TokenAuthDecodes | src/Auth/ACR.cs:48 | the written `auth` decodes back to the ASCII bytes of the fixed user, ':' and the token |
| GCR.FirstSegment | src/Auth/GCR.cs:26 | `Split("/").First()` is the longest prefix without '/', ending just before the first '/' |
| GCR.FromOptions | src/Auth/GCR.cs:11-33 | succeeds exactly when the pod-only part parses, `project` is a string or absent, and a project is given or the authoriser does not always mount; the project is the explicit one or else the first segment of the URL's path; with neither the project error is raised |
| GCR.RootedPathGivesEmptyProject | src/Auth/GCR.cs:26 | as written, a path that starts with '/', as `UriBuilder.Path` does, gives the empty project |
| GCR.FirstSegmentOfName | src/Auth/GCR.cs:26 | a name without '/' is its own first segment, also when a '/' and more follow it |
| GCR.IntendedProjectIsFirstName | src/Auth/GCR.cs:26 | the intended project of the path `/p` or `/p/...` is the name `p` |
| GCR.AppendAuthToDockerConfig | src/Auth/GCR.cs:35-44 | the shared document becomes `DockerConfigWith` of the old one |
| GCR.DockerConfigEffect | src/Auth/GCR.cs:35-44 | the project's `https://gcr.io/<project>/` key gets the `gcr-env` helper; `credHelpers` is created if absent; other helpers are kept and `auths` is untouched |
| GCR.DockerConfigIdempotent | src/Auth/GCR.cs:35-44 | applying the authoriser twice gives the same document as once |
| DockerHub.FromOptions | src/Auth/DockerHub.cs:13-30 | succeeds exactly when the base options parse and both `username` and `password` are strings, keeping them; with either absent the credentials error |
| DockerHub.AppendAuthToDockerConfig | src/Auth/DockerHub.cs:32-43 | the shared document becomes `DockerConfigWith` of the old one |
| DockerHub.AppendAuthToPod | src/Auth/DockerHub.cs:45-48 | the pod is handed back unchanged |
| DockerHub.DockerConfigEffect | src/Auth/DockerHub.cs:32-43 | the Docker Hub entry is set, `auths` is created if absent, other registries are kept and `credHelpers` is untouched |
| DockerHub.DockerConfigIdempotent | src/Auth/DockerHub.cs:32-43 | applying the authoriser twice gives the same document as once |
| DockerHub.CredentialsAuthInjective | src/Auth/DockerHub.cs:40 | for ASCII credentials whose user name has no ':', the written `auth` determines the user name and the password |
| DockerHub.ColonSplit | src/Auth/DockerHub.cs:40 | joining with ':' is undone by splitting at the first ':' when the user name has none |
| PodOnly.FromOptions | src/Auth/PodOnly.cs:21-112 | a base-option error is the constructor's error; a constructed authoriser keeps the parsed base options and the `serviceAccount` option, and records every volume with kind Secret |
| PodOnly.DictAdd | src/Auth/PodOnly.cs:43 | `Dictionary.Add` succeeds exactly when the key is new, appending the entry and keeping keys distinct; a repeated key raises |
| PodOnly.AsObject | src/Auth/PodOnly.cs:34 | only a JSON object converts, to its own fields |
| PodOnly.Create | src/Auth/PodOnly.cs:21-112 | the constructor with its two loops gives exactly the result of `FromOptions` |
| PodOnly.NonNull | src/Auth/PodOnly.cs:33 | the kept elements are no more than the input and none of them is null |
| PodOnly.ParseEnvsSkipsNulls | src/Auth/PodOnly.cs:31-33 | parsing the `env` list ignores its null elements entirely |
| PodOnly.EnvStepAccepts | src/Auth/PodOnly.cs:34-71 | an `env` entry is taken exactly when it is `{fromSecret}`, `{fromConfigMap}` or `{name, value}` with string values and a name not yet in its table, adding one entry at the end of that table; any other shape fails with the shape message |
| PodOnly.FromSecretVolumeFails | src/Auth/PodOnly.cs:89-110 | a `vol` entry naming a secret always fails, since it then falls into the `else` of the config-map test |
| PodOnly.VolStepAccepts | src/Auth/PodOnly.cs:78-106 | a `vol` entry is taken exactly when it is `{mountPath, fromConfigMap}` with string values and a config map not yet in the table, and then it is recorded at the end of the table under the config map's name with kind Secret |
| PodOnly.ParsedVolumesAreSecretKind | src/Auth/PodOnly.cs:73-111 | every volume the constructor records has kind Secret |
| PodOnly.AppendAuthToDockerConfig | src/Auth/PodOnly.cs:114 | the docker config is passed through unchanged |
| PodOnly.EnvVarsOf | src/Auth/PodOnly.cs:122-125 | one env var per raw variable, in table order |
| PodOnly.EnvFromsOf | src/Auth/PodOnly.cs:126-136 | one envFrom per mounted env, of the recorded kind, in table order |
| PodOnly.VolumesOf | src/Auth/PodOnly.cs:137-147 | one volume per mounted volume, of the recorded kind, in table order |
| PodOnly.MountsOf | src/Auth/PodOnly.cs:137-147 | one read-only mount per mounted volume at its mount path, in table order |
| PodOnly.AppendRawEnvVars | src/Auth/PodOnly.cs:122-125 | the loop leaves the pod's auth state as the raw-variable patch applied to the old one |
| PodOnly.AppendMountedEnvs | src/Auth/PodOnly.cs:126-136 | the loop leaves the pod's auth state as the envFrom patch applied to the old one |
| PodOnly.AppendMountedVols | src/Auth/PodOnly.cs:137-147 | the loop leaves the pod's auth state as the volume-and-mount patch applied to the old one |
| PodOnly.AppendAuthToPod | src/Auth/PodOnly.cs:116-149 | the same pod comes back, its auth state being `Patch(a)` applied to the old one |
| PodOnly.PatchCounts | src/Auth/PodOnly.cs:116-149 | the service account is replaced exactly when one is configured, and each table entry adds exactly one env var, envFrom, volume and mount |
| AuthVariants.Patch | src/Auth/DockerHub.cs:45-48 | a Docker Hub authoriser patches nothing; ACR and GCR patch as their pod-only part |
| AuthVariants.DockerConfigWith | src/Auth/PodOnly.cs:114 | a pod-only authoriser leaves the docker config as it was; the others write as their class does |
| AuthVariants.AppendAuthToDockerConfig | src/Auth/Authoriser.cs:13 | the virtual call leaves the shared document as `DockerConfigWith` of the old one |
| AuthVariants.AppendAuthToPod | src/Auth/Authoriser.cs:14 | the virtual call returns the same pod, with the class's patch applied |
| AuthVariants.PodOnlyKeepsConfig | src/Builder/Builder.cs:97-102 | a list of pod-only authorisers folded over a docker config leaves it unchanged |
| DockerConfigs.WithAuthEffect | src/Auth/ACR.cs:42-49 | writing an `auths` entry sets that registry's entry, keeps every other one and leaves `credHelpers` alone |
| DockerConfigs.WithCredHelperEffect | src/Auth/ACR.cs:52-56 | writing a `credHelpers` entry sets that registry's helper, keeps every other one and leaves `auths` alone |
| DockerConfigs.WithAuthIdempotent | src/Auth/DockerHub.cs:34-41 | writing the same `auths` entry twice is writing it once |
| DockerConfigs.WithCredHelperIdempotent | src/Auth/GCR.cs:37-41 | writing the same helper twice is writing it once |
| DockerConfigs.WithAuthCredHelperCommute | src/Auth/ACR.cs:39-56 | `auths` and `credHelpers` writes are independent and commute |
| DockerConfigs.DockerConfigDocument.constructor | src/Builder/Builder.cs:97 | a new document is the empty `{}` |
| DockerConfigs.DockerConfigDocument.SetAuth | src/Auth/DockerHub.cs:34-41 | the document becomes the old one with the `auths` entry written |
| DockerConfigs.DockerConfigDocument.SetCredHelper | src/Auth/GCR.cs:37-41 | the document becomes the old one with the helper written |
| Base64.Char | src/Auth/ACR.cs:48 | every sextet has an alphabet character, which `Index` maps back to it |
| Base64.Encode | src/Auth/DockerHub.cs:40 | padded Base64 text is four characters per started block of three bytes |
| Base64.DecodeEncodeBlock | src/kaniko_remote/k8s/k8s.py:203-206 | one encoded block of three bytes decodes back to them |
| Base64.DecodeEncode | src/kaniko_remote/k8s/k8s.py:203-206 | decoding undoes encoding, for every byte string |
| Base64.EncodeInjective | src/Auth/DockerHub.cs:40 | the encoded text determines the bytes |
| Base64.EncodeAppend | src/kaniko_remote/k8s/k8s.py:200-205 | chunks whose length is a multiple of three encode independently, so per-packet encoding agrees with encoding the whole |
| Base64.EncodeIsOneLine | src/kaniko_remote/k8s/k8s.py:203-204 | an encoding holds no line break, so each data line of the heredoc is one line |
| Base64.AsciiBytes | src/Auth/ACR.cs:48 | on ASCII text `Encoding.ASCII.GetBytes` gives one byte per character, its code |
| Base64.Utf8Char | src/kaniko_remote/authorisers.py:155 | one character encodes to between one and four UTF-8 bytes |
| Base64.AsciiAgreesWithUtf8 | src/kaniko_remote/builder.py:99-100 | on ASCII text the C# ASCII bytes and the Python UTF-8 bytes are the same |
| Base64.AsciiBytesInjective | src/Auth/DockerHub.cs:40 | ASCII text is determined by its ASCII bytes |
| Exceptions.ConfigMessage | src/Exceptions.cs:17-19 | the message is the main message, " - ", then the value |
| Exceptions.ConfigMessageWithJson | src/Exceptions.cs:20-34 | the plain message, a line break, then the JSON text, or "null" without JSON |
| Exceptions.PermissionMessage | src/Exceptions.cs:42-47 | the message, " - ", then the permission note |
| Exceptions.LocalContextMessage | src/Exceptions.cs:49-54 | the main message, " - ", then the details |
| Exceptions.RuntimeMessage | src/Exceptions.cs:56-63 | the message unchanged, or followed by the terminated-state header and the serialised state |
| Exceptions.ConfigMessageInjective | src/Exceptions.cs:17-19 | the configuration message determines the offending value |
| Exceptions.LocalContextIsNotConfigMessage | src/Exceptions.cs:15-54 | a local-context message never equals a configuration message, with or without JSON |
| KanikoFlags.Flag | src/kaniko_remote/k8s_specs.py:124 | `--name=value` can be cut back into the name and the value |
| KanikoFlags.Flags | src/kaniko_remote/k8s_specs.py:124 | no more flags than settings |
| KanikoFlags.FlagsAppend | src/kaniko_remote/k8s_specs.py:124 | the flags of two dictionaries in sequence are the flags of each, in order |
| KanikoFlags.FlagsOfSettings | src/kaniko_remote/k8s_specs.py:124 | every setting with a value gives its flag, and every flag comes from such a setting |
| KanikoFlags.FlagEach | src/kaniko_remote/k8s_specs.py:128-129 | one flag per value, in order |
| KanikoFlags.BuildArgPairs | src/kaniko_remote/k8s_specs.py:130-132 | `--build-arg` then the value, for each build argument in order |
| BuildArguments.NewBuildArguments | src/CLI/BuildArguments.cs:15-18 | only the context location is set; every list starts empty and every option unset |
| BuildArguments.OptionPair | src/CLI/BuildArguments.cs:24-33 | two arguments when the option is set, none otherwise |
| BuildArguments.SerialiseKanikoPassthroughArgs | src/CLI/BuildArguments.cs:20-38 | length is 2 per set option plus one per label plus two per build argument; `--target T` comes first, `--customPlatform P` next; after them the slice of labels is exactly the `--label=` flags and the rest exactly the `--build-arg` pairs |
| BuildArguments.LabelsLayout | src/CLI/BuildArguments.cs:36 | the i-th label's `--label=` flag sits at position header + i, so each label reads back from the flag's value part |
| BuildArguments.BuildArgsLayout | src/CLI/BuildArguments.cs:37 | the i-th build argument sits right after a `--build-arg`, at position header + labels + 2i + 1 |
| Specs.PodLabels | src/K8s/Specs.cs:36-39 | the caller's labels with the three system labels forced: name "kaniko-remote", component "builder" and the builder name; every other caller label kept |
| Specs.GeneratePodSpec | src/K8s/Specs.cs:7-89 | a fresh pod: generate-name `kaniko-remote-<name>-`, no token automount, one setup init container waiting for the docker config and one builder container, both holding the same mount list and resources, and one empty-dir `config` volume |
| Specs.MountContextForExecTransfer | src/K8s/Specs.cs:91-105 | the same pod with an empty-dir `context` volume appended and mounted at /workspace in the first container |
| Specs.SetKanikoArgs | src/K8s/Specs.cs:107-113 | the first container's command is cleared and its args are the given ones |
| Specs.ReplaceServiceAccount | src/K8s/Specs.cs:115-120 | the pod runs as the account with token automount on, and nothing else the authorisers touch changes |
| Specs.AppendEnvFromSecret | src/K8s/Specs.cs:122-137 | one secret envFrom is appended, the list created when missing |
| Specs.AppendEnvFromConfigMap | src/K8s/Specs.cs:139-154 | one config-map envFrom is appended, the list created when missing |
| Specs.AppendEnvVar | src/K8s/Specs.cs:156-169 | one env var is appended, the list created when missing |
| Specs.AppendVolumeFromSecret | src/K8s/Specs.cs:171-190 | one read-only mount and one secret volume, both named after the secret, are appended |
| Specs.AppendVolumeFromConfigMap | src/K8s/Specs.cs:192-211 | one read-only mount and one config-map volume, both named after the map, are appended |
| Specs.GenerateAndMountContext | src/K8s/Specs.cs:16-23 | after mounting the context on a generated pod, the setup container sees the context mount too, because the two containers share one mount list |
| K8sModels.VolumeMountList.Add | src/K8s/Specs.cs:99-103 | the mount is appended to the shared list |
| K8sModels.PodClient.DeletePod | src/K8s/NamespacedClient.cs:60-63 | the deletion request is recorded after the earlier ones |
| K8sModels.AppendList | src/K8s/Specs.cs:125-129 | appending nothing leaves a missing list missing; otherwise the list, created if missing, gets the items at its end |
| K8sModels.AppendListTwice | src/K8s/Specs.cs:125-129 | appending twice is appending the concatenation |
| K8sModels.ApplyThen | src/Auth/PodOnly.cs:116-149 | running two runs of mutators in turn is running their composition |
| K8sModels.Named | src/K8s/NamespacedClient.cs:80 | the statuses with that name, and only those, no more than there are statuses |
| K8sModels.NamedByIndex | src/K8s/NamespacedClient.cs:80 | with no status of that name the selection is empty; with exactly one it is that status |
| K8sModels.NamedTwice | src/K8s/NamespacedClient.cs:80 | two statuses with the same name make the selection ambiguous |
| NamespacedClient.SelectNamespace | src/K8s/NamespacedClient.cs:32-46 | the explicit namespace, else the service account's namespace file inside a cluster, else "default" |
| NamespacedClient.NamespaceFileReadOnlyInCluster | src/K8s/NamespacedClient.cs:32-46 | the namespace file decides the namespace only inside a cluster and without an explicit namespace |
| NamespacedClient.NamespacedClient.constructor | src/K8s/NamespacedClient.cs:20-50 | kubeconfig and context are kept as given and the namespace is `SelectNamespace` of the options |
| NamespacedClient.AllStatuses | src/K8s/NamespacedClient.cs:77-79 | the three status lists in order; a null first or second list raises ArgumentNullException |
| NamespacedClient.SelectState | src/K8s/NamespacedClient.cs:74-91 | a missing status raises NullReference; a Concat failure propagates; otherwise the state of the single status named after the pod, none without one, and for two the error naming the container |
| NamespacedClient.SelectStateByIndex | src/K8s/NamespacedClient.cs:77-86 | the state of the one status named after the pod, or InvalidOperation when two statuses share the name |
| NamespacedClient.ContainerOnlyNamesTheError | src/K8s/NamespacedClient.cs:80-85 | the container argument only shapes the error message: a selection that succeeds does not depend on it |
| NamespacedClient.Await | src/K8s/NamespacedClient.cs:95-120 | an empty stream times out, and the only timeout a wait reports names its container, pod and state |
| NamespacedClient.AwaitFindsFirst | src/K8s/NamespacedClient.cs:95-120 | a wait that succeeds gives the awaited part of the first state in stream order that has it, and every earlier snapshot was passed over |
| NamespacedClient.AwaitReturnsFirst | src/K8s/NamespacedClient.cs:95-120 | conversely, when snapshot k has the awaited part and every earlier snapshot was passed over, the wait returns that part |
| NamespacedClient.AwaitTimesOut | src/K8s/NamespacedClient.cs:95-120 | a wait times out exactly when every snapshot is passed over |
| NamespacedClient.AwaitContainerState | src/K8s/NamespacedClient.cs:65-93 | the watch loop and its consumer give exactly `Await` of the snapshots |
| NamespacedClient.AwaitContainerRunningState | src/K8s/NamespacedClient.cs:95-106 | the first running state, or TimeoutException naming "running" |
| NamespacedClient.AwaitContainerTerminatedState | src/K8s/NamespacedClient.cs:109-120 | the first terminated state, or TimeoutException naming "terminated" |
| Builder.SettingsLayout | src/Builder/Builder.cs:154-164 | the settings flags are the digest file first, then `--dockerfile` and `--context` only when given, in that order |
| Builder.GenerateKanikoArgumentList | src/Builder/Builder.cs:148-167 | the argument list is the digest-file flag, `--dockerfile` and `--context` only when given and in that order, then one `--destination` per tag in order, then the passthrough arguments unchanged |
| Builder.ParseIsLocalContext | src/Builder/Builder.cs:130-146 | an unparsable location raises ArgumentOutOfRange with its message; otherwise the context is local exactly when the URI is relative |
| Builder.MatchingAuthorisers | src/Builder/Builder.cs:92-93 | exactly the authorisers that always mount or whose URL is one of the URLs to authorise, no more than there are; the source uses this selection only for the count in its log line at line 104 |
| Builder.Builder.constructor | src/Builder/Builder.cs:50-54 | the client, pod, context and docker config are kept; the timeout and packet size come from the configuration; `keepPod` holds exactly for the string "true" |
| Builder.Builder.PodNameInKube | src/Builder/Builder.cs:25-36 | the name exists exactly once the server has named the pod, non-empty; before that InvalidOperation with its message |
| Builder.Builder.BuilderName | src/Builder/Builder.cs:37 | `namespace/pod` once the pod is named, the same error before |
| Builder.Builder.Initialise | src/Builder/Builder.cs:169-176 | the server's copy, named `createdName`, replaces the local pod and its name is returned |
| Builder.Builder.DisposeAsync | src/Builder/Builder.cs:109-128 | the pod is deleted exactly when it exists in the cluster and `keepPod` is off; nothing else is asked of the cluster |
| Builder.Builder.Build | src/Builder/Builder.cs:270-330 | success exactly when the pod is named, the started watch won, and the final state has exit code 0, returning its message; a won termination watch raises the start failure with its state; a non-zero exit code raises the build failure |
| Builder.PrepareBuilderPod | src/Builder/Builder.cs:57-95 | a fresh, unnamed pod carrying the config volume, the context volume for a local context, and the kaniko arguments on its builder container |
| Builder.AddAuthorisers | src/Builder/Builder.cs:98-102 | after the loop the docker config is the fold of every authoriser's config change and the pod has every authoriser's patch applied, in list order |
| Builder.NewBuilder | src/Builder/Builder.cs:41-107 | raises exactly for an unparsable context or a local context without its dockerfile; otherwise every authoriser, in list order and whether or not it matches, is folded into a fresh docker config and into the pod |
| Builder.Exclusions | src/Builder/Builder.cs:223-230 | a line becomes an exclusion exactly when it is one of the file's lines and does not start with '#'; there are no more exclusions than lines |
| Builder.ContextMatcherFor | src/Builder/Builder.cs:214-231 | includes everything, then excludes the non-comment lines of `.dockerignore` when the file exists |
| Tagger.FirstMatch | src/Tagger/Tagger.cs:64 | a rule whose template matches, the first such; none exactly when no rule matches |
| Tagger.Tagger.constructor | src/Tagger/Tagger.cs:17-26 | the configuration, the compiled rules and the regular-expression functions are kept as given |
| Tagger.Tagger.TransformTags | src/Tagger/Tagger.cs:34-77 | the result is `Transformed` of the configuration and the input tags |
| Tagger.NewTagger | src/Tagger/Tagger.cs:17-32 | as written, two or more rules raise the not-comparable ArgumentException from the sorted dictionary; otherwise it raises exactly when a static tag sits next to any other option, with its message, and else gives a fresh tagger of that configuration |
| Tagger.CompileSorted | src/Tagger/Tagger.cs:22-26 | filling `SortedDictionary<Regex, string>` succeeds exactly for at most one rule, keeping it; a second rule raises the not-comparable ArgumentException |
| Tagger.CompileInOrder | src/Tagger/Tagger.cs:22-26 | the intended fill keeps every rule in configuration order |
| Tagger.NewOrderedTagger | src/Tagger/Tagger.cs:17-32 | the intended constructor raises exactly when a static tag sits next to any other option, with its message, and otherwise gives a fresh tagger holding every rule in order |
| Tagger.Transformed | src/Tagger/Tagger.cs:34-77 | a static tag wins; an empty list takes the default or else raises InvalidData with its message, and that is the only failure; no rules and no prefix gives the input back; otherwise no more tags than given, and exactly as many with a prefix |
| Tagger.AdjustedShorter | src/Tagger/Tagger.cs:61-73 | each input tag yields at most one output tag |
| Tagger.AdjustedWithPrefix | src/Tagger/Tagger.cs:61-73 | with a prefix no tag is dropped: output i is input i rewritten by its first matching rule, or else prefixed |
| Tagger.PrefixOnly | src/Tagger/Tagger.cs:69-72 | without rules, each output is `prefix/tag`, and removing the prefix gives the tag back |
| Tagger.AdjustedWithoutPrefix | src/Tagger/Tagger.cs:61-73 | without a prefix, a tag no rule matches is dropped, and no tag is dropped exactly when every tag matches some rule |
| ConfigLoader.ConfigLocation | src/Config/Config.cs:27-50 | a set environment variable decides alone: its file if it exists, otherwise no file at all; without it the working directory's file wins over the home one; whatever is chosen exists |
| ConfigLoader.Section | src/Config/Config.cs:82-107 | an absent section gives the defaults; a null section, or one the deserialiser reads as null, is the empty-section error carrying the rest of the root; a deserialiser failure is passed on; a record without undeclared properties is the result, and one with them is the unknown-properties error carrying the section's JSON |
| ConfigLoader.DispatchAsWritten | src/Config/Config.cs:122-145 | as written, any entry that succeeds becomes a pod-only authoriser |
| ConfigLoader.TypeName | src/Config/Config.cs:126-141 | each authoriser class has one of the four known type names |
| ConfigLoader.Dispatch | src/Config/Config.cs:122-145 | corrected dispatch: a success has the class its `type` names, pod-only when there is none; any other type gives "Unknown auth type" with that type |
| ConfigLoader.AuthorisersInOrder | src/Config/Config.cs:115-148 | the list is refused exactly when some element is; otherwise it holds one authoriser per element, in array order |
| ConfigLoader.AuthSection | src/Config/Config.cs:109-151 | no `auth` key gives no authorisers; a successful `auth` is an array with one authoriser per element |
| ConfigLoader.ConfigRoot.constructor | src/Config/Config.cs:52-62 | the root object holds the loaded fields |
| ConfigLoader.ConfigRoot.Take | src/Config/Config.cs:93 | `Remove` hands back what was under the key and leaves the object without it |
| ConfigLoader.ParseAndRemoveStaticConfigSection | src/Config/Config.cs:82-107 | the section is taken out of the root and the result is `Section` of the old root |
| ConfigLoader.ParseAuthorisers | src/Config/Config.cs:109-151 | `auth` is taken out of the root and the result is `AuthSection` of the old root |
| ConfigLoader.AddAuthorisers | src/Config/Config.cs:115-148 | the loop adds one authoriser per element, stopping at the first failure, giving `Authorisers` |
| ConfigLoader.Load | src/Config/Config.cs:25-80 | a root that cannot be read fails the load with its error; a load that succeeds read a root with only the four top-level keys; for any dispatch |
| ConfigLoader.LoadConfig | src/Config/Config.cs:25-80 | the step-by-step load gives exactly `Load` of the host with the dispatch as written |
| ConfigLoader.AcrEntryLoadedAsPodOnly | src/Config/Config.cs:126-133 | as written an "acr" entry loads as a pod-only authoriser that leaves the docker config untouched, where the intended dispatch gives an ACR authoriser that writes into it |
| ConfigLoader.UntypedEntryRefusedAsWritten | src/Config/Config.cs:126-145 | as written an entry without a type is refused as "Unknown auth type ", where the intended dispatch reads it as pod-only |
| ConfigLoader.AsWrittenKeepsDockerConfig | src/Config/Config.cs:126-129 | as written no authoriser read from an `auth` array ever changes the docker config |
| ConfigLoader.AuthSectionAsWrittenKeepsDockerConfig | src/Config/Config.cs:109-151 | as written the authorisers of a successful `auth` section leave the docker config unchanged |
| ConfigLoader.LoadedAsWrittenKeepsDockerConfig | src/Config/Config.cs:64-73 | as written the authorisers of a loaded root object leave the docker config unchanged |
| ConfigLoader.LoadAsWrittenKeepsDockerConfig | src/Config/Config.cs:25-80 | as written, whatever the file says, the configuration `LoadConfig` returns leaves the docker config the build starts with unchanged |
| ConfigLoader.NoFileGivesDefaults | src/Config/Config.cs:58-68 | without a configuration file every section takes its defaults and there are no authorisers, as written and as intended |
| ConfigLoader.LoadedOnlyTopLevelKeys | src/Config/Config.cs:64-73 | for any dispatch, an accepted file has only the four top-level keys; once the parts parse, any other key is refused with what is left of the root, and otherwise the load succeeds |
| ConfigLoader.AbsentOptionsTakeDefaults | src/Config/Config.cs:64-68 | for any dispatch, each top-level option the file leaves out takes its default in the loaded configuration |
| ConfigLoader.LeftoverEmpty | src/Config/Config.cs:70 | nothing is left over exactly when the root holds only the four top-level options |
| PyAuthorisers.PopValue | src/kaniko_remote/authorisers.py:64 | `pop(k, None)` gives the value under the key, or None when the key is absent |
| PyAuthorisers.PopRequired | src/kaniko_remote/authorisers.py:54-57 | `pop(k)` succeeds exactly when the key is present and otherwise raises KeyError naming it |
| PyAuthorisers.NameOf | src/kaniko_remote/authorisers.py:66 | a name is taken only when it is a string, and then it is that string |
| PyAuthorisers.Iterate | src/kaniko_remote/authorisers.py:63 | a list iterates over its items; null, booleans and numbers are not iterable |
| PyAuthorisers.AsMapping | src/kaniko_remote/authorisers.py:64 | only a dict entry can be popped from, and its entries are what is popped |
| PyAuthorisers.ServiceAccountOf | src/kaniko_remote/authorisers.py:120-121 | a service account is used exactly when it is truthy, and it is then that string |
| PyAuthorisers.FromOptions | src/kaniko_remote/authorisers.py:53-117 | a missing `url` is the first KeyError; a constructed authoriser had all four required options, no option beyond the ones it consumes, and keeps the given url |
| PyAuthorisers.FromParts | src/kaniko_remote/authorisers.py:63-117 | once the required options are popped, a construction that succeeds had nothing left over and keeps the url it was given |
| PyAuthorisers.Create | src/kaniko_remote/authorisers.py:53-117 | the constructor's pops and loops give exactly `FromOptions` of the options |
| PyAuthorisers.EnvFromSecretEntry | src/kaniko_remote/authorisers.py:64-71 | an env entry with a truthy `from_secret` is accepted exactly when it has no other key, and then adds that secret; any other key is a ValueError |
| PyAuthorisers.EnvFromConfigMapEntry | src/kaniko_remote/authorisers.py:72-79 | with no truthy `from_secret`, a truthy `from_config_map` is accepted exactly when the entry has no other key, and then adds that config map |
| PyAuthorisers.EnvKeyValueEntry | src/kaniko_remote/authorisers.py:80-87 | with neither source truthy, the entry is accepted exactly when `key` and `value` are truthy, and adds that pair; otherwise it is a ValueError |
| PyAuthorisers.VolumeWithoutMountPath | src/kaniko_remote/authorisers.py:92-94 | a volume with no or a null `mount_path` is the missing-mountPath ValueError |
| PyAuthorisers.VolumeFromSecretEntry | src/kaniko_remote/authorisers.py:96-103 | a volume with a mount path and a truthy `from_secret` is accepted exactly when it has no other key, and adds (secret, path) |
| PyAuthorisers.VolumePops | src/kaniko_remote/authorisers.py:92-104 | popping the earlier keys of a volume leaves the later keys' values |
| PyAuthorisers.VolumeRest | src/kaniko_remote/authorisers.py:99-107 | nothing is left of a volume after its three pops exactly when it had no other key |
| PyAuthorisers.VolumeFromConfigMapEntry | src/kaniko_remote/authorisers.py:104-111 | with no truthy `from_secret`, a truthy `from_config_map` is accepted exactly when the volume has no other key, and adds (config map, path) |
| PyAuthorisers.VolumeWithoutSource | src/kaniko_remote/authorisers.py:112-114 | a volume with a mount path but neither source is a ValueError |
| PyAuthorisers.LeftoverRest | src/kaniko_remote/authorisers.py:116-117 | nothing is left after the constructor's pops exactly when the options had no other key |
| PyAuthorisers.FromOptionsParts | src/kaniko_remote/authorisers.py:53-58 | with the four required options present, construction depends only on their values and the rest |
| PyAuthorisers.OnlyTheRestDiffers | src/kaniko_remote/authorisers.py:116-117 | once the lists parse, any non-empty leftover gives the same unknown-options ValueError |
| PyAuthorisers.AppendEnvFroms | src/kaniko_remote/authorisers.py:123-126 | each loop appends one envFrom per name, in order, to the first container |
| PyAuthorisers.AppendKeyValues | src/kaniko_remote/authorisers.py:127-128 | the loop appends one env var per (key, value) pair, in order |
| PyAuthorisers.AppendVolumes | src/kaniko_remote/authorisers.py:130-135 | each loop appends one volume and one mount per (name, path) pair, in order |
| PyAuthorisers.AppendEnvs | src/kaniko_remote/authorisers.py:123-128 | the env loops add config-map envFroms, then secret envFroms, then key/value vars |
| PyAuthorisers.AppendAllVolumes | src/kaniko_remote/authorisers.py:130-135 | the volume loops add config-map volumes before secret volumes |
| PyAuthorisers.AppendAuthToPod | src/kaniko_remote/authorisers.py:119-137 | the pod returned is the one given, now carrying `Patch` of the authoriser |
| PyAuthorisers.AppendAuthToPodAsWritten | src/kaniko_remote/authorisers.py:119-137 | as written the pod mutation succeeds exactly when there are no config-map envs, key/value envs or volumes, and then it agrees with the corrected one |
| PyAuthorisers.PatchOrder | src/kaniko_remote/authorisers.py:123-135 | every config-map envFrom precedes every secret envFrom and every config-map volume precedes every secret volume, with a writable mount named after each volume |
| PyAuthorisers.ConfigMapEnvEntry | src/kaniko_remote/authorisers.py:72-79 | a lone `from_config_map` env entry adds that config map |
| PyAuthorisers.ConfigMapEnvOptionValues | src/kaniko_remote/authorisers.py:54-58 | the example options hold a url, a null service account, one config-map env, no volumes and nothing else |
| PyAuthorisers.ConfigMapEnvParts | src/kaniko_remote/authorisers.py:63-117 | the example options' lists parse to one config-map env |
| PyAuthorisers.ConfigMapEnvParses | src/kaniko_remote/authorisers.py:53-117 | the example options construct an authoriser with one config-map env |
| PyAuthorisers.ConfigMapEnvBreaksAsWritten | src/kaniko_remote/authorisers.py:123-124 | a valid configuration with a config-map env makes the as-written pod mutation raise AttributeError, where the corrected one adds the config map's envFrom |
| PyAuthorisers.AppendAuthToDockerConfig | src/kaniko_remote/authorisers.py:139-140 | a pod-only authoriser hands the docker config back unchanged |
| PyAuthorisers.ACRFromOptions | src/kaniko_remote/authorisers.py:143-146 | ACR succeeds exactly when pod-only succeeds on the options without `token`, and then its pod-only part is that authoriser and its token the `token` option, or null without one; options with a token that ACR accepts, pod-only refuses |
| PyAuthorisers.TokenIsLeftover | src/kaniko_remote/authorisers.py:116-117 | a `token` option is never consumed by the pod-only constructor |
| PyAuthorisers.GenerateDockerConfig | src/kaniko_remote/authorisers.py:148-164 | the docker config is rewritten in place to `DockerConfigWith` of its old value |
| PyAuthorisers.DockerConfigEffect | src/kaniko_remote/authorisers.py:148-164 | the host's credential helper becomes "acr-env"; a truthy token sets the host's `auths` entry, otherwise `auths` is untouched; other hosts keep their entries |
| PyAuthorisers.TokenAuthDecodes | src/kaniko_remote/authorisers.py:155-157 | the `auth` value decodes to the UTF-8 bytes of the fixed token user, a colon and the token |
| PyAuthorisers.MatchingNames | src/kaniko_remote/authorisers.py:27-29 | the matching names are the configured ones some requested URL starts with |
| PyAuthorisers.AuthoriserNames | src/kaniko_remote/authorisers.py:27-29 | a name is selected exactly when it is always mounted or some requested URL starts with it |
| PyAuthorisers.Construct | src/kaniko_remote/authorisers.py:40-47 | a missing `type` is a KeyError and an unknown one a ValueError naming it; a constructed authoriser is the kind the `type` names, built by that kind's constructor from the options without `type`, and keeps the configuration's `url` |
| PyAuthorisers.GetMatchingAuthorisers | src/kaniko_remote/authorisers.py:23-49 | the selection loop gives `ConstructAll` of the selected configurations, in the runtime's set order |
| PyAuthorisers.ConstructAllKinds | src/kaniko_remote/authorisers.py:38-49 | on success there is one authoriser per selected configuration, in order, each the one `Construct` builds from it, so of the kind its `type` names and with its `url` |
| PyAuthorisers.ConstructAllRejects | src/kaniko_remote/authorisers.py:46-47 | a selected configuration whose `type` is neither "pod-only" nor "acr" fails the whole call |
| PyAuthorisers.UnknownTypeRejected | src/kaniko_remote/authorisers.py:40-47 | a configuration whose `type` is neither "pod-only" nor "acr" is refused |
| PyBuilder.Builder.constructor | src/kaniko_remote/builder.py:20-42 | a new builder keeps its client, destination and token, has no pod and is not stopped |
| PyBuilder.Builder.Create | src/kaniko_remote/builder.py:69-71 | `pod_name` becomes the name of the created pod |
| PyBuilder.Builder.Destroy | src/kaniko_remote/builder.py:75-80 | the pod is deleted exactly when `pod_name` is truthy; the builder ends stopped either way |
| PyBuilder.Builder.Enter | src/kaniko_remote/builder.py:58-62 | entering creates the pod and hands back the builder itself |
| PyBuilder.Builder.Exit | src/kaniko_remote/builder.py:64-67 | leaving destroys the pod and never suppresses an exception |
| PyBuilder.DockerConfigFor | src/kaniko_remote/builder.py:93-104 | without a truthy token the config is only the "acr-env" helper for the registry host; with one it is only an `auths` entry holding the token |
| PyBuilder.DockerConfigForShape | src/kaniko_remote/builder.py:93-104 | the config names the registry host exactly once, under one of the two keys, and the token's `auth` decodes to the fixed user, a colon and the token |
| PyBuilder.Forwarded | src/kaniko_remote/builder.py:122-125 | never more lines are forwarded than were tailed |
| PyBuilder.ForwardedIsPrefix | src/kaniko_remote/builder.py:122-125 | the forwarded lines are a prefix of the log, cut right after the first line read with the builder stopped, and the whole log when none was |
| PyBuilder.Build | src/kaniko_remote/builder.py:120-125 | the forwarding loop passes on exactly `Forwarded` of the tailed lines |
| PyBuilder.UnknownKeyword | src/kaniko_remote/builder.py:44-122 | there is no unknown keyword exactly when every keyword names a parameter; one reported is a keyword that names none |
| PyBuilder.Call | src/kaniko_remote/builder.py:44-122 | a call by name and keywords succeeds exactly when the class has that method and it takes every keyword or takes `**kwargs`; an absent method is an AttributeError naming it, an unknown keyword a TypeError naming it |
| PyBuilder.InitRaisesAsWritten | src/kaniko_remote/builder.py:44-55 | as written `__init__` always raises AttributeError for `build_kaniko_args`; `generate_pod_spec` takes no `kaniko_args` and `add_env_from_secret` does not exist either |
| PyBuilder.StepsRaiseAsWritten | src/kaniko_remote/builder.py:82-122 | as written `setup` and `build` raise AttributeError for `wait_for_container` before any upload or forwarded line, and the upload and tail calls pass `pod`, which those methods do not take |
| K8s.KubectlCommand | src/kaniko_remote/k8s/k8s.py:64-75 | the login command starts with `kubectl`, ends with `get namespace <ns>`, and holds `--kubeconfig k` and `--context c` in their places exactly when each is truthy |
| K8s.SelectState | src/kaniko_remote/k8s/k8s.py:103-116 | a snapshot without a pod status raises AttributeError; exactly one status named after the container yields its state, none yields nothing, more raise the "more than one container" ValueError |
| K8s.SelectStateByIndex | src/kaniko_remote/k8s/k8s.py:104-116 | the one status with the container's name anywhere in the three lists gives its state; a second one raises |
| K8s.Await | src/kaniko_remote/k8s/k8s.py:118-136 | an empty stream returns None, and the only failures are the AttributeError naming the awaited attribute, the one for a missing pod status and the "more than one container" ValueError |
| K8s.AwaitFindsFirst | src/kaniko_remote/k8s/k8s.py:118-136 | a wait that returns a value returns the awaited part of the first yielded state that has one, every earlier snapshot having been passed over |
| K8s.AwaitReturnsFirst | src/kaniko_remote/k8s/k8s.py:118-136 | conversely, when snapshot k yields a state with the awaited part and every earlier snapshot was passed over, the wait returns that part |
| K8s.AwaitEndsWithNone | src/kaniko_remote/k8s/k8s.py:118-136 | a wait returns None exactly when every snapshot of the stream was passed over |
| K8s.AwaitContainerState | src/kaniko_remote/k8s/k8s.py:121-126 | the waiting loop gives exactly `Await` of the stream |
| K8s.WaitForContainerRunningState | src/kaniko_remote/k8s/k8s.py:118-126 | the running wait is `Await` on the `running` part |
| K8s.WaitForContainerTerminatedState | src/kaniko_remote/k8s/k8s.py:128-136 | the terminated wait is `Await` on the `terminated` part |
| K8s.TarEntries | src/kaniko_remote/k8s/k8s.py:177-185 | one tar entry per local file, in order, named `/` plus its relative path when a root is given and the path itself otherwise; the file count is the number of files |
| K8s.PacketsConcat | src/kaniko_remote/k8s/k8s.py:200-202 | the packets read from the buffer put back together are the buffer |
| K8s.PacketSizes | src/kaniko_remote/k8s/k8s.py:200-202 | every packet is non-empty and at most the packet size, every one but the last exactly that size |
| K8s.PacketCount | src/kaniko_remote/k8s/k8s.py:192-202 | there are `ceil(tar_size / packet_size)` packets |
| K8s.CommandGen | src/kaniko_remote/k8s/k8s.py:198-207 | the generator yields the heredoc header, one base64 line per packet, then `EOF`, the decode line and the extract line |
| K8s.Commands | src/kaniko_remote/k8s/k8s.py:198-207 | the commands are the heredoc header, the data lines, then `EOF`, the decode line and the extract line |
| K8s.CommandCount | src/kaniko_remote/k8s/k8s.py:192-222 | the number of commands is the progress total `ceil(tar_size / packet_size) + 4`, and none is empty, so the sending loop stops only when the generator is exhausted |
| K8s.DataLinesRoundTrip | src/kaniko_remote/k8s/k8s.py:199-206 | every data line decodes on its own, and the decoded lines concatenated are the tar buffer |
| K8s.HeredocWithoutNewlines | src/kaniko_remote/k8s/k8s.py:203-206 | the heredoc file with its line breaks taken out is the data lines joined, when no line holds a break |
| K8s.DataLinesJoined | src/kaniko_remote/k8s/k8s.py:199-205 | with packets a multiple of three bytes long, the data lines joined are the Base64 of the whole buffer |
| K8s.UploadRoundTrip | src/kaniko_remote/k8s/k8s.py:198-207 | for a whole-number packet size that is a multiple of three bytes, the pod's one `base64 -d` over the file the heredoc wrote gives back exactly the tar buffer |
| PyLegacySpecs.KanikoImage | src/kaniko_remote/k8s/specs.py:25-27 | the executor image is the debug build exactly when asked for, `latest` otherwise |
| PyLegacySpecs.PodLabels | src/kaniko_remote/k8s/specs.py:38-43 | the labels are the caller's plus the four system labels, which win, with the instance id and the package version |
| PyLegacySpecs.GeneratePodSpec | src/kaniko_remote/k8s/specs.py:16-81 | a fresh v1 Pod: generated name, labels, annotations, no token automount, one `config` volume, a busybox setup container waiting for the docker config and a builder with the chosen image, both sharing one mount list and equal requests and limits |
| PyLegacySpecs.MountContextForExecTransfer | src/kaniko_remote/k8s/specs.py:84-90 | the `context` volume is appended to the pod and its /workspace mount to the builder's (shared) mount list |
| PyLegacySpecs.FirstMissing | src/kaniko_remote/k8s/specs.py:97-99 | nothing is missing exactly when every required argument is present; otherwise the one named is required and absent |
| PyLegacySpecs.SettingsFlags | src/kaniko_remote/k8s/specs.py:106 | one `--key=value` flag per setting, in order |
| PyLegacySpecs.AssembleArgs | src/kaniko_remote/k8s/specs.py:94-106 | the loops fail with the first missing required argument, and otherwise give the flags of the arguments with the defaults filled in |
| PyLegacySpecs.MissingArgument | src/kaniko_remote/k8s/specs.py:94-99 | a missing `context` is reported first, then a missing `destination`; with both present nothing is missing |
| PyLegacySpecs.ArgsOfKwargs | src/kaniko_remote/k8s/specs.py:101-106 | the flags are one per keyword argument in the caller's order, followed by `--dockerfile=.` exactly when no Dockerfile was given |
| PyLegacySpecs.AddKanikoArgs | src/kaniko_remote/k8s/specs.py:93-107 | a missing required argument fails before the pod is touched; otherwise the builder's command is cleared and its args are the flags |
| PyLegacySpecs.ReplaceServiceAccount | src/kaniko_remote/k8s/specs.py:110-113 | the pod gets the service account and token automount, and nothing else of its auth state changes |
| PyLegacySpecs.AppendEnvFromSecret | src/kaniko_remote/k8s/specs.py:116-121 | a secret envFrom reference is appended after the existing ones, and nothing else of its auth state changes |
| PyLegacySpecs.AppendFileMountFromSecret | src/kaniko_remote/k8s/specs.py:124-125 | always raises NotImplementedError |
| PySpecs.PodAnnotations | src/kaniko_remote/k8s_specs.py:52-57 | the annotations are the caller's plus the package version, which wins |
| PySpecs.GeneratePodSpec | src/kaniko_remote/k8s_specs.py:23-93 | a fresh v1 Pod: generated name, system labels and version annotation forced in, no token automount, one `config` volume, a setup container waiting for the docker config and a builder with the given images, both sharing one mount list and equal requests and limits |
| PySpecs.MountContextForExecTransfer | src/kaniko_remote/k8s_specs.py:96-102 | the `context` volume is appended to the pod and its /workspace mount to the builder's (shared) mount list |
| PySpecs.KanikoArgs | src/kaniko_remote/k8s_specs.py:113-134 | one argument per valued setting, per pre-parsed argument and per destination and label, and two per build-arg |
| PySpecs.AssembleKanikoArgs | src/kaniko_remote/k8s_specs.py:105-134 | a missing `destinations` is the ValueError; otherwise the loops give exactly `KanikoArgs` |
| PySpecs.UpdateSettings | src/kaniko_remote/k8s_specs.py:113-123 | the loop setting each keyword argument into the defaults ends with the defaults merged with the keyword arguments, later keys winning |
| PySpecs.FormatSettings | src/kaniko_remote/k8s_specs.py:124 | the loop over the settings gives exactly one `--k=v` flag per valued setting, in order |
| PySpecs.AppendFlags | src/kaniko_remote/k8s_specs.py:128-134 | the loop appends one `--name=v` flag per value, in order, after the existing arguments |
| PySpecs.AppendBuildArgs | src/kaniko_remote/k8s_specs.py:130-132 | the loop appends a `--build-arg` and the value for each build argument, in order, after the existing arguments |
| PySpecs.SetKanikoArgs | src/kaniko_remote/k8s_specs.py:105-138 | a missing `destinations` fails before the pod is touched; otherwise the builder's command is cleared and its args are `KanikoArgs` |
| PySpecs.KanikoSettings | src/kaniko_remote/k8s_specs.py:113-124 | the settings start with `dockerfile` and `digest-file`, hold each key once, and each keyword argument's value wins over the default |
| PySpecs.DockerfileComesFirst | src/kaniko_remote/k8s_specs.py:113-124 | the first argument is the Dockerfile flag: the caller's value, or "Dockerfile" when none was given |
| PySpecs.DefaultSetting | src/kaniko_remote/k8s_specs.py:113-123 | a default keeps its place and value unless a keyword argument names it |
| PySpecs.DigestFileDefault | src/kaniko_remote/k8s_specs.py:115-124 | unless overridden, the digest file flag points at the termination log |
| PySpecs.ReplaceServiceAccount | src/kaniko_remote/k8s_specs.py:141-144 | the pod gets the service account and token automount, and nothing else of its auth state changes |
| PySpecs.AppendEnvFromSecret | src/kaniko_remote/k8s_specs.py:147-152 | a secret envFrom reference is appended after the existing ones |
| PySpecs.AppendEnvFromConfigMap | src/kaniko_remote/k8s_specs.py:155-160 | a config-map envFrom reference is appended after the existing ones |
| PySpecs.AppendEnvVar | src/kaniko_remote/k8s_specs.py:163-168 | an env var is appended after the existing ones |
| PySpecs.AppendVolumeFromSecret | src/kaniko_remote/k8s_specs.py:171-176 | a writable mount and a secret volume, both named after the secret, are appended |
| PySpecs.AppendVolumeFromConfigMap | src/kaniko_remote/k8s_specs.py:179-184 | a writable mount and a config-map volume, both named after the config map, are appended |
| PyTagger.NewTagger | src/kaniko_remote/tagger.py:9-20 | construction fails with the ValueError exactly when both a static tag and a prefix are truthy, and otherwise keeps the three settings |
| PyTagger.Prefixed | src/kaniko_remote/tagger.py:34 | one entry per tag, in order, each the prefix, a slash and the tag |
| PyTagger.PrefixedRoundTrip | src/kaniko_remote/tagger.py:34 | removing the prefix and slash from every entry gives the tags back |
| PyTagger.AdjustTags | src/kaniko_remote/tagger.py:22-38 | a truthy static tag replaces everything, an empty list gives the default, otherwise the length and order are kept and each entry is prefixed when a prefix is truthy and unchanged otherwise |
| PyTagger.ConstructedTaggerIsConsistent | src/kaniko_remote/tagger.py:19-38 | for a constructed tagger a static tag and a prefix never both apply |
| SnakeCase.LowerChar | src/kaniko_remote/config.py:64 | a lowered character is never a capital, and any other character is kept |
| SnakeCase.Lower | src/kaniko_remote/config.py:64 | lowercasing keeps the length and lowers each character in place |
| SnakeCase.UnderscoredShape | src/kaniko_remote/config.py:40 | the substitution keeps every character in order and adds one underscore per capital, so a string without capitals is unchanged |
| SnakeCase.SnakeCaseShape | src/kaniko_remote/config.py:64 | a snake-cased key has no capitals, is one character longer per capital after the first character, and a key without capitals is unchanged |
| SnakeCase.SnakeCaseIdempotent | src/kaniko_remote/config.py:64 | snake-casing twice is snake-casing once |
| SnakeCase.KanikoImageExample | src/kaniko_remote/config.py:64 | "kanikoImage" becomes "kaniko_image" |
| SnakeCase.PodStartTimeoutExample | src/kaniko_remote/config.py:64 | "PodStartTimeout" becomes "pod_start_timeout": no underscore before the first character |
| SnakeCase.LowerAppend | src/kaniko_remote/config.py:64 | lowercasing distributes over concatenation |
| SnakeCase.UnderscoredAppend | src/kaniko_remote/config.py:40 | the substitution distributes over concatenation |
| SnakeCase.SnakeDictDistinct | src/kaniko_remote/config.py:63-64 | the snake-cased dict has each key once |
| SnakeCase.SnakeDictKeys | src/kaniko_remote/config.py:63-64 | the snake-cased dict has exactly the snake-cased keys of the input |
| SnakeCase.SnakeDictIdentity | src/kaniko_remote/config/config.py:56-57 | a dict whose keys have no capitals comes back as it was |
| PyConfig.RStripSlash | src/kaniko_remote/config.py:47 | stripping trailing slashes gives a prefix of the string that does not end in a slash |
| PyConfig.ConfigLocation | src/kaniko_remote/config.py:44-55 | a set environment variable decides alone; otherwise the working directory's file wins over the home directory's, and there is none without either; a found file exists |
| PyConfig.Lookup | src/kaniko_remote/config.py:67 | the plain `{}` of a run without a file has no keys |
| PyConfig.Namespace | src/kaniko_remote/config.py:72-73 | "default" unless the document sets a namespace |
| PyConfig.SnakeObject | src/kaniko_remote/config.py:63-64 | only a dict can be snake-cased, and the result is its snake-cased entries |
| PyConfig.OverDefaultsOverride | src/kaniko_remote/config.py:75-88 | without a section the defaults are returned; otherwise every default key stays, no key repeats and the user's snake-cased keys win key by key |
| PyConfig.DefaultBuilderOptionsDistinct | src/kaniko_remote/config.py:13-26 | the builder defaults name each option once |
| PyConfig.BuilderOptionsOverride | src/kaniko_remote/config.py:75-76 | the builder options keep every default key and the user's snake-cased keys win |
| PyConfig.UrlOf | src/kaniko_remote/config.py:79 | `a["url"]` succeeds exactly on a dict holding `url` |
| PyConfig.AuthEntries | src/kaniko_remote/config.py:79 | without `auth` there are no entries |
| PyConfig.Urls | src/kaniko_remote/config.py:78-79 | one URL per entry, in order, each read from that entry |
| PyConfig.SubsequenceTail | src/kaniko_remote/config.py:81-82 | a subsequence without its first element is still a subsequence |
| PyConfig.SubsequenceSkip | src/kaniko_remote/config.py:81-82 | a subsequence stays one when an element is put in front |
| PyConfig.AlwaysUrlsSubsequence | src/kaniko_remote/config.py:81-82 | when every entry can be read, the always-mounted URLs are a subsequence of all URLs, each from an entry whose `mount` is "always" in any case |
| PyConfig.AlwaysUrlsComplete | src/kaniko_remote/config.py:81-82 | every entry whose `mount` is "always" in any case has its `url` among the always-mounted URLs |
| PyConfig.AlwaysUrlsSound | src/kaniko_remote/config.py:81-82 | every always-mounted URL is the `url` of an entry whose `mount` is "always" in any case |
| PyConfig.Matching | src/kaniko_remote/config.py:85 | every match is an entry with the URL asked for, and every entry's `url` was read |
| PyConfig.MatchingFirst | src/kaniko_remote/config.py:85-87 | there is no match exactly when no entry has the URL; the first match is the earliest entry that has it |
| PyConfig.SnakeEach | src/kaniko_remote/config.py:89-90 | one snake-cased dict per item, in order; every item must be a dict |
| PyConfig.AuthoriserOptionsOfMatch | src/kaniko_remote/config.py:84-91 | without a match the defaults are returned; otherwise each key but `env` and `volumes` is the first match's snake-cased value or the default, and `env` and `volumes` are the match's list (or the default empty one) with each dict snake-cased, so lists of dicts whose keys have no capitals |
| PyConfig.AlwaysUrls | src/kaniko_remote/config.py:81-82 | listing succeeds exactly when every entry's `mount` can be read and every entry whose `mount` is "always" in any case has a `url`; it then gives the `url` of exactly those entries, in order |
| PyConfig.Config.constructor | src/kaniko_remote/config.py:42-61 | a document is loaded exactly when a file was found, and the location kept is the one chosen |
| PyConfig.Config.GetKubeconfig | src/kaniko_remote/config.py:66-67 | None without a file; otherwise the document's `kubernetes.kubeconfig`, or None |
| PyConfig.Config.GetContext | src/kaniko_remote/config.py:69-70 | None without a file; otherwise the document's `kubernetes.context`, or None |
| PyConfig.Config.GetNamespace | src/kaniko_remote/config.py:72-73 | "default" without a file; otherwise the document's `kubernetes.namespace`, or "default" |
| PyConfig.Config.GetBuilderOptions | src/kaniko_remote/config.py:75-76 | the defaults without a file; otherwise every default key is present and no key repeats |
| PyConfig.Config.ListAllAuthorisers | src/kaniko_remote/config.py:78-79 | none without a file; otherwise one URL per `auth` entry, in order, each read from its entry |
| PyConfig.Config.ListAlwaysMountAuthorisers | src/kaniko_remote/config.py:81-82 | none without a file; otherwise the `url` of exactly the entries whose `mount` is "always", in order; when all URLs can be listed, these are a subsequence of them and every always-mounted entry's URL is among them |
| PyConfig.Config.GetAuthoriserOptions | src/kaniko_remote/config.py:84-91 | the defaults without a file; otherwise it succeeds exactly when the `auth` list and the options of its first entry with that `url` can be read, and gives those options, in which `env` and `volumes` are lists of dicts whose keys have no capitals |
| PyConfig.Open | src/kaniko_remote/config.py:42-61 | a failing load of the chosen file fails; otherwise the document is the chosen file's, or none when there is no file |
| PyConfig.NoFileDefaults | src/kaniko_remote/config.py:43-91 | without a configuration file: no kubeconfig, the "default" namespace, the default builder options, no authorisers, and the default options for every URL |
| PyLegacyConfig.AbsPath | src/kaniko_remote/config/config.py:40 | the absolute path starts with the working directory and ends with the relative path |
| PyLegacyConfig.Location | src/kaniko_remote/config/config.py:37-48 | a set environment variable decides alone, unchecked; otherwise the working directory's file wins over the home candidate, and without either the search fails with the not-found ValueError |
| PyLegacyConfig.ConfigLocationAsWritten | src/kaniko_remote/config/config.py:37-48 | as written a set environment variable decides alone; otherwise the file found exists and always lies under the working directory |
| PyLegacyConfig.ConfigLocation | src/kaniko_remote/config/config.py:37-48 | as intended a set environment variable decides alone; otherwise the file found exists, and a file in the home directory is always found |
| PyLegacyConfig.HomeConfigMissedAsWritten | src/kaniko_remote/config/config.py:40-48 | a user whose only configuration file is in their home directory is told there is none, where `expanduser` opens that file |
| PyLegacyConfig.ExpandHome | src/kaniko_remote/config/config.py:40 | `expanduser("~/" + n)` is the home directory, a slash and `n` |
| PyLegacyConfig.SearchesDifferOnlyAtHome | src/kaniko_remote/config/config.py:37-48 | with the environment variable set or a file in the working directory both searches agree; the corrected one finds the home file whenever it exists |
| PyLegacyConfig.Config.constructor | src/kaniko_remote/config/config.py:51-53 | the configuration holds the parsed document |
| PyLegacyConfig.Config.GetKubeconfig | src/kaniko_remote/config/config.py:59-60 | the document's `kubernetes.kubeconfig`, or None |
| PyLegacyConfig.Config.GetNamespace | src/kaniko_remote/config/config.py:62-63 | the document's `kubernetes.namespace`, or "default" |
| PyLegacyConfig.Config.GetBuilderOptions | src/kaniko_remote/config/config.py:65-66 | the defaults without a `builder` section; otherwise every default key is present and no key repeats |
| PyLegacyConfig.Config.ListAllAuthorisers | src/kaniko_remote/config/config.py:68-69 | none without an `auth` section; otherwise one URL per entry, in order, each read from its entry |
| PyLegacyConfig.Config.ListAlwaysMountAuthorisers | src/kaniko_remote/config/config.py:71-72 | of all the URLs, in order, exactly those whose `auth.<url>.always_mount` is truthy |
| PyLegacyConfig.Config.GetAuthoriserOptions | src/kaniko_remote/config/config.py:74-78 | the defaults without an `auth` section; otherwise every default key is present, whichever entry matches |
| PyLegacyConfig.Open | src/kaniko_remote/config/config.py:36-53 | with the as-written search, a failed search or load fails with its error; otherwise the document is the loaded file's |
| PyLegacyConfig.AlwaysMountedFilter | src/kaniko_remote/config/config.py:71-72 | with string URLs the filter succeeds, keeps a subsequence of the URLs, and keeps a URL exactly when its `always_mount` flag is truthy |
| PyLegacyConfig.AlwaysMounted | src/kaniko_remote/config/config.py:71-72 | the filter succeeds only when every URL is a string |
| PyLegacyConfig.AuthoriserOptionsOfMatch | src/kaniko_remote/config/config.py:74-78 | without a match the defaults are returned; otherwise each key is the first match's snake-cased value or the default, and every default key is present |
| PyLegacyConfig.BuilderOptionsOverride | src/kaniko_remote/config/config.py:65-66 | the builder options keep every default key and the user's snake-cased keys win |

## Left out

- Kubernetes transport: pod create/read/delete calls, watch streams, websocket exec, the stream demultiplexer and log tailing are network I/O. The model takes the created pod's name, the snapshot stream and the tailed lines as inputs, and records deletions in a `PodClient`.
- The C# upload methods of `src/K8s/NamespacedClient.cs` are unfinished code, partly pasted Python. They are not modelled; the Python upload's tar entries and commands are.
- The send loop of `upload_local_dir_to_container` talks to a websocket. Only the commands it sends, and the fact that it stops when the generator is exhausted, are modelled.
- `Task.WhenAny` races, cancellation tokens, timers and the Ctrl-C handler are concurrency and timing. The winner of the race in `Builder.cs` is a parameter.
- The progress-bar percentage and tqdm are floating point and console output. Only the tqdm total is modelled, as the command count.
- Logging everywhere is left out. This includes the Python warning about several service accounts in `get_matching_authorisers` and the authoriser match count in `Builder.cs`, which feeds only a log line.
- Console UI and CLI wiring (`Program.cs`, `BuildCommand.cs`, `main.py`, the loggers) are outside the core.
- Regex matching and replacement in `Tagger.cs`, URI host and path extraction, and `urlparse(...).hostname` are function parameters.
- PyConfig.DefaultBuilderOptions: `pod_transfer_packet_size` is the float `9e3` in the source and the integer 9000 here. Floating point is not modelled. Handed on unchanged, the float would make `tar_buffer.read` at src/kaniko_remote/k8s/k8s.py:202 raise TypeError; the model of the upload takes the packet size as a whole number and does not claim that the default reaches it.
- PyBuilder.Builder.constructor: models the fields `__init__` evidently intends. As written `__init__` always raises (see Findings), and its kaniko arguments and pod spec are not stored; they are the `PyLegacySpecs` operations, modelled separately.
- PyBuilder.Build: models the log forwarding `build` evidently intends. As written `build` raises before forwarding any line (see Findings).
- PyBuilder.Call: models only the method lookup and unknown keywords; missing required arguments and the arguments' values are not checked.
- K8s.CommandGen: a packet size of zero or less, which would make `tar_buffer.read` loop or fail, is excluded by a precondition.
- SnakeCase.Lower: lowercasing covers the ASCII letters only. Python's `str.lower` also folds other Unicode letters.
- Python values of a kind the model does not follow map to `Error.Unmodelled` instead of the exception Python would raise. Examples are a non-string URL used as a name, or a YAML scalar where a dict or list is iterated.
- YAML parsing and its errors, file reads, and the deserialiser errors of the C# configuration are results of host parameters.
- PyAuthorisers.GetMatchingAuthorisers: `pop("type")` mutates the shared `_default_auth_options` dict when a URL has no match. Because the names passed in always come from the configuration, that sharing is not modelled.
- A URL without a host, where `urlparse(...).hostname` would be None, is not modelled: the hostname parameter returns a string.
- `Exceptions`: `KubernetesConfigException` (src/Exceptions.cs:37-40) is thrown nowhere in the modelled core, and the suppressed `StackTrace` (src/Exceptions.cs:13) only affects display; neither is modelled.
- K8s.UploadRoundTrip: proved for packet sizes that are a multiple of three. With another size every packet but the last carries padding, which `base64 -d` over the whole file does not accept, so the general case is not claimed. The configured default, the float `9e3`, is not a whole number, so it is not one of the sizes covered (see the PyConfig.DefaultBuilderOptions line).
- GCR.FromOptions: keeps the project as written, the first segment of the whole path, which is empty for a URL with a path; `IntendedProject` is stated beside it (see Findings) but not used by it.
- Tagger.NewTagger: the sorted dictionary's failure is modelled from the default comparer's behaviour on a type that is not comparable: the first key is inserted uncompared and the second raises.

## Findings

Where the source cannot behave as evidently intended, the model keeps both
halves. The operations that the rest of the model builds on follow the
source as written: `ConfigLoader.LoadConfig` dispatches with
`DispatchAsWritten`, `PyLegacyConfig.Open` searches with
`ConfigLocationAsWritten`, and `Tagger.NewTagger` fills the sorted
dictionary. The corrected members are stated and proved beside them. The
Python builder is the exception: as written, none of its steps gets past its
first call, so its class models the steps as intended, and the raising calls
are modelled by name.

| source | as written | input that shows it | evidently intended | confidence | as-written member | corrected member |
|---|---|---|---|---|---|---|
| src/kaniko_remote/authorisers.py:9 | `append_auth_to_pod` (lines 119-137) calls `append_env_from_config_map`, `append_env_var` and both `append_volume_from_*` on `K8sSpecs` imported from the older `k8s/specs.py`, which has none of them, so they raise AttributeError | options `{url: "myregistry.azurecr.io", service_account: None, env: [{from_config_map: "my-config"}], volumes: []}`, lemma PyAuthorisers.ConfigMapEnvBreaksAsWritten | use the mutators of `k8s_specs.py`, so the pod gets a config-map envFrom, as the authoriser tests expect | not executed | PyAuthorisers.AppendAuthToPodAsWritten | PyAuthorisers.AppendAuthToPod |
| src/Config/Config.cs:126 | the `pod-only` case guard `authType != null \|\| ...` sends every typed entry to `PodOnly`, and an untyped entry to "Unknown auth type " | an `auth` entry `{type: "acr", url: ...}`, lemmas ConfigLoader.AcrEntryLoadedAsPodOnly and ConfigLoader.UntypedEntryRefusedAsWritten | dispatch on the named type, with a missing type meaning pod-only | not executed | ConfigLoader.DispatchAsWritten | ConfigLoader.Dispatch |
| src/kaniko_remote/config/config.py:40 | `os.path.abspath("~/.kaniko-remote.yaml")` joins `~` to the working directory instead of expanding it | no environment variable, working directory "/work", only "/home/user/.kaniko-remote.yaml" exists, lemma PyLegacyConfig.HomeConfigMissedAsWritten | `os.path.expanduser`, as the later `config.py` does | not executed | PyLegacyConfig.ConfigLocationAsWritten | PyLegacyConfig.ConfigLocation |
| src/Tagger/Tagger.cs:22 | the rules go into `new SortedDictionary<Regex, string>()` with no comparer; `Regex` is not comparable, so the second `Add` raises ArgumentException | a `tags` configuration with two regex rules, method Tagger.CompileSorted | keep the rules in configuration order, which is the order `TransformTags` tries them in | not executed | Tagger.NewTagger | Tagger.NewOrderedTagger |
| src/kaniko_remote/builder.py:44 | `__init__` calls `K8sSpecs.build_kaniko_args`, which the imported `k8s/specs.py` does not define; `generate_pod_spec` takes no `kaniko_args` and `add_env_from_secret` (line 55) does not exist | any builder, lemma PyBuilder.InitRaisesAsWritten | build the arguments and the pod spec with the specs module's `add_kaniko_args` and `append_env_from_secret` | not executed | PyBuilder.InitRaisesAsWritten | PyBuilder.Builder.constructor |
| src/kaniko_remote/builder.py:121 | `setup` and `build` await `self.k8s.wait_for_container`, which `K8sWrapper` does not have, and pass `pod=` to `upload_local_dir_to_container` and `tail_container`, which take `pod_name` | any builder, lemma PyBuilder.StepsRaiseAsWritten | wait with `wait_for_container_running_state`, then forward the tailed lines until the builder is stopped | not executed | PyBuilder.StepsRaiseAsWritten | PyBuilder.Build |
| src/Auth/GCR.cs:26 | the project is `new UriBuilder(url).Path.Split("/").First()`; the path starts with '/', so the first segment is empty | url "gcr.io/my-project" with `mount: onMatch` and no `project`: path "/my-project", project "", lemma GCR.RootedPathGivesEmptyProject | the first name after the leading '/', "my-project" | not executed | GCR.RootedPathGivesEmptyProject | GCR.IntendedProjectIsFirstName |
