/**
 * The C# authoriser hierarchy seen from its callers (src/Auth/Authoriser.cs
 * and its subclasses): one closed datatype with a case per concrete class,
 * and the two virtual methods dispatched by case. ACR and GCR inherit the
 * pod mutation of PodOnlyAuth; DockerHub hands the pod back untouched.
 */
module AuthVariants {
  import opened Wrappers
  import opened K8sModels
  import opened DockerConfigs
  import opened Authoriser
  import PodOnly
  import ACR
  import GCR
  import DockerHub

  datatype Auth =
    | PodOnlyAuth(podOnly: PodOnly.PodOnlyAuth)
    | ACRAuth(acr: ACR.ACRAuth)
    | GCRAuth(gcr: GCR.GCRAuth)
    | DockerHubAuth(dockerHub: DockerHub.DockerHubAuth)

  /** The fields the abstract base class holds. */
  function Base(a: Auth): AuthBase
  {
    match a
    case PodOnlyAuth(p) => p.base
    case ACRAuth(acr) => acr.podOnly.base
    case GCRAuth(gcr) => gcr.podOnly.base
    case DockerHubAuth(d) => d.base
  }

  /** The pod mutation each class performs, as a patch. */
  function Patch(a: Auth): (p: PodPatch)
    ensures a.DockerHubAuth? ==> p == NoPatch
  {
    match a
    case PodOnlyAuth(p) => PodOnly.Patch(p)
    case ACRAuth(acr) => PodOnly.Patch(acr.podOnly)
    case GCRAuth(gcr) => PodOnly.Patch(gcr.podOnly)
    case DockerHubAuth(_) => NoPatch
  }

  /** The docker config after each class's `AppendAuthToDockerConfig`. */
  function DockerConfigWith(a: Auth, c: DockerConfig): (r: DockerConfig)
    ensures a.PodOnlyAuth? ==> r == c
  {
    match a
    case PodOnlyAuth(_) => PodOnly.AppendAuthToDockerConfig(c)
    case ACRAuth(acr) => ACR.DockerConfigWith(acr, c)
    case GCRAuth(gcr) => GCR.DockerConfigWith(gcr, c)
    case DockerHubAuth(d) => DockerHub.DockerConfigWith(d, c)
  }

  /** The virtual `AppendAuthToDockerConfig`, writing into the shared document. */
  method AppendAuthToDockerConfig(a: Auth, doc: DockerConfigDocument)
    modifies doc
    ensures doc.Value() == DockerConfigWith(a, old(doc.Value()))
  {
    match a
    case PodOnlyAuth(_) =>
    case ACRAuth(acr) => ACR.AppendAuthToDockerConfig(acr, doc);
    case GCRAuth(gcr) => GCR.AppendAuthToDockerConfig(gcr, doc);
    case DockerHubAuth(d) => DockerHub.AppendAuthToDockerConfig(d, doc);
  }

  /** The virtual `AppendAuthToPod`, mutating the pod in place and returning it. */
  method AppendAuthToPod(a: Auth, pod: Pod) returns (r: Pod)
    requires |pod.spec.containers| > 0
    modifies pod.spec`serviceAccountName, pod.spec`automountServiceAccountToken, pod.spec`volumes
    modifies FirstContainer(pod)`env, FirstContainer(pod)`envFrom, FirstContainer(pod).volumeMounts
    ensures r == pod
    ensures AuthStateOf(pod) == Apply(old(AuthStateOf(pod)), Patch(a))
  {
    match a
    case PodOnlyAuth(p) => r := PodOnly.AppendAuthToPod(p, pod);
    case ACRAuth(acr) => r := PodOnly.AppendAuthToPod(acr.podOnly, pod);
    case GCRAuth(gcr) => r := PodOnly.AppendAuthToPod(gcr.podOnly, pod);
    case DockerHubAuth(d) =>
      r := DockerHub.AppendAuthToPod(d, pod);
      assert AuthStateOf(pod).volumes + [] == AuthStateOf(pod).volumes;
      assert AuthStateOf(pod).mounts + [] == AuthStateOf(pod).mounts;
  }

  /** The docker config after folding `auths` in list order. */
  function ConfigAfter(auths: seq<Auth>, c: DockerConfig): DockerConfig
  {
    if |auths| == 0 then c else DockerConfigWith(auths[|auths| - 1], ConfigAfter(auths[..|auths| - 1], c))
  }

  /** The combined pod patch of `auths` in list order. */
  function PatchOf(auths: seq<Auth>): PodPatch
  {
    if |auths| == 0 then NoPatch else Then(PatchOf(auths[..|auths| - 1]), Patch(auths[|auths| - 1]))
  }

  /** A pod-only authoriser never touches the docker config, so a list of them leaves it as it was. */
  lemma {:induction false} PodOnlyKeepsConfig(auths: seq<Auth>, c: DockerConfig)
    requires forall i :: 0 <= i < |auths| ==> auths[i].PodOnlyAuth?
    ensures ConfigAfter(auths, c) == c
  {
    if |auths| > 0 {
      PodOnlyKeepsConfig(auths[..|auths| - 1], c);
    }
  }
}
