/**
 * The C# Google Container Registry authoriser (src/Auth/GCR.cs): a pod-only
 * authoriser that also points `https://gcr.io/<project>/` at the `gcr-env`
 * credential helper.
 */
module GCR {
  import opened Wrappers
  import opened Json
  import opened Errors
  import opened Authoriser
  import opened DockerConfigs
  import PodOnly

  datatype GCRAuth = GCRAuth(podOnly: PodOnly.PodOnlyAuth, project: string)

  const ProjectMessage := "Invalid configuration for GCR auth, must have 'project' specified or parsable from url"
  const CredHelper := "gcr-env"

  /** `s.Split("/").First()`: everything before the first '/'. */
  function FirstSegment(s: string): (r: string)
    ensures |r| <= |s| && r == s[..|r|]
    ensures '/' !in r
    ensures |r| < |s| ==> s[|r|] == '/'
  {
    if |s| == 0 || s[0] == '/' then "" else [s[0]] + FirstSegment(s[1..])
  }

  /**
   * The constructor: the pod-only options first, then the project, explicit
   * or the first segment of the URL's path as `uriPath`
   * (`new UriBuilder(url).Path`) gives it.
   */
  function FromOptions(options: Dict<Json>, uriPath: string -> string): (r: Result<GCRAuth, Error>)
    ensures r.Success? <==>
      PodOnly.FromOptions(options).Success? && GetString(options, "project").Success? &&
      (GetString(options, "project").value.Some? || !PodOnly.FromOptions(options).value.base.AlwaysMount())
    ensures r.Success? ==> PodOnly.FromOptions(options) == Success(r.value.podOnly)
    ensures r.Success? && GetString(options, "project") != Success(None) ==>
      GetString(options, "project") == Success(Some(r.value.project))
    ensures r.Success? && GetString(options, "project") == Success(None) ==>
      !r.value.podOnly.base.AlwaysMount() && r.value.project == FirstSegment(uriPath(r.value.podOnly.base.urlToMatch.value))
    ensures (PodOnly.FromOptions(options).Success? && GetString(options, "project") == Success(None) &&
             PodOnly.FromOptions(options).value.base.AlwaysMount()) ==>
      r == Failure(InvalidConfig(ProjectMessage, Some(JObject(options))))
  {
    var podOnly :- PodOnly.FromOptions(options);
    var project :- GetString(options, "project");
    var resolved :-
      if project.Some? then Success(project.value)
      else if podOnly.base.AlwaysMount() then Failure(InvalidConfig(ProjectMessage, Some(JObject(options))))
      else Success(FirstSegment(uriPath(podOnly.base.urlToMatch.value)));
    Success(GCRAuth(podOnly, resolved))
  }

  /**
   * As written, a project taken from a URL path that starts with '/' (as
   * `UriBuilder.Path` does) is the empty string.
   */
  lemma RootedPathGivesEmptyProject(path: string)
    requires |path| > 0 && path[0] == '/'
    ensures FirstSegment(path) == ""
  {
  }

  /**
   * The project evidently meant: the first name of the path after the
   * registry host, that is, the first segment after the path's leading '/'.
   */
  function IntendedProject(path: string): string
  {
    if |path| > 0 && path[0] == '/' then FirstSegment(path[1..]) else FirstSegment(path)
  }

  /** A name without '/' is its own first segment, whatever follows it after a '/'. */
  lemma {:induction false} FirstSegmentOfName(name: string, rest: string)
    requires '/' !in name
    ensures FirstSegment(name) == name
    ensures FirstSegment(name + "/" + rest) == name
  {
    if |name| > 0 {
      FirstSegmentOfName(name[1..], rest);
      assert (name + "/" + rest)[1..] == name[1..] + "/" + rest;
      assert [name[0]] + name[1..] == name;
    }
  }

  /** The intended project of "/p" or "/p/..." is the name `p`. */
  lemma IntendedProjectIsFirstName(project: string, rest: string)
    requires '/' !in project
    ensures IntendedProject("/" + project) == project
    ensures IntendedProject("/" + project + "/" + rest) == project
  {
    FirstSegmentOfName(project, rest);
    assert ("/" + project)[1..] == project;
    assert ("/" + project + "/" + rest)[1..] == project + "/" + rest;
  }

  /** The credential-helper key of a project. */
  function RegistryKey(project: string): string
  {
    "https://gcr.io/" + project + "/"
  }

  function DockerConfigWith(a: GCRAuth, c: DockerConfig): DockerConfig
  {
    WithCredHelper(c, RegistryKey(a.project), CredHelper)
  }

  /** AppendAuthToDockerConfig, writing into the shared document in place. */
  method AppendAuthToDockerConfig(a: GCRAuth, doc: DockerConfigDocument)
    modifies doc
    ensures doc.Value() == DockerConfigWith(a, old(doc.Value()))
  {
    doc.SetCredHelper(RegistryKey(a.project), CredHelper);
  }

  /**
   * The project's key gets the `gcr-env` helper, `credHelpers` is created if
   * absent, other helpers are kept and `auths` is untouched.
   */
  lemma DockerConfigEffect(a: GCRAuth, c: DockerConfig)
    ensures var r := DockerConfigWith(a, c);
      && r.credHelpers.Some? && r.credHelpers.value[RegistryKey(a.project)] == CredHelper
      && r.auths == c.auths
      && (forall k :: k != RegistryKey(a.project) ==> (k in r.credHelpers.value <==> k in c.credHelpers.GetOr(map[])))
      && (forall k :: k != RegistryKey(a.project) && k in r.credHelpers.value ==> r.credHelpers.value[k] == c.credHelpers.value[k])
  {
    WithCredHelperEffect(c, RegistryKey(a.project), CredHelper);
  }

  lemma DockerConfigIdempotent(a: GCRAuth, c: DockerConfig)
    ensures DockerConfigWith(a, DockerConfigWith(a, c)) == DockerConfigWith(a, c)
  {
    WithCredHelperIdempotent(c, RegistryKey(a.project), CredHelper);
  }
}
