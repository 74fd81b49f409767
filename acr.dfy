/**
 * The C# Azure Container Registry authoriser (src/Auth/ACR.cs). It is a
 * pod-only authoriser as well, so it parses and applies the same pod
 * options; in addition it points the registry at the `acr-env` credential
 * helper and, when a token is configured, writes the token into `auths`.
 */
module ACR {
  import opened Wrappers
  import opened Json
  import opened Errors
  import opened Authoriser
  import opened DockerConfigs
  import opened Base64
  import PodOnly

  datatype ACRAuth = ACRAuth(podOnly: PodOnly.PodOnlyAuth, registryHostname: string, acrToken: Option<string>)

  const RegistryMessage := "Invalid configuration for ACR auth, must have 'registry' specified or parsable from url"
  /** The fixed user name ACR expects in front of a repository-scoped token. */
  const TokenUser := "00000000-0000-0000-0000-000000000000"
  const CredHelper := "acr-env"

  /**
   * The constructor: the pod-only options first, then the registry host,
   * explicit or taken from the URL by `uriHost` (`new UriBuilder(url).Host`),
   * then the optional token.
   */
  function FromOptions(options: Dict<Json>, uriHost: string -> string): (r: Result<ACRAuth, Error>)
    ensures r.Success? <==>
      PodOnly.FromOptions(options).Success? && GetString(options, "registry").Success? && GetString(options, "token").Success? &&
      (GetString(options, "registry").value.Some? || !PodOnly.FromOptions(options).value.base.AlwaysMount())
    ensures r.Success? ==> PodOnly.FromOptions(options) == Success(r.value.podOnly)
    ensures r.Success? && GetString(options, "registry") != Success(None) ==>
      GetString(options, "registry") == Success(Some(r.value.registryHostname))
    ensures r.Success? && GetString(options, "registry") == Success(None) ==>
      !r.value.podOnly.base.AlwaysMount() && r.value.registryHostname == uriHost(r.value.podOnly.base.urlToMatch.value)
    ensures (PodOnly.FromOptions(options).Success? && GetString(options, "registry") == Success(None) &&
             PodOnly.FromOptions(options).value.base.AlwaysMount()) ==>
      r == Failure(InvalidConfig(RegistryMessage, Some(JObject(options))))
    ensures r.Success? ==> GetString(options, "token") == Success(r.value.acrToken)
  {
    var podOnly :- PodOnly.FromOptions(options);
    var registry :- GetString(options, "registry");
    var host :-
      if registry.Some? then Success(registry.value)
      else if podOnly.base.AlwaysMount() then Failure(InvalidConfig(RegistryMessage, Some(JObject(options))))
      else Success(uriHost(podOnly.base.urlToMatch.value));
    var token :- GetString(options, "token");
    Success(ACRAuth(podOnly, host, token))
  }

  /** The `auth` value of a token: Base64 of the ASCII bytes of `user:token`. */
  function TokenAuth(token: string): RegistryAuth
  {
    RegistryAuth(Encode(AsciiBytes(TokenUser + ":" + token)))
  }

  /** The document after AppendAuthToDockerConfig. */
  function DockerConfigWith(a: ACRAuth, c: DockerConfig): DockerConfig
  {
    var withToken := if a.acrToken.Some? then WithAuth(c, a.registryHostname, TokenAuth(a.acrToken.value)) else c;
    WithCredHelper(withToken, a.registryHostname, CredHelper)
  }

  /** AppendAuthToDockerConfig, writing into the shared document in place. */
  method AppendAuthToDockerConfig(a: ACRAuth, doc: DockerConfigDocument)
    modifies doc
    ensures doc.Value() == DockerConfigWith(a, old(doc.Value()))
  {
    if a.acrToken.Some? {
      doc.SetAuth(a.registryHostname, TokenAuth(a.acrToken.value));
    }
    doc.SetCredHelper(a.registryHostname, CredHelper);
  }

  /**
   * The registry always gets the `acr-env` helper; its `auths` entry is the
   * token's exactly when a token is configured and is otherwise left as it
   * was; `auths` is created only to hold a token; every other registry's
   * entries are kept.
   */
  lemma DockerConfigEffect(a: ACRAuth, c: DockerConfig)
    ensures var r := DockerConfigWith(a, c);
      && r.credHelpers.Some? && r.credHelpers.value[a.registryHostname] == CredHelper
      && (a.acrToken.Some? ==> r.auths.Some? && r.auths.value[a.registryHostname] == TokenAuth(a.acrToken.value))
      && (a.acrToken.None? ==> r.auths == c.auths)
      && (forall k :: k != a.registryHostname ==> (k in r.auths.GetOr(map[]) <==> k in c.auths.GetOr(map[])))
      && (forall k :: k != a.registryHostname && k in r.auths.GetOr(map[]) ==> r.auths.value[k] == c.auths.value[k])
      && (forall k :: k != a.registryHostname ==> (k in r.credHelpers.value <==> k in c.credHelpers.GetOr(map[])))
      && (forall k :: k != a.registryHostname && k in r.credHelpers.value ==> r.credHelpers.value[k] == c.credHelpers.value[k])
  {
    var withToken := if a.acrToken.Some? then WithAuth(c, a.registryHostname, TokenAuth(a.acrToken.value)) else c;
    if a.acrToken.Some? {
      WithAuthEffect(c, a.registryHostname, TokenAuth(a.acrToken.value));
    }
    WithCredHelperEffect(withToken, a.registryHostname, CredHelper);
  }

  /** Appending the same authoriser twice gives the document of appending it once. */
  lemma DockerConfigIdempotent(a: ACRAuth, c: DockerConfig)
    ensures DockerConfigWith(a, DockerConfigWith(a, c)) == DockerConfigWith(a, c)
  {
    var host := a.registryHostname;
    if a.acrToken.Some? {
      var e := TokenAuth(a.acrToken.value);
      WithAuthCredHelperCommute(WithAuth(c, host, e), host, e, host, CredHelper);
      WithAuthIdempotent(c, host, e);
      WithCredHelperIdempotent(WithAuth(c, host, e), host, CredHelper);
    } else {
      WithCredHelperIdempotent(c, host, CredHelper);
    }
  }

  /** The written `auth` decodes back to exactly the bytes of `user:token`. */
  lemma TokenAuthDecodes(token: string)
    ensures Decode(TokenAuth(token).auth) == Some(AsciiBytes(TokenUser + ":" + token))
  {
    DecodeEncode(AsciiBytes(TokenUser + ":" + token));
  }
}
