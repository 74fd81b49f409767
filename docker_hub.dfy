/**
 * The C# Docker Hub authoriser (src/Auth/DockerHub.cs): a user name and
 * password written into `auths` for the Docker Hub registry; the pod is
 * left as it is.
 */
module DockerHub {
  import opened Wrappers
  import opened Json
  import opened Errors
  import opened Authoriser
  import opened DockerConfigs
  import opened Base64
  import opened K8sModels

  datatype DockerHubAuth = DockerHubAuth(base: AuthBase, username: string, password: string)

  const CredentialsMessage := "Invalid configuration for DockerHub auth, must have 'username' and 'password' specified"
  const Registry := "https://index.docker.io/v1/"

  /** The constructor: the base validation, then both credentials, which must be present. */
  function FromOptions(options: Dict<Json>): (r: Result<DockerHubAuth, Error>)
    ensures r.Success? <==>
      ParseAuthBase(options).Success? && GetString(options, "username").Success? && GetString(options, "password").Success? &&
      GetString(options, "username").value.Some? && GetString(options, "password").value.Some?
    ensures r.Success? ==> ParseAuthBase(options) == Success(r.value.base)
    ensures r.Success? ==>
      GetString(options, "username") == Success(Some(r.value.username)) &&
      GetString(options, "password") == Success(Some(r.value.password))
    ensures (ParseAuthBase(options).Success? && GetString(options, "username").Success? &&
             GetString(options, "password").Success? &&
             (GetString(options, "username").value.None? || GetString(options, "password").value.None?)) ==>
      r == Failure(InvalidConfig(CredentialsMessage, Some(JObject(options))))
  {
    var base :- ParseAuthBase(options);
    var username :- GetString(options, "username");
    var password :- GetString(options, "password");
    if username.None? || password.None? then Failure(InvalidConfig(CredentialsMessage, Some(JObject(options))))
    else Success(DockerHubAuth(base, username.value, password.value))
  }

  /** The `auth` value: Base64 of the ASCII bytes of `user:password`. */
  function CredentialsAuth(username: string, password: string): RegistryAuth
  {
    RegistryAuth(Encode(AsciiBytes(username + ":" + password)))
  }

  function DockerConfigWith(a: DockerHubAuth, c: DockerConfig): DockerConfig
  {
    WithAuth(c, Registry, CredentialsAuth(a.username, a.password))
  }

  /** AppendAuthToDockerConfig, writing into the shared document in place. */
  method AppendAuthToDockerConfig(a: DockerHubAuth, doc: DockerConfigDocument)
    modifies doc
    ensures doc.Value() == DockerConfigWith(a, old(doc.Value()))
  {
    doc.SetAuth(Registry, CredentialsAuth(a.username, a.password));
  }

  /** AppendAuthToPod hands the pod back untouched. */
  method AppendAuthToPod(a: DockerHubAuth, pod: Pod) returns (r: Pod)
    ensures r == pod
  {
    r := pod;
  }

  /**
   * The Docker Hub entry is set, `auths` is created if absent, other
   * registries' entries are kept and `credHelpers` is untouched.
   */
  lemma DockerConfigEffect(a: DockerHubAuth, c: DockerConfig)
    ensures var r := DockerConfigWith(a, c);
      && r.auths.Some? && r.auths.value[Registry] == CredentialsAuth(a.username, a.password)
      && r.credHelpers == c.credHelpers
      && (forall k :: k != Registry ==> (k in r.auths.value <==> k in c.auths.GetOr(map[])))
      && (forall k :: k != Registry && k in r.auths.value ==> r.auths.value[k] == c.auths.value[k])
  {
    WithAuthEffect(c, Registry, CredentialsAuth(a.username, a.password));
  }

  lemma DockerConfigIdempotent(a: DockerHubAuth, c: DockerConfig)
    ensures DockerConfigWith(a, DockerConfigWith(a, c)) == DockerConfigWith(a, c)
  {
    WithAuthIdempotent(c, Registry, CredentialsAuth(a.username, a.password));
  }

  /**
   * For ASCII credentials whose user name has no ':', the written `auth`
   * determines the user name and the password.
   */
  lemma CredentialsAuthInjective(u1: string, p1: string, u2: string, p2: string)
    requires IsAscii(u1) && IsAscii(p1) && IsAscii(u2) && IsAscii(p2)
    requires ':' !in u1 && ':' !in u2
    requires CredentialsAuth(u1, p1) == CredentialsAuth(u2, p2)
    ensures u1 == u2 && p1 == p2
  {
    var s1, s2 := u1 + ":" + p1, u2 + ":" + p2;
    assert IsAscii(s1) && IsAscii(s2) by {
      assert forall i :: 0 <= i < |s1| ==> s1[i] as int < 128 by {
        forall i | 0 <= i < |s1| ensures s1[i] as int < 128 {
          if i < |u1| { assert s1[i] == u1[i]; } else if i > |u1| { assert s1[i] == p1[i - |u1| - 1]; }
        }
      }
      assert forall i :: 0 <= i < |s2| ==> s2[i] as int < 128 by {
        forall i | 0 <= i < |s2| ensures s2[i] as int < 128 {
          if i < |u2| { assert s2[i] == u2[i]; } else if i > |u2| { assert s2[i] == p2[i - |u2| - 1]; }
        }
      }
    }
    EncodeInjective(AsciiBytes(s1), AsciiBytes(s2));
    AsciiBytesInjective(s1, s2);
    ColonSplit(u1, p1, u2, p2);
  }

  /** The position of the first ':' in `s`, or its length when there is none. */
  function ColonIndex(s: string): (n: nat)
    ensures n <= |s|
  {
    if |s| == 0 || s[0] == ':' then 0 else 1 + ColonIndex(s[1..])
  }

  lemma {:induction false} ColonIndexOfJoin(u: string, p: string)
    requires ':' !in u
    ensures ColonIndex(u + ":" + p) == |u|
  {
    if |u| > 0 {
      assert (u + ":" + p)[1..] == u[1..] + ":" + p;
      ColonIndexOfJoin(u[1..], p);
    }
  }

  /** Joining at the first ':' is undone by splitting there. */
  lemma ColonSplit(u1: string, p1: string, u2: string, p2: string)
    requires ':' !in u1 && ':' !in u2
    requires u1 + ":" + p1 == u2 + ":" + p2
    ensures u1 == u2 && p1 == p2
  {
    var s := u1 + ":" + p1;
    ColonIndexOfJoin(u1, p1);
    ColonIndexOfJoin(u2, p2);
    assert u1 == s[..|u1|] == u2;
    assert p1 == s[|u1| + 1..] == p2;
  }
}
