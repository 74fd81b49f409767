/**
 * The docker `config.json` document the authorisers write into: a JSON
 * object whose `auths` and `credHelpers` members are created on first use
 * and then filled key by key. The document is one object that every
 * authoriser updates in place.
 */
module DockerConfigs {
  import opened Wrappers

  /** An `auths` entry: `{"auth": <base64 of user:password>}`. */
  datatype RegistryAuth = RegistryAuth(auth: string)

  datatype DockerConfig = DockerConfig(
    auths: Option<map<string, RegistryAuth>>,
    credHelpers: Option<map<string, string>>)

  /** The `{}` a build starts from. */
  const EmptyDockerConfig := DockerConfig(None, None)

  /** `config["auths"] ??= {}; config["auths"][registry] = entry`. */
  function WithAuth(c: DockerConfig, registry: string, entry: RegistryAuth): DockerConfig
  {
    c.(auths := Some(c.auths.GetOr(map[])[registry := entry]))
  }

  /** `config["credHelpers"] ??= {}; config["credHelpers"][registry] = helper`. */
  function WithCredHelper(c: DockerConfig, registry: string, helper: string): DockerConfig
  {
    c.(credHelpers := Some(c.credHelpers.GetOr(map[])[registry := helper]))
  }

  /**
   * Writing an `auths` entry sets that registry's entry, keeps every other
   * registry's entry, and leaves `credHelpers` alone.
   */
  lemma WithAuthEffect(c: DockerConfig, registry: string, entry: RegistryAuth)
    ensures var r := WithAuth(c, registry, entry);
      && r.auths.Some? && registry in r.auths.value && r.auths.value[registry] == entry
      && r.credHelpers == c.credHelpers
      && (forall k :: k != registry ==> (k in r.auths.value <==> k in c.auths.GetOr(map[])))
      && (forall k :: k != registry && k in r.auths.value ==> r.auths.value[k] == c.auths.GetOr(map[])[k])
  {
  }

  /**
   * Writing a `credHelpers` entry sets that registry's helper, keeps every
   * other registry's helper, and leaves `auths` alone.
   */
  lemma WithCredHelperEffect(c: DockerConfig, registry: string, helper: string)
    ensures var r := WithCredHelper(c, registry, helper);
      && r.credHelpers.Some? && registry in r.credHelpers.value && r.credHelpers.value[registry] == helper
      && r.auths == c.auths
      && (forall k :: k != registry ==> (k in r.credHelpers.value <==> k in c.credHelpers.GetOr(map[])))
      && (forall k :: k != registry && k in r.credHelpers.value ==> r.credHelpers.value[k] == c.credHelpers.GetOr(map[])[k])
  {
  }

  /** Writing the same entry twice is writing it once. */
  lemma WithAuthIdempotent(c: DockerConfig, registry: string, entry: RegistryAuth)
    ensures WithAuth(WithAuth(c, registry, entry), registry, entry) == WithAuth(c, registry, entry)
  {
    assert c.auths.GetOr(map[])[registry := entry][registry := entry] == c.auths.GetOr(map[])[registry := entry];
  }

  lemma WithCredHelperIdempotent(c: DockerConfig, registry: string, helper: string)
    ensures WithCredHelper(WithCredHelper(c, registry, helper), registry, helper) == WithCredHelper(c, registry, helper)
  {
    assert c.credHelpers.GetOr(map[])[registry := helper][registry := helper] == c.credHelpers.GetOr(map[])[registry := helper];
  }

  /** The two members are independent: writing one never disturbs the other. */
  lemma WithAuthCredHelperCommute(c: DockerConfig, registry: string, entry: RegistryAuth, other: string, helper: string)
    ensures WithCredHelper(WithAuth(c, registry, entry), other, helper) == WithAuth(WithCredHelper(c, other, helper), registry, entry)
  {
  }

  class DockerConfigDocument {
    var auths: Option<map<string, RegistryAuth>>
    var credHelpers: Option<map<string, string>>

    function Value(): DockerConfig
      reads this
    {
      DockerConfig(auths, credHelpers)
    }

    constructor ()
      ensures Value() == EmptyDockerConfig
    {
      auths := None;
      credHelpers := None;
    }

    method SetAuth(registry: string, entry: RegistryAuth)
      modifies this
      ensures Value() == WithAuth(old(Value()), registry, entry)
    {
      if auths.None? {
        auths := Some(map[]);
      }
      auths := Some(auths.value[registry := entry]);
    }

    method SetCredHelper(registry: string, helper: string)
      modifies this
      ensures Value() == WithCredHelper(old(Value()), registry, helper)
    {
      if credHelpers.None? {
        credHelpers := Some(map[]);
      }
      credHelpers := Some(credHelpers.value[registry := helper]);
    }
  }
}
