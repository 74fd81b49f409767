/**
 * The abstract C# `Authoriser` (src/Auth/Authoriser.cs): the URL an
 * authoriser matches, or "always mount", read and checked from its options.
 */
module Authoriser {
  import opened Wrappers
  import opened Json
  import opened Errors

  /**
   * `node?.GetValue<string>()` on a value read from the options: a JSON null
   * gives null, a string itself, and anything else raises
   * InvalidOperationException (named here by the key it was read from).
   */
  function StringOf(node: Json, key: string): (r: Result<Option<string>, Error>)
    ensures r.Success? <==> node.JNull? || node.JString?
    ensures r.Success? ==> (r.value.Some? <==> node.JString?) && (node.JString? ==> r.value.value == node.s)
  {
    match node
    case JNull => Success(None)
    case JString(s) => Success(Some(s))
    case _ => Failure(InvalidOperation(key))
  }

  /** `options[key]?.GetValue<string>()`: a missing key reads as null. */
  function GetString(options: Dict<Json>, key: string): (r: Result<Option<string>, Error>)
    ensures !HasKey(options, key) ==> r == Success(None)
    ensures HasKey(options, key) ==> r == StringOf(Get(options, key).value, key)
  {
    var v: Option<Json> := Get(options, key);
    match v
    case None => Success(None)
    case Some(node) => StringOf(node, key)
  }

  /**
   * `options[key]?.AsArray() ?? new JsonArray()`: a missing key or a null
   * reads as the empty array; a value that is not an array raises.
   */
  function GetArray(options: Dict<Json>, key: string): (r: Result<seq<Json>, Error>)
    ensures r.Success? <==> !HasKey(options, key) || Get(options, key).value.JNull? || Get(options, key).value.JArray?
    ensures r.Success? && HasKey(options, key) && Get(options, key).value.JArray? ==> r.value == Get(options, key).value.items
    ensures r.Success? && !(HasKey(options, key) && Get(options, key).value.JArray?) ==> r.value == []
  {
    var v: Option<Json> := Get(options, key);
    match v
    case None => Success([])
    case Some(JNull) => Success([])
    case Some(JArray(items)) => Success(items)
    case Some(_) => Failure(InvalidOperation(key))
  }

  datatype AuthBase = AuthBase(urlToMatch: Option<string>)
  {
    /** `AlwaysMount() => URLToMatch == null`. */
    predicate AlwaysMount()
    {
      urlToMatch.None?
    }
  }

  const MountMessage := "auth 'mount' must be one of 'onMatch' or 'always'"
  const UrlMessage := "auth 'url' must be set unless 'mount' set to 'always'"

  /** The base constructor: exactly one of a URL and `mount: always`. */
  function ParseAuthBase(options: Dict<Json>): (r: Result<AuthBase, Error>)
    ensures r.Success? <==>
      GetString(options, "url").Success? && GetString(options, "mount").Success? &&
      GetString(options, "mount").value in {None, Some("always"), Some("onMatch")} &&
      (GetString(options, "url").value.Some? <==> GetString(options, "mount").value != Some("always"))
    ensures r.Success? ==> r.value.urlToMatch == GetString(options, "url").value
    ensures r.Success? ==> (r.value.AlwaysMount() <==> GetString(options, "mount").value == Some("always"))
    ensures GetString(options, "url").Failure? ==> r == Failure(InvalidOperation("url"))
    ensures GetString(options, "url").Success? && GetString(options, "mount").Failure? ==> r == Failure(InvalidOperation("mount"))
    ensures GetString(options, "url").Success? && GetString(options, "mount").Success? &&
            GetString(options, "mount").value !in {None, Some("always"), Some("onMatch")} ==>
      r == Failure(InvalidConfig(MountMessage, Some(JObject(options))))
    ensures GetString(options, "url").Success? && GetString(options, "mount").Success? &&
            GetString(options, "mount").value in {None, Some("always"), Some("onMatch")} &&
            (GetString(options, "url").value.Some? <==> GetString(options, "mount").value == Some("always")) ==>
      r == Failure(InvalidConfig(UrlMessage, Some(JObject(options))))
  {
    var url :- GetString(options, "url");
    var mountStr :- GetString(options, "mount");
    var alwaysMount :-
      if mountStr.None? then Success(false)
      else if mountStr.value == "always" then Success(true)
      else if mountStr.value != "onMatch" then Failure(InvalidConfig(MountMessage, Some(JObject(options))))
      else Success(false);
    if (url.Some? && alwaysMount) || (url.None? && !alwaysMount) then
      Failure(InvalidConfig(UrlMessage, Some(JObject(options))))
    else
      Success(AuthBase(url))
  }
}
