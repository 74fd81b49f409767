/**
 * The message text of the C# port's own exception classes (src/Exceptions.cs).
 * Serialising a JSON node or a terminated container state to text is done
 * by System.Text.Json; those texts are inputs here.
 */
module Exceptions {
  import opened Wrappers
  import opened Json
  import opened K8sModels
  import opened Errors

  const ConfigMainMessage := "Invalid config in kaniko-remote.yaml"
  const PermissionNote := "kaniko-remote requires access to the following namespaced k8s apis: create, get, watch, delete for pods, pods/exec, pods/log"
  const LocalContextMainMessage := "Error with local context"
  const TerminatedStateHeader := "\nTerminated container state: "

  /** `new KanikoRemoteConfigException(value)`: the main message, " - ", then the value. */
  function ConfigMessage(value: string): (m: string)
    ensures |m| == |ConfigMainMessage| + 3 + |value|
    ensures m[..|ConfigMainMessage| + 3] == ConfigMainMessage + " - "
    ensures m[|ConfigMainMessage| + 3..] == value
  {
    ConfigMainMessage + " - " + value
  }

  /**
   * `KanikoRemoteConfigException.WithJson(value, json)`: the plain message,
   * a line break, then the JSON text, or "null" when there is no JSON.
   */
  function ConfigMessageWithJson(value: string, jsonText: Option<string>): (m: string)
    ensures |m| > |ConfigMessage(value)|
    ensures m[..|ConfigMessage(value)| + 1] == ConfigMessage(value) + "\n"
    ensures jsonText.None? ==> m[|ConfigMessage(value)| + 1..] == "null"
    ensures jsonText.Some? ==> m[|ConfigMessage(value)| + 1..] == jsonText.value
  {
    ConfigMessage(value) + "\n" + jsonText.GetOr("null")
  }

  /** `KubernetesPermissionException(message)`: the message, " - ", then the permission note. */
  function PermissionMessage(message: string): (m: string)
    ensures |m| == |message| + 3 + |PermissionNote|
    ensures m[..|message|] == message
    ensures m[|message|..] == " - " + PermissionNote
  {
    message + " - " + PermissionNote
  }

  /** `LocalContextException(details)`. */
  function LocalContextMessage(details: string): (m: string)
    ensures |m| == |LocalContextMainMessage| + 3 + |details|
    ensures m[..|LocalContextMainMessage| + 3] == LocalContextMainMessage + " - "
    ensures m[|LocalContextMainMessage| + 3..] == details
  {
    LocalContextMainMessage + " - " + details
  }

  /**
   * `KanikoRuntimeException(message)` keeps the message as it is; the
   * two-argument form appends the serialised terminated state.
   */
  function RuntimeMessage(message: string, stateText: Option<string>): (m: string)
    ensures |m| >= |message|
    ensures stateText.None? ==> m == message
    ensures stateText.Some? ==> m[..|message|] == message && m[|message|..] == TerminatedStateHeader + stateText.value
  {
    match stateText
    case None => message
    case Some(t) => message + TerminatedStateHeader + t
  }

  /**
   * The message of an error raised as one of the program's own exception
   * classes; None for library exceptions, whose text is not the program's.
   */
  function Message(e: Error, jsonText: Json -> string, stateText: ContainerStateTerminated -> string): Option<string>
  {
    match e
    case KanikoRemoteConfig(value, json) =>
      Some(ConfigMessageWithJson(value, if json.Some? then Some(jsonText(json.value)) else None))
    case KubernetesPermission(message) => Some(PermissionMessage(message))
    case LocalContext(details) => Some(LocalContextMessage(details))
    case KanikoRuntime(message, terminated) =>
      Some(RuntimeMessage(message, if terminated.Some? then Some(stateText(terminated.value)) else None))
    case _ => None
  }

  /** The configuration message determines the offending value. */
  lemma ConfigMessageInjective(a: string, b: string)
    requires ConfigMessage(a) == ConfigMessage(b)
    ensures a == b
  {
    assert a == ConfigMessage(a)[|ConfigMainMessage| + 3..];
  }

  /** A local-context failure never reads like a configuration failure. */
  lemma LocalContextIsNotConfigMessage(details: string, value: string, jsonText: Option<string>)
    ensures LocalContextMessage(details) != ConfigMessage(value)
    ensures LocalContextMessage(details) != ConfigMessageWithJson(value, jsonText)
  {
    assert LocalContextMessage(details)[0] == 'E';
    assert ConfigMessage(value)[0] == 'I';
    assert ConfigMessageWithJson(value, jsonText)[0] == 'I';
  }
}
