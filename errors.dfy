/**
 * The exceptions the modelled code raises, from both generations. An
 * operation that may raise returns `Result<T, Error>`; the message text of
 * the program's own exception classes is composed in module Exceptions.
 */
module Errors {
  import opened Wrappers
  import opened Json
  import opened K8sModels

  datatype Error =
    // Exceptions.cs and the C# port's own exception classes
    /** `InvalidConfigException(message, json)`; the JSON is kept when it is a configuration node. */
    | InvalidConfig(message: string, json: Option<Json>)
    | KanikoRemoteConfig(value: string, json: Option<Json>)
    | KubernetesPermission(message: string)
    | LocalContext(details: string)
    | KanikoRuntime(message: string, terminated: Option<ContainerStateTerminated>)
    // .NET library exceptions the C# code lets escape
    | InvalidOperation(message: string)
    | InvalidData(message: string)
    | Timeout(message: string)
    | DuplicateKey(key: string)
    | Argument(message: string)
    | ArgumentNull(parameter: string)
    | ArgumentOutOfRange(message: string)
    | NullReference
    // Python exceptions
    | ValueError(message: string)
    | KeyError(key: string)
    | TypeError(message: string)
    | AttributeError(name: string)
    | NotImplemented
    | FileNotFound(path: string)
    /** A Python value of a type the model does not follow (a non-string where a name is used). */
    | Unmodelled(what: string)
}
