/**
 * The boundary with the remote parameter store (AWS Systems Manager Parameter Store).
 * The store itself is not modelled: what it answers is an input to the cache, given as
 * two total functions, one per API call the cache makes.
 */
module Ssm {
  import opened Wrappers

  /** The declared parameter types, with the values of the SDK's `ssm.ParameterType*` constants. */
  const ParameterTypeString: string := "String"
  const ParameterTypeStringList: string := "StringList"
  const ParameterTypeSecureString: string := "SecureString"

  /** An error returned by the SDK (network, permission, parameter not found, ...); opaque here. */
  datatype AwsError = AwsError(code: string)

  /** The answer to `GetParameter`: an error, or the parameter's declared type and its value, which may be nil. */
  datatype ParameterResponse =
    | Failed(error: AwsError)
    | Found(declaredType: string, value: Option<string>)

  /** One parameter of a `GetParametersByPath` page: its full name and its value, which may be nil. */
  datatype Parameter = Parameter(name: string, value: Option<string>)

  type Page = seq<Parameter>

  /**
   * The answer to `GetParametersByPathPages`: the pages handed to the callback, in order,
   * and the error that ended the enumeration early, if any.
   */
  datatype PagesResponse = PagesResponse(pages: seq<Page>, failure: Option<AwsError>)

  /**
   * What the remote store answers at the moment of a call:
   * `getParameter(name, withDecryption)` and `getParametersByPathPages(path, recursive)`.
   */
  datatype Service = Service(
    getParameter: (string, bool) -> ParameterResponse,
    getParametersByPathPages: (string, bool) -> PagesResponse)

  /** A call the cache made on the remote store, with its arguments. */
  datatype Call =
    | GetParameterCall(name: string, withDecryption: bool)
    | GetParametersByPathCall(path: string, recursive: bool)
}
