/** The error kinds the modelled code produces or passes on. */
module Errors {
  import opened Wrappers
  import opened Values

  /** Violations of the resolution protocol that cannot happen in a correct program. */
  datatype ClientInvariantError =
    | NoState
    | InvalidState(source: string)
    | InvalidWidgetPssEntry
    | BadWidgetRouteMatch(path: string)

  /** Errors a view can be asked to display. */
  datatype ClientError =
    | ServerError(status: u16, message: string)
    | InvariantError(violation: ClientInvariantError)
    | Panic(panicMessage: string)
    | OtherClientError(description: string)

  /** Failures of the immutable store (a file system). */
  datatype StoreError = NotFound(name: string) | ReadFailed(name: string, source: string)

  /** Errors that fail a render on the engine side. */
  datatype ServerError =
    | StoreError(store: StoreError)
    | InvalidPageState(source: string)
    | ClientError(client: ClientError)
    | RenderFnFailed(fnName: string, templateName: string, cause: string)

  /**
   * What a user-supplied generator returns: a value, or a failure the user
   * describes (`GeneratorResult`).
   */
  datatype GeneratorResult<+T> = Generated(value: T) | GenerationFailed(cause: string)

  /**
   * `into_server_result(fn_name, template_name)`: a failure becomes a render
   * failure that names the function and the template it came from.
   */
  function IntoServerResult<T>(g: GeneratorResult<T>, fnName: string, templateName: string): (r: Result<T, ServerError>)
    ensures g.Generated? <==> r.Ok?
    ensures g.Generated? ==> r.value == g.value
    ensures g.GenerationFailed? ==> r.error == RenderFnFailed(fnName, templateName, g.cause)
  {
    match g
    case Generated(v) => Ok(v)
    case GenerationFailed(c) => Err(RenderFnFailed(fnName, templateName, c))
  }
}
