/**
 * The response envelope every endpoint returns (`GMJSONResponse`, `GMResponseMeta`),
 * the check `groupmeResponseErrorCheck`, and the `$0.response!` unwrap followed by an
 * optional projection of a sub-field, as the facade's call sites chain them.
 */
module Envelope {
  import opened Common

  datatype Meta = Meta(code: int, errors: Option<seq<string>>)

  datatype Envelope<T> = Envelope(meta: Meta, response: Option<T>)

  /** `GroupMeAPIError`. `NoResponseData` is declared but never thrown. */
  datatype ApiError = NoResponseData | GroupMeErrors(errors: seq<string>)

  /**
   * What a call site makes of a decoded envelope: the projected payload, an error
   * thrown by the check, or `MissingResponse`, which stands for the trap of
   * force-unwrapping an absent `response`.
   */
  datatype Unwrapped<U> = Ok(value: U) | Thrown(error: ApiError) | MissingResponse

  /**
   * `groupmeResponseErrorCheck`: any `errors` list, even an empty one, is thrown as it
   * stands; otherwise the envelope passes through untouched.
   */
  function ErrorCheck<T>(envelope: Envelope<T>): (r: Result<Envelope<T>, ApiError>)
    ensures r.Failure? <==> envelope.meta.errors.Some?
    ensures r.Failure? ==> r.error == GroupMeErrors(envelope.meta.errors.value)
    ensures r.Success? ==> r.value == envelope
  {
    if envelope.meta.errors.Some? then Failure(GroupMeErrors(envelope.meta.errors.value))
    else Success(envelope)
  }

  /** `.then { $0.response!.field }`: never looks at `meta`, traps when `response` is absent. */
  function ForceUnwrap<T, U>(envelope: Envelope<T>, project: T -> U): (r: Unwrapped<U>)
    ensures !r.Thrown?
    ensures r.Ok? <==> envelope.response.Some?
    ensures r.Ok? ==> r.value == project(envelope.response.value)
  {
    if envelope.response.Some? then Ok(project(envelope.response.value)) else MissingResponse
  }

  /**
   * A call site's handling of a decoded envelope: with `checked`, the error check runs
   * before the unwrap; without it, the unwrap runs directly.
   */
  function Unwrap<T, U>(checked: bool, envelope: Envelope<T>, project: T -> U): (r: Unwrapped<U>)
    // a checked site throws exactly the reported list, even if a payload is present
    ensures checked && envelope.meta.errors.Some? ==> r == Thrown(GroupMeErrors(envelope.meta.errors.value))
    // a payload is delivered exactly when present and, at a checked site, no errors came with it
    ensures r.Ok? <==> envelope.response.Some? && (!checked || envelope.meta.errors.None?)
    ensures r.Ok? ==> r.value == project(envelope.response.value)
    // the only error ever thrown is the envelope's own list
    ensures r.Thrown? ==> checked && envelope.meta.errors.Some? && r.error.GroupMeErrors?
  {
    if checked then
      match ErrorCheck(envelope)
      case Failure(e) => Thrown(e)
      case Success(passed) => ForceUnwrap(passed, project)
    else ForceUnwrap(envelope, project)
  }

  /** Checking makes a difference exactly when the envelope reports errors. */
  lemma CheckMattersOnlyWithErrors<T, U>(envelope: Envelope<T>, project: T -> U)
    ensures Unwrap(true, envelope, project) == Unwrap(false, envelope, project) <==> envelope.meta.errors.None?
  {
  }

  /** An unchecked site's outcome does not depend on `meta` at all. */
  lemma UncheckedIgnoresMeta<T, U>(m1: Meta, m2: Meta, response: Option<T>, project: T -> U)
    ensures Unwrap(false, Envelope(m1, response), project) == Unwrap(false, Envelope(m2, response), project)
  {
  }
}
