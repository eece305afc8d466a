/**
 * The error kinds of the record store.  Only `NotFoundError` is raised by the
 * store itself; filesystem and JSON failures are passed through as opaque values.
 */
module Errors {
  import opened Wrappers

  /** The fixed text in front of the id in a not-found message. */
  const NotFoundPrefix: string := "Entity not found #"

  /** The error for a missing record; it carries the id that was asked for. */
  datatype NotFoundError = NotFoundError(entityId: string) {

    /** The message: the fixed prefix, then the id. */
    function Error(): (m: string)
      ensures |NotFoundPrefix| <= |m|
      ensures m[..|NotFoundPrefix|] == NotFoundPrefix
      ensures m[|NotFoundPrefix|..] == entityId
    {
      NotFoundPrefix + entityId
    }
  }

  /** Every error value a store call can return. */
  datatype Error =
    | NotFound(notFound: NotFoundError)
    | IoFailure(detail: string)
    | EncodingFailure(detail: string)

  /**
   * The errors the filesystem and the JSON encoder can produce: never a
   * not-found error, which only the store itself builds.
   */
  type FsError = e: Error | !e.NotFound? witness IoFailure("")

  /** The not-found error for `id`. */
  function Missing(id: string): Error
  {
    NotFound(NotFoundError(id))
  }

  /** Distinct ids give distinct messages. */
  lemma ErrorInjective(a: NotFoundError, b: NotFoundError)
    requires a.Error() == b.Error()
    ensures a.entityId == b.entityId
  {
  }

  /**
   * Whether an error value (with `None` for no error) is a not-found error,
   * whatever id it carries.
   */
  function IsNotFound(err: Option<Error>): (b: bool)
    ensures b <==> exists id :: err == Some(Missing(id))
  {
    if err.Some? && err.value.NotFound? then
      assert err == Some(Missing(err.value.notFound.entityId));
      true
    else
      false
  }

}
