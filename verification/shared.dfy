/**
 * Values shared by every module: JavaScript's `undefined`/`null` as an
 * `Option`, the status-plus-body replies of the Express handlers, and the
 * outcome of saving a document.
 */
module Shared {

  datatype Option<T> = None | Some(value: T) {
    function GetOr(default: T): T {
      if Some? then value else default
    }
  }

  /**
   * What an Express handler sends: a success status (200 or 201) with its
   * `data`, or an error status with the `error` text of the JSON body.
   */
  datatype Reply<T> = Success(status: int, body: T) | Failure(status: int, error: string)

  /** The reply of the shared `catch` blocks: 500 "Server error". */
  function ServerError<T>(): Reply<T> {
    Failure(500, "Server error")
  }

  /**
   * Why Mongoose refuses to save a document: a required field is absent, a
   * value lies outside its enumeration, a unique index already holds the
   * key, or a pre-save hook reports an error.
   */
  datatype ValidationError =
    | Missing(field: string)
    | NotInEnum(field: string)
    | DuplicateKey(field: string)
    | HookError(message: string)

  datatype Validated<T> = Valid(doc: T) | Invalid(error: ValidationError)

  /** A Mongoose `required` string: absent and empty both fail. */
  predicate Present(s: Option<string>) {
    s.Some? && s.value != ""
  }
}
