/** The record and union types shared by the controllers, the HTTP client
    and the views (src/types/api.ts, src/types/components.ts). */
module Types {
  import opened Wrappers

  /** A user as the views handle it. Only the fields the core reads are kept;
      the nested address and company records are passed through untouched
      and are not modelled. */
  datatype User = User(
    id: int,
    name: string,
    username: string,
    email: string,
    phone: string,
    website: string)

  /** `LoadingState`: the status cell of the async-request controller. */
  datatype LoadingState = Idle | Loading | Succeeded | Errored

  /** `ValidationRule`: every member is optional. A missing `required` is
      false; `pattern` is a regular expression seen only through `test`, and
      `custom` returns an error message or `null`. */
  datatype ValidationRule = ValidationRule(
    required: bool,
    minLength: Option<int>,
    maxLength: Option<int>,
    pattern: Option<string -> bool>,
    custom: Option<string -> Option<string>>)

  /** The uniform error every failed request is turned into. `details` is
      `undefined` for a timeout. */
  datatype ApiError = ApiError(message: string, status: int, details: Option<string>)

  /** A value a promise rejects with, as far as a `catch` block can tell it
      apart: an `ApiError` instance, another `Error` instance (with its
      `name` and `message`), or something that is not an `Error` at all. */
  datatype Thrown =
    | RaisedApiError(apiError: ApiError)
    | JsError(name: string, message: string)
    | NonError
}
