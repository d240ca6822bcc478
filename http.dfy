/** Responses of the HTTP calls the dashboard makes, as input values: the
    model never performs a request, it is told how each one ended. */
module Http {
  import opened Js

  /** How a rejected request looks to a `catch` block: an axios error
      carries the CMS's `error.message` when the response body had one. */
  datatype HttpError = AxiosError(message: Option<string>) | OtherError

  /** A request that resolved with `body`, or rejected with `error`. */
  datatype Outcome<+T> = Ok(body: T) | Err(error: HttpError)
}
