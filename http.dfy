/** The response shape of the API routes: a status code with either the
    created or updated data, or an error message. */
module Http {

  datatype Reply<T> =
    | Success(status: int, message: string, data: T)
    | Failure(status: int, error: string)
  {
    function Status(): int {
      match this
      case Success(s, _, _) => s
      case Failure(s, _) => s
    }
  }
}
