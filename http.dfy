/** What an API view answers: a body, an error status with the view's own
    message, the 404 of a primary key that names no row, or the 500 of an
    exception the view does not catch. */
module Http {

  datatype Response<T> = Ok(body: T) | Error(status: nat, message: string) | NotFound | ServerError
}
