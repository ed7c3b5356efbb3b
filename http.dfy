/**
  What a route handler sends: a status with a JSON body, or a status with
  `{ message }`. An exception a handler does not catch reaches the error
  handler of server/src/index.js, which answers 500 "Erro interno" (upload
  errors from multer, which it answers 400, are not part of this model).
 */
module Http {

  datatype Response<+T> = Success(status: int, body: T) | Failure(status: int, message: string)

  const InternalError: string := "Erro interno"

  /** The error handler's answer to a thrown exception. */
  function Thrown<T>(): (r: Response<T>)
    ensures r.Failure? && r.status == 500 && r.message == "Erro interno"
  {
    Failure(500, InternalError)
  }
}
