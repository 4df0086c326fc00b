/** What a FastAPI handler hands back: a body, or an `HTTPException` with
    a status code and a `detail` that is either a plain string or an
    `ErrorResponse`-shaped object. */
module Http {
  import ChatSchemas

  const BadRequest := 400
  const NotFound := 404
  const UnprocessableEntity := 422
  const TooManyRequests := 429
  const InternalServerError := 500

  datatype Detail = Plain(text: string) | Structured(body: ChatSchemas.ErrorResponse)

  datatype Reply<T> = Success(body: T) | HttpException(statusCode: int, detail: Detail)
}
