/** What a FastAPI route handler produces. */
module Http {

  /** The returned body, or a raised `HTTPException(status_code, detail)`. */
  datatype Reply<+T> = Success(body: T) | HttpException(statusCode: int, detail: string)
}
