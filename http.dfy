/** What a FastAPI route hands back: a body, or an `HTTPException` with its
    status code and detail text. */
module Http {
  datatype Response<T> = Ok(body: T) | HttpError(status: int, detail: string)
}
