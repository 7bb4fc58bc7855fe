/** The HTTP errors the handlers raise (`fastapi.HTTPException`). */
module Http {

  datatype HttpError = HttpError(status: int, detail: string)
}
