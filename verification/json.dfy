/** JSON documents, and JSON files as the service finds them on disk. */
module Json {
  import opened Wrappers

  /** A JSON value as `json.load` returns it; an object is a Python `dict`, so its keys are unique. */
  datatype Json =
    | JNull
    | JBool(b: bool)
    | JNumber(n: real)
    | JString(s: string)
    | JArray(items: seq<Json>)
    | JObject(fields: map<string, Json>)

  /**
   * A `.json` file. `Truncated` is a file that `open(path, "w")` created but whose `json.dump`
   * raised part-way, so that it holds a prefix of a document which `json.load` rejects.
   */
  datatype JsonFile = Complete(content: Json) | Truncated

  /** Stands for the text of the `JSONDecodeError` that `json.load` raises on a truncated file. */
  const DecodeError: string := "Expecting value"

  /** `json.load` on an open file. */
  function Load(f: JsonFile): (r: Result<Json, string>)
    ensures r.Success? <==> f.Complete?
    ensures r.Success? ==> r.value == f.content
    ensures r.Failure? ==> r.error == DecodeError
  {
    match f
    case Complete(c) => Success(c)
    case Truncated => Failure(DecodeError)
  }
}
