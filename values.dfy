/** Values shared by every part of the viewer's host bridge: the optional and
    error-carrying wrappers, and the JSON values that travel between the page
    script, the settings file and the host. */
module Values {

  datatype Option<T> = None | Some(value: T)

  datatype Result<T, E> = Ok(value: T) | Err(error: E)

  /** A JSON value as the host sees it after decoding. Numbers are integers
      only; floating-point values are not part of this model. */
  datatype Json =
    | JNull
    | JBool(b: bool)
    | JInt(i: int)
    | JString(s: string)
    | JArray(items: seq<Json>)
    | JObject(fields: map<string, Json>)

  /** A JSON object, the shape of the settings and of every page message. */
  type Object = map<string, Json>
}
