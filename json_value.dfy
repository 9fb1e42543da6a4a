/**
  The decoded JSON tree that every resolver in the repository walks, and the
  error values the resolvers return.

  Go hands the resolvers an `interface{}` produced by `encoding/json`; decoding
  into an `interface{}` only ever yields nil, bool, float64, string,
  []interface{} and map[string]interface{}, so the tree is a closed datatype.
 */
module JsonValue {

  /** A float64 as the decoder produced it.  Floating-point arithmetic is not
      modelled: a number is carried as the text that
      strconv.FormatFloat(v, 'g', -1, 64) prints for it (the shortest decimal
      that reads back as the same float64). */
  datatype Float64 = Float64(shortest: string)

  /** strconv.FormatFloat(v, 'g', -1, 64). */
  function FormatFloat(f: Float64): string {
    f.shortest
  }

  datatype Json =
    | Null                              // JSON null, and the nil root of an unparsed document
    | Bool(b: bool)
    | Num(n: Float64)
    | Str(s: string)
    | Obj(fields: map<string, Json>)
    | Arr(items: seq<Json>)

  /** The three dynamic types a path step may land on and hand back:
      string, float64 and map[string]interface{}. */
  predicate Descendable(v: Json) {
    v.Str? || v.Num? || v.Obj?
  }

  /** The errors the resolvers and the loaders return, one constructor per
      message format (errorKeyNull, errorKeyNotFound, errorKeyTypeInvalid),
      plus whatever the JSON decoder reports. */
  datatype Error =
    | KeyNull                           // "Path is null"
    | KeyNotFound(key: string)          // "Key (%s) is not found"
    | KeyTypeInvalid(key: string)       // "Key (%s) type is invalid"
    | DecodeFailed(message: string)     // an error from encoding/json

  /** A Go pair (value, error): `Err` when the error is non-nil. */
  datatype Result<T> = Ok(value: T) | Err(error: Error)

  /** A Go `error` return: `None` is nil. */
  datatype Option<T> = None | Some(value: T)

  /** What json.Unmarshal(text, &root) leaves behind, given what the decoder
      made of the text: on success the root is the decoded tree and the
      error nil; on failure the root keeps its old value and the decoder's
      error is returned. */
  predicate UnmarshalInto(decoded: Result<Json>, before: Json, after: Json, err: Option<Error>) {
    match decoded
    case Ok(v) => after == v && err == None
    case Err(e) => after == before && err == Some(e)
  }
}
