/** Request and response values shared by both services. */
module Http {

  datatype Json =
    | JNull
    | JBool(b: bool)
    | JInt(i: int)
    | JStr(s: string)
    | JList(elems: seq<Json>)
    | JObject(members: seq<(string, Json)>)

  /** The request attributes the core reads: the HTTP verb and the URL path. */
  datatype Request = Request(verb: string, path: string)

  /** A response body: nothing, a JSON document, one serialized item (its key and fields),
      or the serialized list of all stored items keyed by primary key. */
  datatype Body =
    | NoBody
    | Content(json: Json)
    | Record(pk: int, fields: Json)
    | Rows(rows: map<int, Json>)

  datatype Response = Response(code: int, body: Body)
}
