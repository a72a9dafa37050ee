/** JSON documents, with objects as own-key maps. */
module JsonModel {

  datatype Json =
    | Null
    | Bool(b: bool)
    | Number(n: real)
    | Str(s: string)
    | Arr(items: seq<Json>)
    | Obj(fields: map<string, Json>)
  {
    predicate IsContainer() {
      Arr? || Obj?
    }
  }
}
