/** JSON values, as the library's own document type holds them: objects map distinct names. */
module JsonValues {
  datatype Json =
    | Null
    | Bool(flag: bool)
    | Number(value: int)
    | Str(text: string)
    | Arr(items: seq<Json>)
    | Obj(fields: map<string, Json>)
}
