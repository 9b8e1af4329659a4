/** JSON documents as Python's `json.load` hands them to the program. */
module Json {
  import opened Dicts

  /** A JSON value. Numbers and booleans are one case: the code never looks
      inside them, it only finds that they are neither strings nor objects. */
  datatype Value =
    | Null
    | Str(s: string)
    | Obj(fields: map<string, Value>)
    | Arr(items: seq<Value>)
    | Scalar

  /** What reading a JSON file gives: no file, a file that does not parse or
      cannot be read, or a top-level object (key order kept). */
  datatype File = Missing | Unreadable | Parsed(data: Dict<Value>)
}
