/** Python values as they occur in the settings dictionary (decoded from JSON) and in
    the statistics dictionary: None, booleans, integers, strings, lists and dicts.
    Floats, which `json.load` yields for numbers with a fraction or an exponent, are
    not among them. */
module PyValues {

  datatype Value =
    | VNone
    | VBool(b: bool)
    | VInt(i: int)
    | VStr(s: string)
    | VList(items: seq<Value>)
    | VDict(entries: map<string, Value>)
}
