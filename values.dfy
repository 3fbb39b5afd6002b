/** The dynamically typed values stored in the source's dictionaries
    (chunk metadata, statistics). */
module Values {

  datatype Value =
    | VNull
    | VBool(b: bool)
    | VInt(i: int)
    | VReal(r: real)
    | VStr(s: string)
    | VCounts(counts: map<string, int>)

  type Dict = map<string, Value>
}
