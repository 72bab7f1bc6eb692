/**
 * JSON values as the handler passes them around, abstracted from the Python
 * values `json.loads` produces and `json.dumps` consumes.  Serialisation
 * itself is not modelled: a request body is given already parsed and a
 * response body is kept as a value.
 *
 * Python's `None` is `JNull`.  A number is one unbounded rational value:
 * the distinction `json.loads` makes between `int` and `float`, and the
 * table's decimals with at most 38 significant digits, are not kept.  The
 * response encoder renders the table's decimals as strings, which is a
 * matter of serialisation only.
 */
module JsonValue {

  datatype Json =
    | JNull
    | JBool(b: bool)
    | JNum(n: real)
    | JStr(s: string)
    | JArr(elems: seq<Json>)
    | JObj(fields: map<string, Json>)
}
