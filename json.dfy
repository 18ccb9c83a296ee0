/** The JSON-shaped values that findings, evidence and rollback data are made of. */
module Json {
  import opened Wrappers

  /** A scalar JSON value; every dictionary the core builds holds only scalars. */
  datatype Json = JNull | JBool(b: bool) | JInt(i: int) | JStr(s: string)

  /** A JSON object (a Python `dict` with string keys). */
  type Dict = map<string, Json>

  /** A point in time, as the ISO-8601 text the engines record; the clock is a parameter. */
  type Timestamp = string

  /** An optional string as it lands in JSON: the string, or `null`. */
  function OptStr(o: Option<string>): (j: Json)
    ensures j.JStr? <==> o.Some?
    ensures o.Some? ==> j.s == o.value
  {
    if o.Some? then JStr(o.value) else JNull
  }

  /** Python truthiness of an optional boolean field read with `.get(key)`. */
  predicate TruthyBool(o: Option<bool>) {
    o == Some(true)
  }

  /** Python truthiness of an optional string field read with `.get(key)`. */
  predicate TruthyStr(o: Option<string>) {
    o.Some? && o.value != ""
  }

  /** Python truthiness of an optional dictionary: present and non-empty. */
  predicate TruthyDict(o: Option<Dict>) {
    o.Some? && o.value != map[]
  }
}
