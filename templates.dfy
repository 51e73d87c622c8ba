/**
 * The template object: the first element of the template JSON array. Its
 * `json_data` mapping is the part the tool rewrites; every other top-level
 * key is carried along verbatim.
 */
module Templates {

  /** A JSON value outside `json_data` (copied, never inspected). */
  datatype Json =
    | JNull
    | JBool(b: bool)
    | JNumber(n: int)
    | JString(s: string)
    | JArray(items: seq<Json>)
    | JObject(members: map<string, Json>)

  /**
   * `jsonData` holds the rewritable fields, values already as strings;
   * `otherFields` holds the remaining top-level keys of the object. Being a
   * value, a template is copied wholesale wherever the source deep-copies it.
   */
  datatype Template = Template(jsonData: map<string, string>, otherFields: map<string, Json>)
  {
    /** The copy with one `json_data` field overwritten. */
    function WithField(field: string, value: string): (t: Template)
      requires field in jsonData
      ensures t.otherFields == otherFields
      ensures t.jsonData.Keys == jsonData.Keys
      ensures t.jsonData[field] == value
      ensures forall g :: g in jsonData && g != field ==> t.jsonData[g] == jsonData[g]
    {
      Template(jsonData[field := value], otherFields)
    }
  }

  /** The template the processor holds before anything is loaded (`{}`). */
  const EmptyTemplate := Template(map[], map[])

  /**
   * Overwrites each of `fields`, in order, with `value` (the inner loop of
   * uniform replacement).
   */
  function OverwriteAll(data: map<string, string>, fields: seq<string>, value: string): (r: map<string, string>)
    requires forall f :: f in fields ==> f in data
    ensures r.Keys == data.Keys
    ensures forall f :: f in fields ==> r[f] == value
    ensures forall g :: g in data && g !in fields ==> r[g] == data[g]
  {
    if fields == [] then data
    else OverwriteAll(data, fields[..|fields| - 1], value)[fields[|fields| - 1] := value]
  }
}
