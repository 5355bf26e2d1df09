/**
  JSON values as Python's `json` module produces and consumes them, and the
  codec (`json.dumps` / `json.loads`) as an injected pair of functions.

  The byte format of JSON text is not modelled: a codec is any pair of
  functions. The one property the pipeline relies on, that decoding an
  encoded document gives the document back, is the predicate `Decodes`,
  stated for the particular documents a lemma needs; `DecodesSatisfiable`
  and `DecodesBothSatisfiable` show that such hypotheses can be met.
*/
module Json {
  import opened Wrappers

  /** A decoded JSON document. Objects are Python dicts keyed by strings;
      numbers are integers (Python's `float` is not modelled). */
  datatype Value =
    | Null
    | Bool(b: bool)
    | Number(n: int)
    | Str(s: string)
    | Arr(items: seq<Value>)
    | Obj(fields: map<string, Value>)

  /** `json.dumps` and `json.loads`; `loads` yields `None` where Python raises
      `JSONDecodeError`. */
  datatype Codec = Codec(dumps: Value -> string, loads: string -> Option<Value>)

  /** `json.loads(json.dumps(v)) == v` for the document `v`. */
  predicate Decodes(c: Codec, v: Value) {
    c.loads(c.dumps(v)) == Some(v)
  }

  /** Some codec decodes any one given document. */
  lemma DecodesSatisfiable(v: Value)
    ensures exists c :: Decodes(c, v)
  {
    var c := Codec(_ => "", _ => Some(v));
    assert Decodes(c, v);
  }

  /** Some codec decodes any two given documents. */
  lemma DecodesBothSatisfiable(v1: Value, v2: Value)
    ensures exists c :: Decodes(c, v1) && Decodes(c, v2)
  {
    var c := Codec(v => if v == v1 then "1" else "2",
                   s => if s == "1" then Some(v1) else Some(v2));
    assert Decodes(c, v1) && Decodes(c, v2);
  }

  /** Python's `v[key]` on a decoded document: only a dict holding `key`
      answers; a missing key (`KeyError`) and any other kind of value
      (`TypeError`) fail. */
  function Lookup(v: Value, key: string): (r: Option<Value>)
    ensures r.Some? <==> v.Obj? && key in v.fields
    ensures r.Some? ==> r.value == v.fields[key]
  {
    match v
    case Obj(m) => if key in m then Some(m[key]) else None
    case _ => None
  }

  /** A one-field object `{key: v}`. */
  function Single(key: string, v: Value): (r: Value)
    ensures Lookup(r, key) == Some(v)
    ensures r.Obj? && r.fields.Keys == {key}
  {
    Obj(map[key := v])
  }
}
