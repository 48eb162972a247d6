/** Decoded JSON values, the Python operations the integration applies to
    them, and the reply of the router's interface_status endpoint. */
module JsonValue {
  import opened Common

  /** A value as `response.json()` returns it. Numbers are integers. */
  datatype Json =
    | JNull
    | JBool(b: bool)
    | JNum(n: int)
    | JStr(s: string)
    | JArr(items: seq<Json>)
    | JObj(fields: map<string, Json>)

  /** Python's `key in v`: key membership on a dict, element membership on
      a list, substring on a str; None where Python raises TypeError. */
  function In(key: string, v: Json): (r: Option<bool>)
    ensures r.None? <==> !(v.JObj? || v.JArr? || v.JStr?)
    ensures v.JObj? ==> r == Some(key in v.fields)
  {
    match v
    case JObj(f) => Some(key in f)
    case JArr(items) => Some(JStr(key) in items)
    case JStr(s) => Some(Contains(s, key))
    case _ => None
  }

  /** On a string, `in` holds exactly when the key occurs as a substring;
      on a list, exactly when some element is that string. */
  lemma InOnStringsAndLists(key: string, v: Json)
    requires v.JStr? || v.JArr?
    ensures v.JStr? ==> (In(key, v) == Some(true) <==> exists i: nat :: OccursAt(v.s, key, i))
    ensures v.JArr? ==> (In(key, v) == Some(true) <==> exists k :: 0 <= k < |v.items| && v.items[k] == JStr(key))
  {
    if v.JStr? {
      if Contains(v.s, key) {
        ContainsOccurs(v.s, key);
      }
      if exists i: nat :: OccursAt(v.s, key, i) {
        var i: nat :| OccursAt(v.s, key, i);
        ContainsAt(v.s, key, i);
      }
    }
  }

  /** Python's `d.get(key, default)`. */
  function Get(d: map<string, Json>, key: string, default: Json): Json {
    if key in d then d[key] else default
  }

  /** What the GET of the interface_status page gives: a status code and
      the decoded body, or the exception raised by the request (or, on a
      200, by decoding the body). */
  datatype StatusReply =
    | StatusResponse(status: nat, body: Json)
    | StatusRaised(error: Exception)
}
