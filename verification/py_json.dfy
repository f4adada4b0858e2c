/** Decoded JSON documents as the transformer sees them (the values `json.loads`
    returns) and the handful of Python operations it applies to them:
    `json2dict`, `dict.get` with a default, and `for x in value`. */
module PyJson {
  import opened Outcomes

  /** A JSON value. Objects are dicts keyed by their member names; a number's
      value never matters to the transformer, so an int stands for any number. */
  datatype Json =
    | JNull
    | JBool(b: bool)
    | JNum(n: int)
    | JStr(s: string)
    | JArr(elems: seq<Json>)
    | JObj(fields: map<string, Json>)

  const EmptyObject: Json := JObj(map[])

  /** `json2dict`. `parsed` is the outcome of `json.loads` on the body, `None`
      when it raised `ValueError`; that failure becomes `{}`, and a document that
      parsed is handed on unchanged, whatever JSON value it is. */
  function Json2Dict(parsed: Option<Json>): (data: Json)
    ensures parsed.Some? ==> data == parsed.value
    ensures data == EmptyObject <==> parsed == None || parsed == Some(EmptyObject)
  {
    match parsed
    case None => EmptyObject
    case Some(j) => j
  }

  /** `obj.get(key, default)`; `None` is the `AttributeError` raised when `obj`
      is not a dict. A key that is present yields its value, even `null`. */
  function Get(obj: Json, key: string, default: Json): (r: Option<Json>)
    ensures r.Some? <==> obj.JObj?
    ensures r.Some? && key in obj.fields ==> r.value == obj.fields[key]
    ensures r.Some? && key !in obj.fields ==> r.value == default
  {
    if obj.JObj? then Some(if key in obj.fields then obj.fields[key] else default) else None
  }

  /** The member `key` of `obj` is present and is itself an object. */
  predicate HasObject(obj: Json, key: string) {
    obj.JObj? && key in obj.fields && obj.fields[key].JObj?
  }

  /** `obj.get(outer, []).get(inner, '')`: succeeds exactly when `outer` names an
      object member; an absent `outer` yields `[]`, which has no `.get`. */
  function GetIn(obj: Json, outer: string, inner: string): (r: Option<Json>)
    ensures r.Some? <==> HasObject(obj, outer)
    ensures r.Some? ==> r == Some(Leaf(obj.fields[outer].fields, inner))
  {
    match Get(obj, outer, JArr([]))
    case None => None
    case Some(o) => Get(o, inner, JStr(""))
  }

  /** `m.get(key, '')` on a dict. */
  function Leaf(m: map<string, Json>, key: string): Json {
    if key in m then m[key] else JStr("")
  }

  /** A leaf read as text: absent reads as the empty string, a JSON string as
      itself; any other JSON value has no text here. */
  function Text(m: map<string, Json>, key: string): (t: Option<string>)
    ensures t.Some? <==> Leaf(m, key).JStr?
    ensures t.Some? ==> t.value == Leaf(m, key).s
  {
    if key !in m then Some("") else if m[key].JStr? then Some(m[key].s) else None
  }

  /** The elements a loop `for x in j` visits, as far as the transformer's loops
      can reach them: a list yields its elements and an empty dict or empty str
      yields none. A non-empty dict or str yields str elements, and the loop body
      immediately calls `.get` on the first one, so that is an `AttributeError`;
      `null`, booleans and numbers are not iterable, a `TypeError`. */
  function Iterate(j: Json): (r: Outcome<seq<Json>>)
    ensures !r.Unmodelled?
    ensures r.Ok? <==> j.JArr? || j == EmptyObject || j == JStr("")
    ensures j.JArr? ==> r == Ok(j.elems)
    ensures r.Ok? && !j.JArr? ==> r == Ok([])
    ensures r.Raises? ==> (r.error == TypeError <==> j.JNull? || j.JBool? || j.JNum?)
  {
    match j
    case JArr(xs) => Ok(xs)
    case JObj(m) => if m == map[] then Ok([]) else Raises(AttributeError)
    case JStr(s) => if s == "" then Ok([]) else Raises(AttributeError)
    case _ => Raises(TypeError)
  }

  /** `for item in data.get('items', [])`: the items of a decoded document. */
  function Items(data: Json): (r: Outcome<seq<Json>>)
    ensures !r.Unmodelled?
    ensures !data.JObj? ==> r == Raises(AttributeError)
    ensures data.JObj? && "items" !in data.fields ==> r == Ok([])
    ensures data.JObj? && "items" in data.fields ==> r == Iterate(data.fields["items"])
  {
    match Get(data, "items", JArr([]))
    case None => Raises(AttributeError)
    case Some(items) => Iterate(items)
  }

  /** A body that is not JSON, `{}`, a document without `items` or with an empty
      `items` list has no items at all. */
  lemma NoItems(parsed: Option<Json>)
    requires parsed.Some? ==> parsed.value.JObj? && ("items" in parsed.value.fields ==> parsed.value.fields["items"] == JArr([]))
    ensures Items(Json2Dict(parsed)) == Ok([])
  {
  }

  /** A body that parses to anything but an object (`null`, `[]`, `3`, a string)
      makes `data.get` fail. */
  lemma NonObjectDocument(parsed: Option<Json>)
    requires parsed.Some? && !parsed.value.JObj?
    ensures Items(Json2Dict(parsed)) == Raises(AttributeError)
  {
  }
}
