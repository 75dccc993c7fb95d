/**
  The Python values that travel in request and response dictionaries, with
  Python's truth test and the fixed `{"entry": {"content": {"params": ...}}}`
  envelope every structured request body uses.
 */
module Json {
  import opened Wrappers

  datatype Value =
    | Null
    | Bool(b: bool)
    | Int(i: int)
    | Str(s: string)
    | Obj(fields: map<string, Value>)

  /** Python's `if v:` on the values of this model. */
  predicate Truthy(v: Value) {
    match v
    case Null => false
    case Bool(b) => b
    case Int(i) => i != 0
    case Str(s) => s != ""
    case Obj(m) => m != map[]
  }

  /** `v[k0][k1]...`; None where Python would raise KeyError or TypeError. */
  function Lookup(v: Value, path: seq<string>): Option<Value>
    decreases |path|
  {
    if path == [] then Some(v)
    else match v
      case Obj(m) => if path[0] in m then Lookup(m[path[0]], path[1..]) else None
      case _ => None
  }

  /** Looking up a longer path is looking up its first part, then the rest in what was found. */
  lemma {:induction false} LookupAppend(v: Value, p: seq<string>, q: seq<string>)
    ensures Lookup(v, p + q) == match Lookup(v, p) case Some(w) => Lookup(w, q) case None => None
    decreases |p|
  {
    if p == [] {
      assert p + q == q;
    } else {
      assert (p + q)[0] == p[0] && (p + q)[1..] == p[1..] + q;
      match v
      case Obj(m) =>
        if p[0] in m {
          LookupAppend(m[p[0]], p[1..], q);
        }
      case _ =>
    }
  }

  const ParamsPath: seq<string> := ["entry", "content", "params"]

  /** The request body `{"entry": {"content": {"params": params}}}`. */
  function Envelope(params: map<string, Value>): Value {
    Obj(map["entry" := Obj(map["content" := Obj(map["params" := Obj(params)])])])
  }

  /** The params object a body carries at entry.content.params (empty when it has none). */
  function BodyParams(body: Value): map<string, Value> {
    match Lookup(body, ParamsPath)
    case Some(Obj(m)) => m
    case _ => map[]
  }

  /** The envelope hides nothing: its params object is read back unchanged. */
  lemma EnvelopeRoundTrip(params: map<string, Value>)
    ensures Lookup(Envelope(params), ParamsPath) == Some(Obj(params))
    ensures BodyParams(Envelope(params)) == params
  {
  }
}
