/**
 * Raw documents as the persistence layer and the HTTP layer see them: a JSON-like
 * value per key. Request bodies and stored user records are documents.
 */
module Documents {
  import opened Wrappers

  /** A JSON value. Arrays and nested objects are not looked into; they are all `Compound`. */
  datatype Value = Null | Bool(b: bool) | Num(n: real) | Str(s: string) | Compound

  /** A document: its own enumerable keys and their values. */
  type Document = map<string, Value>

  /** Property access `obj[key]`: `None` stands for `undefined`. */
  function Get(doc: Document, key: string): (v: Option<Value>)
    ensures v.Some? <==> key in doc
    ensures v.Some? ==> v.value == doc[key]
  {
    if key in doc then Some(doc[key]) else None
  }

  /** JavaScript truthiness of a property read. `NaN` and `-0` are not values of this model. */
  predicate Truthy(v: Option<Value>) {
    match v
    case None => false
    case Some(Null) => false
    case Some(Bool(b)) => b
    case Some(Num(n)) => n != 0.0
    case Some(Str(s)) => s != ""
    case Some(Compound) => true
  }
}
