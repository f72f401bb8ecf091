/** The values a JSON store holds, records built from them, and the errors
    the schema maker throws. */
module Values {
  import opened Wrappers
  import opened JsObject

  /** A JSON value as a record field sees it. Numbers are exact rationals;
      `Composite` is any array or object, which JavaScript treats as truthy. */
  datatype Value = Str(s: string) | Num(n: real) | Bool(b: bool) | Null | Composite

  /** A flat record: field names in key order, each with its value. */
  type Record = Object<Value>

  /** The field every record is identified by. */
  const IdField: string := "id"

  /** `record.id`, `None` when the record has no such field. */
  function Id(record: Record): Option<Value> {
    Get(record, IdField)
  }

  /** The falsy values of ECMAScript's ToBoolean that a JSON value can take:
      `undefined`, `null`, `false`, `0` and `""`. */
  const Falsy: set<Option<Value>> := {None, Some(Null), Some(Bool(false)), Some(Num(0.0)), Some(Str(""))}

  /** JavaScript truthiness of a property read (`undefined` is falsy). */
  function Truthy(v: Option<Value>): (t: bool)
    ensures t <==> v !in Falsy
  {
    match v
    case None => false
    case Some(Str(s)) => s != ""
    case Some(Num(n)) => n != 0.0
    case Some(Bool(b)) => b
    case Some(Null) => false
    case Some(Composite) => true
  }

  /** Exceptions the schema maker can raise. */
  datatype Error =
    | InvalidSeeds(message: string)   // a collection failed seed validation
    | UndefinedFieldType(field: string) // `concat` called on an undefined type token
    | NoLastRow                       // `rows[rows.length - 1].id` on an empty collection
    | UnmodelledId                    // `id + 1` on an id this model does not evaluate
}
