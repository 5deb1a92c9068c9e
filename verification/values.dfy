/** JavaScript values as far as the state engine looks at them. */
module Values {

  datatype Option<+T> = None | Some(value: T)

  /**
   * A JavaScript value. Numbers are whole numbers here: the only numbers the
   * engine itself produces are millisecond time stamps.
   */
  datatype Value =
    | Undefined
    | Null
    | Bool(b: bool)
    | Num(n: int)
    | Str(s: string)
    | Obj(fields: map<string, Value>)

  /** A state object, and every patch: a plain object from string keys to values. */
  type State = map<string, Value>

  /** JavaScript truthiness: `undefined`, `null`, `false`, `0` and `""` are falsy. */
  predicate Truthy(v: Value) {
    match v
    case Undefined => false
    case Null => false
    case Bool(b) => b
    case Num(n) => n != 0
    case Str(s) => s != ""
    case Obj(_) => true
  }

  /**
   * What a value contributes when it is handed to `update` (and so to
   * `Object.assign`): its own keys when it is an object, and nothing
   * otherwise. `None` stands for an argument `update` replaces by `{}`,
   * which is every falsy value; truthy numbers and booleans have no own
   * keys and contribute nothing either.
   */
  function AsPart(v: Value): (p: Option<State>)
    ensures p.Some? <==> v.Obj?
    ensures !Truthy(v) ==> p == None
    ensures p.Some? ==> p.value == v.fields
  {
    if v.Obj? then Some(v.fields) else None
  }
}
