/** PHP values as the behaviour sees them: attribute values of the owner record,
    the arrays it packs and the results of the foreign library calls. */
module PhpValue {

  datatype Option<+T> = None | Some(value: T) {
    function GetOr(default: T): T {
      match this
      case Some(v) => v
      case None => default
    }
  }

  /** A PHP value. Arrays are modelled as maps from string keys; PHP's
      insertion order and integer keys are not part of the model. */
  datatype Value =
    | Null
    | Bool(b: bool)
    | Int(i: int)
    | Str(s: string)
    | Arr(entries: map<string, Value>)

  /** PHP's `empty()`: true for null, false, 0, "", "0" and the empty array. */
  predicate Empty(v: Value) {
    match v
    case Null => true
    case Bool(b) => !b
    case Int(i) => i == 0
    case Str(s) => s == "" || s == "0"
    case Arr(m) => m == map[]
  }

  /** `empty()` holds of exactly six values: null, false, 0, "", "0" and the
      empty array; every other boolean, integer, string or array is non-empty. */
  lemma EmptyExactly(v: Value)
    ensures Empty(v) <==> v in {Null, Bool(false), Int(0), Str(""), Str("0"), Arr(map[])}
  {
  }

  /** Reading `$owner->{$name}`; a name the owner does not hold reads as null. */
  function Get(values: map<string, Value>, name: string): (r: Value) {
    if name in values then values[name] else Null
  }
}
