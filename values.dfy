/** The JavaScript values the application stores in records and answer maps, and the two
    coercions it applies to them: truthiness (`if (x)`, `x || y`) and template-string
    rendering (`${x}`). A key that is absent from an object reads as `undefined`, modelled
    as `None`. Numbers are integers here. */
module Values {
  import Text

  datatype Option<+T> = None | Some(value: T)

  datatype Value = Null | Bool(b: bool) | Num(n: int) | Str(s: string)

  /** One element of an assessment's `recommendations` array as read back from the
      database. Any non-null element has `category` and `text` fields (absent on a string or
      number element); reading a field of a `null` element throws. */
  datatype RecItem = NullItem | Item(category: Option<Value>, text: Option<Value>)

  /** JavaScript truthiness of a value that may be `undefined`. */
  predicate Truthy(v: Option<Value>)
  {
    match v
    case None => false
    case Some(Null) => false
    case Some(Bool(b)) => b
    case Some(Num(n)) => n != 0
    case Some(Str(s)) => s != ""
  }

  /** `${v}` (equivalently `String(v)`) of a defined value. */
  function ToText(v: Value): string
  {
    match v
    case Null => "null"
    case Bool(b) => if b then "true" else "false"
    case Num(n) => Text.IntToDecimal(n)
    case Str(s) => s
  }

  /** Looks a key up in an object; an absent key reads as `undefined`. */
  function Get(m: map<string, Value>, key: string): Option<Value>
  {
    if key in m then Some(m[key]) else None
  }

  /** A truthy value never renders as the empty string. */
  lemma TruthyTextNonEmpty(v: Value)
    requires Truthy(Some(v))
    ensures ToText(v) != ""
  {
    if v.Num? && v.n < 0 {
      assert ToText(v) == "-" + Text.NatToDecimal(-v.n);
    }
  }
}
