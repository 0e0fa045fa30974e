/**
 * The values that flow through the application: what `request.json()` produces,
 * what the document store keeps, and what `localStorage` holds after `JSON.parse`.
 * JavaScript numbers are modelled as unbounded integers. `Date` is the store's
 * timestamp; no JSON text carries one, but request bodies are not restricted
 * to Date-free values.
 */
module Json {
  import Text

  datatype Value =
    | Null
    | Bool(b: bool)
    | Num(n: int)
    | Str(s: string)
    | Date(ms: int)
    | Arr(items: seq<Value>)
    | Obj(fields: map<string, Value>)

  /** A plain object: field name to value. */
  type Record = map<string, Value>

  /** JavaScript truthiness (ToBoolean) of a value. */
  predicate Truthy(v: Value) {
    match v
    case Null => false
    case Bool(b) => b
    case Num(n) => n != 0
    case Str(s) => s != ""
    case _ => true
  }

  /**
   * The own enumerable properties that object spread (`{...v}`) copies out of a
   * parsed JSON value: an object's fields, an array's elements and a string's
   * characters under their decimal indices, nothing for null, booleans and numbers.
   */
  function Spread(v: Value): (r: Record)
    ensures v.Obj? ==> r == v.fields
    ensures v.Null? || v.Bool? || v.Num? || v.Date? ==> r == map[]
    ensures v.Arr? ==> forall j :: 0 <= j < |v.items| ==> Text.IntText(j) in r && r[Text.IntText(j)] == v.items[j]
  {
    match v
    case Obj(fields) => fields
    case Arr(items) => Indexed(items, 0)
    case Str(s) => Indexed(seq(|s|, i requires 0 <= i < |s| => Str([s[i]])), 0)
    case _ => map[]
  }

  /** The elements of `xs` keyed by the decimal text of their position, counted from `from`. */
  function Indexed(xs: seq<Value>, from: nat): (r: Record)
    ensures forall j :: from <= j < from + |xs| ==> Text.IntText(j) in r && r[Text.IntText(j)] == xs[j - from]
    decreases |xs|
  {
    if xs == [] then map[]
    else
      var rest := Indexed(xs[1..], from + 1);
      IndexedStep(xs, from, rest);
      rest[Text.IntText(from) := xs[0]]
  }

  /** Putting the first element under its own position keeps the later ones reachable. */
  lemma IndexedStep(xs: seq<Value>, from: nat, rest: Record)
    requires xs != []
    requires forall j :: from + 1 <= j < from + |xs| ==> Text.IntText(j) in rest && rest[Text.IntText(j)] == xs[1..][j - (from + 1)]
    ensures forall j :: from <= j < from + |xs| ==>
              Text.IntText(j) in rest[Text.IntText(from) := xs[0]] && rest[Text.IntText(from) := xs[0]][Text.IntText(j)] == xs[j - from]
  {
    var r := rest[Text.IntText(from) := xs[0]];
    forall j | from <= j < from + |xs|
      ensures Text.IntText(j) in r && r[Text.IntText(j)] == xs[j - from]
    {
      if j != from {
        if Text.IntText(from) == Text.IntText(j) {
          Text.IntTextInjective(from, j);
        }
        assert xs[1..][j - (from + 1)] == xs[j - from];
      }
    }
  }
}
