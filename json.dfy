/**
 * Decoded JSON as the client sees it after `response.json()`: Python's None,
 * bool, int, float, str, list and dict, plus the Python behaviours the client
 * code leans on (truthiness, `dict.get`, `str()` of a scalar, dict-key
 * equality) and the exceptions it can raise.
 */
module Json {
  import opened Wrappers
  import opened Numbers

  /**
   * A decoded JSON value. A float is given by its value and by the text
   * Python's `str()` prints for it (its repr), since ids are compared as text.
   */
  datatype Json =
    | Null
    | Bool(b: bool)
    | Int(i: int)
    | Float(value: real, repr: string)
    | Str(s: string)
    | List(items: seq<Json>)
    | Object(fields: map<string, Json>)

  /** The Python exceptions that escape the client, and the two failures it raises itself. */
  datatype Fault =
    | TypeError        // a value that cannot be iterated, subscripted, hashed or converted
    | AttributeError   // `.get` on something that is not a dict
    | KeyError         // a record without `id` or `value` in a comprehension
    | LoginRejected    // the login reply carried no usable token
    | Transport        // timeout, connection error or undecodable body

  /** Python's truth value of a decoded JSON value. */
  predicate Truthy(j: Json)
  {
    match j
    case Null => false
    case Bool(b) => b
    case Int(i) => i != 0
    case Float(x, _) => x != 0.0
    case Str(s) => s != ""
    case List(items) => items != []
    case Object(fields) => fields != map[]
  }

  /** `d.get(k, default)` on a dict. */
  function Get(d: map<string, Json>, k: string, default: Json): (v: Json)
    ensures k in d ==> v == d[k]
    ensures k !in d ==> v == default
  {
    if k in d then d[k] else default
  }

  /**
   * Whether `str(id) == text`. Python's `str()` of a list or dict starts with
   * `[` or `{`; lookups here never use such a text, so containers never match.
   */
  predicate StrEquals(id: Json, text: string)
    ensures StrEquals(id, text) && id.Int? ==> Parse(text) == Some(id.i as real)
  {
    match id
    case Null => text == "None"
    case Bool(b) => text == (if b then "True" else "False")
    case Int(i) => ParseIntText(i); text == IntText(i)
    case Float(_, repr) => text == repr
    case Str(s) => text == s
    case List(_) => false
    case Object(_) => false
  }

  /** A text that Python's `str()` of a list or dict could produce. */
  predicate BracketLed(text: string)
  {
    |text| > 0 && (text[0] == '[' || text[0] == '{')
  }

  /**
   * A dict key up to Python's equality: `True == 1 == 1.0` and `False == 0`,
   * so those collide in a dict.
   */
  datatype Key = NoneKey | NumKey(x: real) | StrKey(s: string)

  /** The key a value is stored under, or `None` when the value is unhashable. */
  function KeyOf(j: Json): (k: Option<Key>)
    ensures k.None? <==> j.List? || j.Object?
    ensures j.Str? ==> k == Some(StrKey(j.s))
  {
    match j
    case Null => Some(NoneKey)
    case Bool(b) => Some(NumKey(if b then 1.0 else 0.0))
    case Int(i) => Some(NumKey(i as real))
    case Float(x, _) => Some(NumKey(x))
    case Str(s) => Some(StrKey(s))
    case List(_) => None
    case Object(_) => None
  }

  /** Two hashable values land on the same dict key exactly when Python says they are equal. */
  lemma KeyOfEquality(a: Json, b: Json)
    requires KeyOf(a).Some? && KeyOf(b).Some?
    ensures KeyOf(a) == KeyOf(b) <==> PyEq(a, b)
  {
  }

  /** Python's `==` between two hashable decoded values. */
  predicate PyEq(a: Json, b: Json)
  {
    match (a, b)
    case (Null, Null) => true
    case (Str(s), Str(t)) => s == t
    case (Str(_), _) => false
    case (_, Str(_)) => false
    case (Null, _) => false
    case (_, Null) => false
    case _ => NumberOf(a) == NumberOf(b)
  }

  /** The number a bool, int or float stands for in comparisons. */
  function NumberOf(j: Json): real
  {
    match j
    case Bool(b) => if b then 1.0 else 0.0
    case Int(i) => i as real
    case Float(x, _) => x
    case _ => 0.0
  }
}
