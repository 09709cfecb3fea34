/**
 * The Python values the sheet mappings and the register getters pass around: the values of the
 * extracted-data dictionaries and of the decoded JSON responses. Truthiness, `dict.get` with and
 * without a default, the `a or b or ""` fallback chains and `str()` of a value.
 */
module PyValue {
  import opened Text

  /** A Python value: `None`, a bool, an int, a str, a list or a dict with string keys. */
  datatype Value =
    | Null
    | Bool(b: bool)
    | Int(i: int)
    | Str(s: string)
    | List(items: seq<Value>)
    | Dict(entries: map<string, Value>)

  /** A dictionary with string keys. */
  type PyDict = map<string, Value>

  /** `bool(v)`: `None`, `False`, zero and empty containers are falsy. */
  predicate Truthy(v: Value) {
    match v
    case Null => false
    case Bool(b) => b
    case Int(i) => i != 0
    case Str(s) => s != ""
    case List(xs) => xs != []
    case Dict(m) => m != map[]
  }

  /** `d.get(k)`: the value, or `None` when the key is absent. */
  function Get(d: PyDict, k: string): Value {
    if k in d then d[k] else Null
  }

  /** `d.get(k, default)`. */
  function GetOr(d: PyDict, k: string, default: Value): Value {
    if k in d then d[k] else default
  }

  /** `d.get(k1) or d.get(k2) or … or ""`. */
  function FirstTruthy(d: PyDict, keys: seq<string>): Value {
    if keys == [] then Str("")
    else if Truthy(Get(d, keys[0])) then Get(d, keys[0])
    else FirstTruthy(d, keys[1..])
  }

  /** The first of the keys whose value is truthy is at `i`. */
  predicate FirstTruthyAt(d: PyDict, keys: seq<string>, i: nat) {
    && i < |keys| && Truthy(Get(d, keys[i]))
    && forall j :: 0 <= j < i ==> !Truthy(Get(d, keys[j]))
  }

  /**
   * `v` is what a fallback over `keys` must give: the value of the first key whose value is
   * truthy, and `""` when there is none.
   */
  predicate FallbackOf(v: Value, d: PyDict, keys: seq<string>) {
    && ((forall i :: 0 <= i < |keys| ==> !Truthy(Get(d, keys[i]))) ==> v == Str(""))
    && (forall i :: 0 <= i < |keys| && FirstTruthyAt(d, keys, i) ==> v == d[keys[i]])
  }

  /** A fallback chain gives what a fallback must; so its value is always truthy or `""`. */
  lemma {:induction false} FirstTruthySpec(d: PyDict, keys: seq<string>)
    ensures var r := FirstTruthy(d, keys);
      (Truthy(r) || r == Str("")) && FallbackOf(r, d, keys)
  {
    if keys != [] && !Truthy(Get(d, keys[0])) {
      var tail := keys[1..];
      FirstTruthySpec(d, tail);
      forall i: nat | FirstTruthyAt(d, keys, i) ensures FirstTruthy(d, keys) == d[keys[i]] {
        assert FirstTruthyAt(d, tail, i - 1) by {
          forall j | 0 <= j < i - 1 ensures !Truthy(Get(d, tail[j])) {
            assert tail[j] == keys[j + 1];
          }
        }
      }
    }
  }

  /** A fallback chain gives a truthy value or `""`. */
  lemma FirstTruthyOrEmpty(d: PyDict, keys: seq<string>)
    ensures Truthy(FirstTruthy(d, keys)) || FirstTruthy(d, keys) == Str("")
  {
    FirstTruthySpec(d, keys);
  }

  /** Two dictionaries agree on the keys `keys`: `get` finds the same value (or none) in both. */
  predicate AgreeOn(d1: PyDict, d2: PyDict, keys: set<string>) {
    forall k :: k in keys ==> Get(d1, k) == Get(d2, k)
  }

  /**
   * Two dictionaries hold the same entries for the keys `keys`: each key is in both or in neither,
   * with the same value.
   */
  predicate SameEntries(d1: PyDict, d2: PyDict, keys: set<string>) {
    forall k :: k in keys ==> (k in d1 <==> k in d2) && Get(d1, k) == Get(d2, k)
  }

  /** A fallback chain reads only its keys. */
  lemma {:induction false} FirstTruthyReads(d1: PyDict, d2: PyDict, keys: seq<string>)
    requires forall i :: 0 <= i < |keys| ==> Get(d1, keys[i]) == Get(d2, keys[i])
    ensures FirstTruthy(d1, keys) == FirstTruthy(d2, keys)
  {
    if keys != [] {
      FirstTruthyReads(d1, d2, keys[1..]);
    }
  }

  /**
   * `str(v)` for a scalar: `None`, `True`/`False`, the decimal digits of an int, the string
   * itself. A list or a dict is written as a bracket pair only.
   */
  function PyStr(v: Value): (r: string)
    ensures r != "" || v == Str("")
    ensures v.Str? ==> r == v.s
  {
    match v
    case Null => "None"
    case Bool(b) => if b then "True" else "False"
    case Int(i) => IntToString(i)
    case Str(s) => s
    case List(_) => "[]"
    case Dict(_) => "{}"
  }
}
