/**
 * Parsed JSON values as the Python code sees them after `json.loads` or
 * `response.json()`, together with the few Python operations the core applies
 * to them: truthiness (`if not data`), subscription (`data["features"]`),
 * membership (`"features" in data`) and `str()` inside an f-string.
 */
module Json {
  import opened Wrappers

  /** A JSON value; `JNull` is Python's `None`. Numbers are integers only. */
  datatype Json =
    | JNull
    | JBool(b: bool)
    | JNum(n: int)
    | JStr(s: string)
    | JArr(items: seq<Json>)
    | JObj(fields: map<string, Json>)

  /** The Python exceptions the core can raise on unexpected data. */
  datatype PyError =
    | KeyError(key: string)   // dict["missing"]
    | TypeError               // subscripting, iterating or testing the wrong kind of value
    | AttributeError          // calling `.get` on something that is not a dict

  /** Python truthiness: None, False, 0, "", [] and {} are false. */
  predicate Truthy(j: Json)
  {
    match j
    case JNull => false
    case JBool(b) => b
    case JNum(n) => n != 0
    case JStr(s) => s != ""
    case JArr(xs) => xs != []
    case JObj(m) => m != map[]
  }

  /** Python `j[key]` with a string key. */
  function Index(j: Json, key: string): (r: Result<Json, PyError>)
    ensures r.Ok? <==> j.JObj? && key in j.fields
    ensures r.Ok? ==> r.value == j.fields[key]
    ensures j.JObj? && key !in j.fields ==> r == Err(KeyError(key))
    ensures !j.JObj? ==> r == Err(TypeError)
  {
    match j
    case JObj(m) => if key in m then Ok(m[key]) else Err(KeyError(key))
    case _ => Err(TypeError)
  }

  /** `sub` occurs in `s` starting at index `i`. */
  predicate OccursAt(sub: string, s: string, i: nat)
  {
    i + |sub| <= |s| && s[i..i + |sub|] == sub
  }

  /** `sub` occurs in `s` as a contiguous piece, searched from the left. */
  predicate Occurs(sub: string, s: string)
    decreases |s|
  {
    (|sub| <= |s| && s[..|sub|] == sub) || (s != [] && Occurs(sub, s[1..]))
  }

  /** The search agrees with the positional definition, in both directions. */
  lemma {:induction false} OccursIff(sub: string, s: string)
    ensures Occurs(sub, s) <==> exists i: nat :: OccursAt(sub, s, i)
    decreases |s|
  {
    if s != [] {
      OccursIff(sub, s[1..]);
      forall i: nat | OccursAt(sub, s[1..], i) ensures OccursAt(sub, s, i + 1) {
        assert s[1..][i..i + |sub|] == s[i + 1..i + 1 + |sub|];
      }
      forall i: nat | OccursAt(sub, s, i) && i > 0 ensures OccursAt(sub, s[1..], i - 1) {
        assert s[1..][i - 1..i - 1 + |sub|] == s[i..i + |sub|];
      }
    }
    if |sub| <= |s| && s[..|sub|] == sub {
      assert OccursAt(sub, s, 0);
    }
  }

  /** Python `key in j` for a string key: dict keys, list elements, substrings. */
  function Contains(j: Json, key: string): (r: Result<bool, PyError>)
    ensures r.Ok? <==> j.JObj? || j.JArr? || j.JStr?
    ensures j.JObj? ==> r == Ok(key in j.fields)
    ensures j.JArr? ==> r == Ok(JStr(key) in j.items)
    ensures j.JStr? ==> (r == Ok(true) <==> exists i: nat :: OccursAt(key, j.s, i))
  {
    match j
    case JObj(m) => Ok(key in m)
    case JArr(xs) => Ok(JStr(key) in xs)
    case JStr(s) => OccursIff(key, s); Ok(Occurs(key, s))
    case _ => Err(TypeError)
  }

  /** Decimal digits of a natural number, most significant first. */
  function Digits(n: nat): (r: string)
    ensures |r| > 0
    ensures forall i :: 0 <= i < |r| ==> '0' <= r[i] <= '9'
    ensures n == 0 ==> r == "0"
    ensures n > 0 ==> r[0] != '0'
    decreases n
  {
    var d := [(('0' as int) + n % 10) as char];
    if n < 10 then d else Digits(n / 10) + d
  }

  /** Value of a string of decimal digits; the partner of `Digits`. */
  function DigitsValue(s: string): int
  {
    if s == [] then 0 else DigitsValue(s[..|s| - 1]) * 10 + (s[|s| - 1] as int - '0' as int)
  }

  lemma {:induction false} DigitsRoundTrip(n: nat)
    ensures DigitsValue(Digits(n)) == n
    decreases n
  {
    var d := [(('0' as int) + n % 10) as char];
    if n >= 10 {
      DigitsRoundTrip(n / 10);
      var r := Digits(n / 10) + d;
      assert r[..|r| - 1] == Digits(n / 10);
    }
  }

  /** Python `str(n)` for an integer. */
  function IntString(n: int): (r: string)
    ensures n < 0 <==> (r != [] && r[0] == '-')
    ensures n >= 0 ==> DigitsValue(r) == n
    ensures n < 0 ==> DigitsValue(r[1..]) == -n
  {
    DigitsRoundTrip(if n < 0 then -n else n);
    if n < 0 then "-" + Digits(-n) else Digits(n)
  }

  /**
   * Python `str(j)` as an f-string renders a field: strings verbatim, None,
   * True and False by name, integers in decimal. Lists and dicts would be
   * rendered by Python's repr, which is not part of this model: they render
   * as the empty string here.
   */
  function Str(j: Json): (r: string)
    ensures j.JStr? ==> r == j.s
    ensures j.JNull? ==> r == "None"
    ensures j.JBool? ==> r == (if j.b then "True" else "False")
    ensures j.JNum? ==> r == IntString(j.n)
  {
    match j
    case JNull => "None"
    case JBool(b) => if b then "True" else "False"
    case JNum(n) => IntString(n)
    case JStr(s) => s
    case _ => ""
  }
}
