/** JSON-like values as Python's `json` module hands them to the backend,
    together with the pieces of Python semantics the backend's passes rely on:
    truthiness, `dict.get`, subscripting, the `in` operator, iteration,
    `str()` / `repr()` and a few string predicates. */
module JsonValue {

  /** A decoded JSON value. Objects keep their keys in insertion order
      (`keys`, what iterating a Python dict yields) next to the key/value
      map (`fields`). Numbers are integers. */
  datatype Json =
    | JNull
    | JBool(b: bool)
    | JNum(n: int)
    | JStr(s: string)
    | JArr(items: seq<Json>)
    | JObj(keys: seq<string>, fields: map<string, Json>)

  datatype Option<+T> = None | Some(value: T) {
    predicate IsFailure() { None? }
    function PropagateFailure<U>(): Option<U> requires None? { None }
    function Extract(): T requires Some? { value }
  }

  /** The outcome of a Python computation: a value, or an exception
      (TypeError, AttributeError, KeyError, ...) that propagates. */
  datatype Outcome<+T> = Ok(value: T) | Raised

  const EmptyObject: Json := JObj([], map[])

  /** Python's `bool(v)`. */
  predicate Truthy(j: Json)
  {
    match j
    case JNull => false
    case JBool(b) => b
    case JNum(n) => n != 0
    case JStr(s) => s != ""
    case JArr(items) => items != []
    case JObj(_, fields) => fields != map[]
  }

  predicate HasKey(j: Json, k: string)
  {
    j.JObj? && k in j.fields
  }

  /** `j.get(k, default)`: only dicts have `get`. */
  function GetOr(j: Json, k: string, default: Json): (r: Outcome<Json>)
    ensures r.Ok? <==> j.JObj?
    ensures r.Ok? ==> r.value == (if k in j.fields then j.fields[k] else default)
  {
    if !j.JObj? then Raised
    else if k in j.fields then Ok(j.fields[k])
    else Ok(default)
  }

  /** `j[k]` with a string key: a dict without the key raises KeyError,
      a list or a string raises TypeError, so does anything else. */
  function Index(j: Json, k: string): (r: Outcome<Json>)
    ensures r.Ok? <==> HasKey(j, k)
    ensures r.Ok? ==> r.value == j.fields[k]
  {
    if HasKey(j, k) then Ok(j.fields[k]) else Raised
  }

  /** `j[k] = v` on a dict: an existing key keeps its place, a new key is
      appended to the insertion order. */
  function Set(j: Json, k: string, v: Json): (r: Json)
    requires j.JObj?
    ensures r.JObj? && r.fields == j.fields[k := v]
    ensures k in j.fields ==> r.keys == j.keys
  {
    JObj(if k in j.fields then j.keys else j.keys + [k], j.fields[k := v])
  }

  /** Writing back the value a key already holds changes nothing. */
  lemma SetSame(j: Json, k: string)
    requires HasKey(j, k)
    ensures Set(j, k, j.fields[k]) == j
  {
    assert j.fields[k := j.fields[k]] == j.fields;
  }

  /** Python's `needle in haystack` for two strings. */
  predicate IsSubstring(needle: string, haystack: string)
  {
    exists i :: 0 <= i <= |haystack| && OccursAt(needle, haystack, i)
  }

  predicate OccursAt(needle: string, haystack: string, i: nat)
  {
    i + |needle| <= |haystack| && haystack[i..i + |needle|] == needle
  }

  predicate StartsWith(s: string, prefix: string)
  {
    |prefix| <= |s| && s[..|prefix|] == prefix
  }

  predicate EndsWith(s: string, suffix: string)
  {
    |suffix| <= |s| && s[|s| - |suffix|..] == suffix
  }

  /** `str.lower()` on ASCII letters. */
  function Lower(s: string): (r: string)
    ensures |r| == |s|
    ensures forall i :: 0 <= i < |s| ==> r[i] == LowerChar(s[i])
  {
    seq(|s|, i requires 0 <= i < |s| => LowerChar(s[i]))
  }

  function LowerChar(c: char): char
  {
    if 'A' <= c <= 'Z' then (c as int + 32) as char else c
  }

  /** Python's `key in container` for a string key: dict membership, list
      membership, substring test; anything else raises TypeError. */
  function Contains(container: Json, key: string): (r: Outcome<bool>)
    ensures r.Raised? <==> !(container.JObj? || container.JArr? || container.JStr?)
    ensures container.JObj? ==> r == Ok(key in container.fields)
  {
    match container
    case JObj(_, fields) => Ok(key in fields)
    case JArr(items) => Ok(JStr(key) in items)
    case JStr(s) => Ok(IsSubstring(key, s))
    case _ => Raised
  }

  /** What a `for x in j` loop visits: the items of a list, the characters
      of a string, the keys of a dict; anything else raises TypeError. */
  function Elements(j: Json): (r: Outcome<seq<Json>>)
    ensures r.Ok? <==> (j.JArr? || j.JStr? || j.JObj?)
    ensures j.JArr? ==> r == Ok(j.items)
    ensures r.Ok? && !j.JArr? ==> forall k :: 0 <= k < |r.value| ==> r.value[k].JStr?
  {
    match j
    case JArr(items) => Ok(items)
    case JStr(s) => Ok(seq(|s|, i requires 0 <= i < |s| => JStr([s[i]])))
    case JObj(keys, _) => Ok(seq(|keys|, i requires 0 <= i < |keys| => JStr(keys[i])))
    case _ => Raised
  }

  /** The loop `for x in container: <step on x, in place>`, on values: every
      element must step without raising; a list gets the stepped elements
      back, while a string or dict (whose elements are fresh strings) is
      left as it was. */
  function MapElements(container: Json, step: Json -> Outcome<Json>): (r: Outcome<Json>)
    ensures r.Ok? ==> Elements(container).Ok?
    ensures r.Ok? && container.JArr? ==>
      && r.value.JArr? && |r.value.items| == |container.items|
      && forall k :: 0 <= k < |container.items| ==> step(container.items[k]) == Ok(r.value.items[k])
    ensures r.Ok? && !container.JArr? ==> r.value == container
  {
    match Elements(container)
    case Raised => Raised
    case Ok(es) =>
      if forall k :: 0 <= k < |es| ==> step(es[k]).Ok? then
        if container.JArr? then
          Ok(JArr(seq(|es|, k requires 0 <= k < |es| => step(es[k]).value)))
        else
          Ok(container)
      else
        Raised
  }

  /** What a loop that steps every element without raising computes. */
  lemma MapElementsOk(container: Json, step: Json -> Outcome<Json>, out: seq<Json>)
    requires Elements(container).Ok? && |out| == |Elements(container).value|
    requires forall k :: 0 <= k < |out| ==> step(Elements(container).value[k]) == Ok(out[k])
    ensures MapElements(container, step) == Ok(if container.JArr? then JArr(out) else container)
  {
    var es := Elements(container).value;
    if container.JArr? {
      assert out == seq(|es|, k requires 0 <= k < |es| => step(es[k]).value);
    }
  }

  /** A loop that meets an element whose step raises raises too. */
  lemma MapElementsRaised(container: Json, step: Json -> Outcome<Json>, k: nat)
    requires Elements(container).Ok? && k < |Elements(container).value|
    requires step(Elements(container).value[k]).Raised?
    ensures MapElements(container, step).Raised?
  {
  }

  /** Stepping elements that are already fixed points of `step` returns
      the container unchanged. */
  lemma {:induction false} MapElementsFixedPoint(container: Json, step: Json -> Outcome<Json>)
    requires Elements(container).Ok?
    requires forall k :: 0 <= k < |Elements(container).value| ==>
      step(Elements(container).value[k]) == Ok(Elements(container).value[k])
    ensures MapElements(container, step) == Ok(container)
  {
    if container.JArr? {
      var es := container.items;
      var out := seq(|es|, k requires 0 <= k < |es| => step(es[k]).value);
      assert out == es;
    }
  }

  /** Applying a step that is idempotent on its own results twice is the
      same as applying it once. */
  lemma {:induction false} MapElementsIdempotent(container: Json, step: Json -> Outcome<Json>)
    requires MapElements(container, step).Ok?
    requires forall x :: step(x).Ok? ==> step(step(x).value) == step(x)
    ensures MapElements(MapElements(container, step).value, step) == MapElements(container, step)
  {
    var out := MapElements(container, step).value;
    if container.JArr? {
      assert Elements(out) == Ok(out.items);
      forall k | 0 <= k < |out.items|
        ensures step(out.items[k]) == Ok(out.items[k])
      {
        assert step(container.items[k]) == Ok(out.items[k]);
      }
      MapElementsFixedPoint(out, step);
    }
  }

  // ----- Python's str() and repr() -----

  /** `str(v)`: a string is itself, everything else is its repr. */
  function Str(j: Json): (r: string)
    ensures j.JStr? ==> r == j.s
  {
    if j.JStr? then j.s else Repr(j)
  }

  /** `repr(v)` of a decoded JSON value. */
  function Repr(j: Json): string
    decreases j
  {
    match j
    case JNull => "None"
    case JBool(b) => if b then "True" else "False"
    case JNum(n) => IntToString(n)
    case JStr(s) => Quote(s)
    case JArr(items) =>
      "[" + Join(seq(|items|, i requires 0 <= i < |items| => Repr(items[i]))) + "]"
    case JObj(keys, fields) =>
      "{" + Join(seq(|keys|, i requires 0 <= i < |keys| =>
                   Quote(keys[i]) + ": " + (if keys[i] in fields then Repr(fields[keys[i]]) else "None"))) + "}"
  }

  /** Python's repr of a string: double quotes when the string holds a
      single quote and no double quote, single quotes otherwise, with the
      contents escaped for the chosen quote. */
  function Quote(s: string): string
  {
    var q := if '\'' in s && '"' !in s then '"' else '\'';
    [q] + Escape(s, q) + [q]
  }

  /** The escaped contents of a string repr: backslash, the enclosing
      quote, newline, carriage return and tab by their escapes, the other
      ASCII control characters as `\xNN`. */
  function Escape(s: string, q: char): string
  {
    if s == [] then "" else EscapeChar(s[0], q) + Escape(s[1..], q)
  }

  function EscapeChar(c: char, q: char): string
  {
    if c == '\\' then "\\\\"
    else if c == q then ['\\', c]
    else if c == '\n' then "\\n"
    else if c == '\r' then "\\r"
    else if c == '\t' then "\\t"
    else if c < ' ' || c as int == 0x7F then "\\x" + [HexDigit(c as int / 16), HexDigit(c as int % 16)]
    else [c]
  }

  function HexDigit(d: nat): char
    requires d < 16
  {
    if d < 10 then '0' + d as char else 'a' + (d - 10) as char
  }

  /** `", ".join(parts)`. */
  function Join(parts: seq<string>): string
  {
    if parts == [] then ""
    else if |parts| == 1 then parts[0]
    else parts[0] + ", " + Join(parts[1..])
  }

  /** str() of an empty list, the label one of the two row normalisers
      gives an empty array-form row. */
  lemma StrEmptyList()
    ensures Str(JArr([])) == "[]"
  {
  }

  // ----- decimal integers -----

  function DigitChar(d: nat): char
    requires d < 10
  {
    ('0' as int + d) as char
  }

  /** `str(n)` for a natural number. */
  function NatToString(n: nat): (r: string)
    ensures |r| >= 1
    ensures forall i :: 0 <= i < |r| ==> '0' <= r[i] <= '9'
  {
    if n < 10 then [DigitChar(n)] else NatToString(n / 10) + [DigitChar(n % 10)]
  }

  /** `str(n)` for any integer. */
  function IntToString(n: int): string
  {
    if n < 0 then "-" + NatToString(-n) else NatToString(n)
  }

  /** `int(s)` for a string of decimal digits. */
  function ParseNat(s: string): nat
    requires forall i :: 0 <= i < |s| ==> '0' <= s[i] <= '9'
  {
    if s == [] then 0 else 10 * ParseNat(s[..|s| - 1]) + (s[|s| - 1] as int - '0' as int)
  }

  /** Reading back the decimal text of `n` gives `n`. */
  lemma {:induction false} ParseNatToString(n: nat)
    ensures ParseNat(NatToString(n)) == n
  {
    var s := NatToString(n);
    if n >= 10 {
      ParseNatToString(n / 10);
      assert s[..|s| - 1] == NatToString(n / 10);
    }
  }

  /** Distinct numbers have distinct decimal texts. */
  lemma NatToStringInjective(m: nat, n: nat)
    requires m != n
    ensures NatToString(m) != NatToString(n)
  {
    ParseNatToString(m);
    ParseNatToString(n);
  }
}
