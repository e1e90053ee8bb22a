/**
 * Decoded JSON values as Python sees them after `json.loads`: `None`,
 * booleans, integers, strings, lists and dicts. A dict keeps its members in
 * insertion order, which is the order Python iterates them in.
 */
module JsonValues {
  import opened Wrappers
  import Strings

  datatype Json =
    | Null
    | Bool(b: bool)
    | Number(n: int)
    | String(s: string)
    | Array(items: seq<Json>)
    | Object(members: seq<Member>)

  datatype Member = Member(key: string, value: Json)

  /** `key in d` for a dict given by its members. */
  predicate HasKey(ms: seq<Member>, key: string) {
    exists i :: 0 <= i < |ms| && ms[i].key == key
  }

  /** `d.get(key)`: the value stored under `key`, if any. */
  function Get(ms: seq<Member>, key: string): (r: Option<Json>)
    ensures r.Some? <==> HasKey(ms, key)
    ensures r.Some? ==> exists i :: 0 <= i < |ms| && ms[i] == Member(key, r.value)
    decreases |ms|
  {
    if ms == [] then None
    else if ms[0].key == key then Some(ms[0].value)
    else
      var r := Get(ms[1..], key);
      assert forall i :: 1 <= i < |ms| ==> ms[1..][i - 1] == ms[i];
      r
  }

  /** `d.get(key, default)`. */
  function GetOr(ms: seq<Member>, key: string, default: Json): Json {
    Get(ms, key).GetOr(default)
  }

  /** `isinstance(j, (dict, list))`. */
  predicate IsContainer(j: Json) {
    j.Array? || j.Object?
  }

  /** Python truthiness: `None`, `False`, `0`, `""`, `[]` and `{}` are false. */
  predicate Truthy(j: Json) {
    match j
    case Null => false
    case Bool(b) => b
    case Number(n) => n != 0
    case String(s) => s != []
    case Array(items) => items != []
    case Object(ms) => ms != []
  }

  /**
   * `j[key]` with a string key: a dict yields the member's value, a missing
   * key raises `KeyError`, and every other value raises `TypeError`; both
   * errors read here as `None`.
   */
  function Index(j: Json, key: string): Option<Json> {
    if j.Object? then Get(j.members, key) else None
  }

  /** `isinstance(j, int)`; a Python `bool` is an `int` too. */
  predicate IsInt(j: Json) {
    j.Number? || j.Bool?
  }

  /** The integer a Python `int` (or `bool`) stands for. */
  function IntValue(j: Json): int
    requires IsInt(j)
  {
    if j.Bool? then (if j.b then 1 else 0) else j.n
  }

  /** `j == k` for an integer literal `k`: `False == 0` and `True == 1` hold in Python. */
  predicate EqualsInt(j: Json, k: int) {
    IsInt(j) && IntValue(j) == k
  }

  /** `str(j)`, as an f-string renders it: a string is itself, every other value its `repr`. */
  function Str(j: Json): string {
    if j.String? then j.s else Repr(j)
  }

  /**
   * `repr(j)`: `None`, `True`, `False`, the decimal integer, the quoted
   * string, and lists and dicts with their items or `key: value` members
   * separated by `", "`.
   */
  function Repr(j: Json): string
    decreases j, 1
  {
    match j
    case Null => "None"
    case Bool(b) => if b then "True" else "False"
    case Number(n) => Strings.IntStr(n)
    case String(s) => Strings.StrRepr(s)
    case Array(items) => "[" + ReprItems(items) + "]"
    case Object(ms) => "{" + ReprMembers(ms) + "}"
  }

  /** The items of a list, as `repr` joins them. */
  function ReprItems(items: seq<Json>): string
    decreases items, 0
  {
    if items == [] then ""
    else if |items| == 1 then Repr(items[0])
    else Repr(items[0]) + ", " + ReprItems(items[1..])
  }

  /** The members of a dict, as `repr` joins them. */
  function ReprMembers(ms: seq<Member>): string
    decreases ms, 0
  {
    if ms == [] then ""
    else
      var first := Strings.StrRepr(ms[0].key) + ": " + Repr(ms[0].value);
      if |ms| == 1 then first else first + ", " + ReprMembers(ms[1..])
  }

  /** A dict of two members: each member as `key: value`, the two separated by `", "`, in braces. */
  lemma ReprPair(k1: string, v1: Json, k2: string, v2: Json)
    ensures Repr(Object([Member(k1, v1), Member(k2, v2)]))
      == "{" + Strings.StrRepr(k1) + ": " + Repr(v1) + ", " + Strings.StrRepr(k2) + ": " + Repr(v2) + "}"
  {
    var ms := [Member(k1, v1), Member(k2, v2)];
    var x1, y1, x2, y2 := Strings.StrRepr(k1), Repr(v1), Strings.StrRepr(k2), Repr(v2);
    assert ms[1..] == [Member(k2, v2)];
    assert ReprMembers(ms[1..]) == x2 + ": " + y2;
    assert ReprMembers(ms) == x1 + ": " + y1 + ", " + (x2 + ": " + y2);
    assert Repr(Object(ms)) == "{" + ReprMembers(ms) + "}";
    Regroup("{", x1, ": ", y1, ", ", x2, y2, "}");
  }

  /** Regrouping the concatenation of a two-member dict's `repr`. */
  lemma Regroup(p: string, x1: string, c: string, y1: string, q: string, x2: string, y2: string, r: string)
    ensures p + (x1 + c + y1 + q + (x2 + c + y2)) + r == p + x1 + c + y1 + q + x2 + c + y2 + r
  {
  }
}
