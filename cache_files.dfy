/**
 * What the two JSON record caches share: the state of a cache file, the
 * exceptions that escape them, and the Python operations they apply to a
 * decoded file: `x[key]`, `for x in value`, and the generator scan
 * `next((... for x in records if x[key] == value), None)`.
 */
module CacheFiles {
  import opened Wrappers
  import opened JsonValues

  /**
   * A cache file: absent, holding text `load` rejects (the empty file
   * written on creation or by a reset is one), or holding a JSON value.
   * Writing `dump(v)` and loading it back gives `v`.
   */
  datatype Contents = Missing | Blank | Decoded(data: Json)

  /** A cache file on disk; every cache object opened on the same path shares it. */
  class CacheFile {
    var contents: Contents

    constructor (contents: Contents)
      ensures this.contents == contents
    {
      this.contents := contents;
    }
  }

  /** The exceptions the caches let escape. */
  datatype Failure = TypeError | AttributeError

  /** A value returned, or an exception raised. */
  datatype Result<T> = Ok(value: T) | Raised(error: Failure)

  /** The outcome of `x[key]` on a decoded value. */
  datatype Subscript = Found(value: Json) | MissingKey | WrongType

  /** `x[key]` with a string key: a dict finds or misses it (`KeyError`); anything else raises `TypeError`. */
  function Lookup(x: Json, key: string): (r: Subscript)
    ensures r.Found? <==> x.Object? && HasKey(x.members, key)
    ensures r.WrongType? <==> !x.Object?
  {
    if x.Object? then
      match Get(x.members, key)
      case Some(v) => Found(v)
      case None => MissingKey
    else WrongType
  }

  /** The keys of a dict, as the strings iteration yields. */
  function KeyStrings(ms: seq<Member>): (r: seq<Json>)
    ensures |r| == |ms|
    ensures forall i :: 0 <= i < |r| ==> r[i] == String(ms[i].key)
  {
    if ms == [] then [] else [String(ms[0].key)] + KeyStrings(ms[1..])
  }

  /** The characters of a string, each a one-character string. */
  function CharStrings(s: string): (r: seq<Json>)
    ensures |r| == |s|
    ensures forall i :: 0 <= i < |r| ==> r[i] == String([s[i]])
  {
    if s == [] then [] else [String([s[0]])] + CharStrings(s[1..])
  }

  /** `for x in v`: a list yields its items, a dict its keys, a string its characters; the rest are not iterable. */
  function Elements(v: Json): Option<seq<Json>> {
    match v
    case Array(items) => Some(items)
    case Object(ms) => Some(KeyStrings(ms))
    case String(s) => Some(CharStrings(s))
    case _ => None
  }

  /** Where a scan over records stopped. */
  datatype Scan = Match(index: nat) | NoMatch | KeyFault | TypeFault

  /** A scan result seen from `k` places further left. */
  function Shift(s: Scan, k: nat): Scan {
    if s.Match? then Match(s.index + k) else s
  }

  /**
   * The generator scan `x[key] == value for x in items`, stopped at the
   * first hit or at the first record whose subscript raises.
   */
  function FirstWith(items: seq<Json>, key: string, value: Json): (r: Scan)
    ensures r.Match? ==> r.index < |items| && Lookup(items[r.index], key) == Found(value)
    decreases |items|
  {
    if items == [] then NoMatch
    else
      match Lookup(items[0], key)
      case MissingKey => KeyFault
      case WrongType => TypeFault
      case Found(v) =>
        if v == value then Match(0)
        else
          var rest := FirstWith(items[1..], key, value);
          assert rest.Match? ==> items[1..][rest.index] == items[rest.index + 1];
          Shift(rest, 1)
  }

  /** Every record the scan passed over is a dict with `key`, holding another value. */
  lemma {:induction false} FirstWithSkipped(items: seq<Json>, key: string, value: Json, j: nat)
    requires var r := FirstWith(items, key, value);
      (r.Match? && j < r.index) || (r.NoMatch? && j < |items|)
    ensures Lookup(items[j], key).Found? && Lookup(items[j], key) != Found(value)
    decreases |items|
  {
    if j > 0 {
      FirstWithSkipped(items[1..], key, value, j - 1);
      assert items[1..][j - 1] == items[j];
    }
  }

  /** In records that are all dicts with `key`, the scan hits exactly when some record holds `value`. */
  lemma {:induction false} FirstWithOnRecords(items: seq<Json>, key: string, value: Json)
    requires forall x :: x in items ==> Lookup(x, key).Found?
    ensures FirstWith(items, key, value).Match? || FirstWith(items, key, value).NoMatch?
    ensures FirstWith(items, key, value).Match? <==> exists j :: 0 <= j < |items| && Lookup(items[j], key) == Found(value)
    decreases |items|
  {
    if items != [] {
      assert items[0] in items;
      FirstWithOnRecords(items[1..], key, value);
      if Lookup(items[0], key) != Found(value)
        && exists j :: 0 <= j < |items| && Lookup(items[j], key) == Found(value)
      {
        var j :| 0 <= j < |items| && Lookup(items[j], key) == Found(value);
        assert items[1..][j - 1] == items[j];
      }
    }
  }

  /** Past records that are dicts with `key` holding other values, the scan carries on from record `i`. */
  lemma {:induction false} FirstWithAfter(items: seq<Json>, i: nat, key: string, value: Json)
    requires i <= |items|
    requires forall j :: 0 <= j < i ==> Lookup(items[j], key).Found? && Lookup(items[j], key) != Found(value)
    ensures FirstWith(items, key, value) == Shift(FirstWith(items[i..], key, value), i)
    decreases i
  {
    if i == 0 {
      assert items[0..] == items;
    } else {
      assert items[1..][i - 1..] == items[i..];
      forall j | 0 <= j < i - 1
        ensures Lookup(items[1..][j], key).Found? && Lookup(items[1..][j], key) != Found(value)
      {
        assert items[1..][j] == items[j + 1];
      }
      FirstWithAfter(items[1..], i - 1, key, value);
    }
  }

  /** The scan as the generator runs it, one record at a time. */
  method ScanRecords(items: seq<Json>, key: string, value: Json) returns (r: Scan)
    ensures r == FirstWith(items, key, value)
  {
    var i := 0;
    while i < |items|
      invariant 0 <= i <= |items|
      invariant forall j :: 0 <= j < i ==> Lookup(items[j], key).Found? && Lookup(items[j], key) != Found(value)
    {
      var x := Lookup(items[i], key);
      if x.MissingKey? || x.WrongType? || x.value == value {
        FirstWithAfter(items, i, key, value);
        assert items[i..][0] == items[i];
        r := if x.MissingKey? then KeyFault else if x.WrongType? then TypeFault else Match(i);
        return;
      }
      i := i + 1;
    }
    FirstWithAfter(items, i, key, value);
    r := NoMatch;
  }
}
