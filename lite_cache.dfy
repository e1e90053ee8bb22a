/**
 * `LiteCache`: a JSON file per request URL caching link-resolution
 * responses as a list of `{"url", "data", "response"}` records. The file
 * name is the URL without the API prefix, the query, or `http(s)://`, with
 * `/` turned into `_`. Only link-resolution URLs are ever saved or looked up.
 */
module LiteCaches {
  import opened Wrappers
  import opened JsonValues
  import Strings
  import opened CacheFiles

  /** The API prefix dropped from every URL before it names a file. */
  const ServicePrefix := "http://service.aminoapps.com/api/v1/g/"

  /** `url[:url.find("?")]` once `"?"` or `"&"` occurs: with `"&"` alone, `find` is -1 and the last character goes. */
  function CutQuery(url: string): (r: string)
    ensures '?' in url ==> r == url[..Strings.Find(url, '?')] && '?' !in r
    ensures '?' !in url && '&' in url ==> r == url[..|url| - 1]
    ensures '?' !in url && '&' !in url ==> r == url
  {
    if '?' in url || '&' in url then Strings.SliceTo(url, Strings.Find(url, '?')) else url
  }

  /** `sub('https?://', '', s)`: every `http://` and `https://`, removed left to right. */
  function StripSchemes(s: string): (r: string)
    ensures |r| <= |s|
    decreases |s|
  {
    if s == [] then []
    else if Strings.StartsWith(s, "http://") then StripSchemes(s[7..])
    else if Strings.StartsWith(s, "https://") then StripSchemes(s[8..])
    else [s[0]] + StripSchemes(s[1..])
  }

  /** The stem of the cache file for `url`; the file is `cache/<stem>.json`. */
  function FileStem(url: string): (r: string)
    ensures '/' !in r
  {
    Strings.ReplaceChar(StripSchemes(CutQuery(Strings.RemoveAll(url, ServicePrefix))), '/', '_')
  }

  /** The cache file name for `url`: one path component ending in `.json`. */
  function CacheFileName(url: string): (r: string)
    ensures |r| >= 5 && r[|r| - 5..] == ".json"
    ensures '/' !in r
  {
    var stem := FileStem(url);
    assert (stem + ".json")[|stem|..] == ".json";
    assert forall k :: 0 <= k < 5 ==> ".json"[k] != '/';
    stem + ".json"
  }

  /** `is_link_resolution()`: the URL mentions `link-resolution`. */
  predicate IsLinkResolution(url: string) {
    Strings.Contains(url, "link-resolution")
  }

  /** The record `prepare_data()` builds. */
  function Entry(url: string, data: Json, response: Json): Json {
    Object([Member("url", String(url)), Member("data", data), Member("response", response)])
  }

  /** `prepare_data()`: a record for link-resolution URLs, `None` otherwise. */
  function PrepareData(url: string, data: Json, response: Json): (r: Option<Json>)
    ensures r.Some? <==> IsLinkResolution(url)
    ensures r.Some? ==> Lookup(r.value, "url") == Found(String(url)) && Lookup(r.value, "response") == Found(response)
  {
    var e := Entry(url, data, response);
    assert Get(e.members, "url") == Some(String(url));
    assert e.members[1..][1..] == [Member("response", response)];
    assert Get(e.members[1..][1..], "response") == Some(response);
    assert Get(e.members, "response") == Some(response);
    if IsLinkResolution(url) then Some(e) else None
  }

  /** Python's `needle in v` for a value loaded from JSON. */
  function Membership(needle: Json, v: Json): (r: Result<bool>)
    ensures v.Array? ==> r == Ok(needle in v.items)
    ensures r.Raised? ==> r.error == TypeError
  {
    match v
    case Array(items) => Ok(needle in items)
    case Object(ms) =>
      // only hashable values may be looked up among a dict's keys
      if needle.Object? || needle.Array? then Raised(TypeError) else Ok(needle in KeyStrings(ms))
    case String(s) => if needle.String? then Ok(Strings.Contains(s, needle.s)) else Raised(TypeError)
    case _ => Raised(TypeError)
  }

  /** `already_exists(data)`, with `None` as `Null`: an absent or unreadable file holds nothing. */
  function AlreadyExistsSpec(needle: Json, c: Contents): (r: Result<bool>)
    ensures !c.Decoded? ==> r == Ok(false)
  {
    if c.Decoded? then Membership(needle, c.data) else Ok(false)
  }

  /** `save_helper(file, data)`: append to the list in the file, an unreadable file counting as `[]`. */
  function SaveHelperSpec(data: Json, c: Contents): (Result<()>, Contents) {
    var cached := if c.Decoded? then c.data else Array([]);
    if cached.Array? then (Ok(()), Decoded(Array(cached.items + [data])))
    else (Raised(AttributeError), c)
  }

  /**
   * `save()`. The tuple `(data is None, self.already_exists(data))` is built
   * before `any` looks at it, so the membership test runs even for a URL
   * that is not a link resolution.
   */
  function SaveSpec(url: string, data: Json, response: Json, c: Contents): (Result<()>, Contents) {
    var entry := PrepareData(url, data, response);
    var probe := AlreadyExistsSpec(entry.GetOr(Null), c);
    if probe.Raised? then (Raised(probe.error), c)
    else if entry.None? || probe.value then (Ok(()), c)
    else SaveHelperSpec(entry.value, c)
  }

  /** `get()` with `get_helper`: the response of the first record for this URL, `None` as `Null`. */
  function GetSpec(url: string, c: Contents): (Result<Json>, Contents) {
    match c
    case Missing => (Ok(Null), c)
    case Blank => (Ok(Null), c)
    case Decoded(d) =>
      if !IsLinkResolution(url) then (Ok(Null), c)
      else
        match Elements(d)
        case None => (Raised(TypeError), c)
        case Some(items) =>
          match FirstWith(items, "url", String(url))
          case Match(i) =>
            var response := Lookup(items[i], "response");
            if response.Found? then (Ok(response.value), c) else (Ok(Null), Blank)
          case NoMatch => (Ok(Null), c)
          case KeyFault => (Ok(Null), Blank)
          case TypeFault => (Raised(TypeError), c)
  }

  class LiteCache {
    const url: string
    const httpMethod: Option<string>
    const data: Json
    const response: Json
    /** The file name under the `cache` directory. */
    const cacheFile: string
    /** The file at that name. */
    const file: CacheFile

    /** `__init__`: name the file after the URL and create it, empty, when it does not exist. */
    constructor (url: string, httpMethod: Option<string>, data: Json, response: Json, file: CacheFile)
      modifies file
      ensures this.url == url && this.httpMethod == httpMethod && this.data == data && this.response == response
      ensures this.file == file && cacheFile == CacheFileName(url)
      ensures file.contents == if old(file.contents).Missing? then Blank else old(file.contents)
    {
      this.url := url;
      this.httpMethod := httpMethod;
      this.data := data;
      this.response := response;
      cacheFile := CacheFileName(url);
      this.file := file;
      if file.contents.Missing? {
        file.contents := Blank;
      }
    }

    /** `already_exists(data)`. */
    method AlreadyExists(needle: Json) returns (r: Result<bool>)
      ensures r == AlreadyExistsSpec(needle, file.contents)
    {
      if file.contents.Decoded? {
        r := Membership(needle, file.contents.data);
      } else {
        r := Ok(false);
      }
    }

    /** `save_helper(file, data)`. */
    method SaveHelper(entry: Json) returns (r: Result<()>)
      modifies file
      ensures (r, file.contents) == SaveHelperSpec(entry, old(file.contents))
    {
      var cached := if file.contents.Decoded? then file.contents.data else Array([]);
      if !cached.Array? {
        return Raised(AttributeError);
      }
      file.contents := Decoded(Array(cached.items + [entry]));
      r := Ok(());
    }

    /** `save()`. */
    method Save() returns (r: Result<()>)
      modifies file
      ensures (r, file.contents) == SaveSpec(url, data, response, old(file.contents))
    {
      var entry := PrepareData(url, data, response);
      var probe := AlreadyExists(entry.GetOr(Null));
      if probe.Raised? {
        return Raised(probe.error);
      }
      if entry.None? || probe.value {
        return Ok(());
      }
      r := SaveHelper(entry.value);
    }

    /** `get()`: a `KeyError` in the scan empties the file. */
    method Get() returns (r: Result<Json>)
      modifies file
      ensures (r, file.contents) == GetSpec(url, old(file.contents))
    {
      if !file.contents.Decoded? || !IsLinkResolution(url) {
        return Ok(Null);
      }
      var records := Elements(file.contents.data);
      if records.None? {
        return Raised(TypeError);
      }
      var scan := ScanRecords(records.value, "url", String(url));
      if scan.Match? {
        var found := Lookup(records.value[scan.index], "response");
        if found.Found? {
          r := Ok(found.value);
        } else {
          file.contents := Blank;
          r := Ok(Null);
        }
      } else if scan.NoMatch? {
        r := Ok(Null);
      } else if scan.KeyFault? {
        file.contents := Blank;
        r := Ok(Null);
      } else {
        r := Raised(TypeError);
      }
    }
  }

  /** `s.replace(pat, "")` splits around a character the pattern does not contain. */
  lemma {:induction false} RemoveAllAround(p: string, c: char, q: string, pat: string)
    requires pat != [] && c !in pat
    ensures Strings.RemoveAll(p + [c] + q, pat) == Strings.RemoveAll(p, pat) + [c] + Strings.RemoveAll(q, pat)
    decreases |p|, 1
  {
    if p == [] {
      RemoveAllAroundFront(c, q, pat);
    } else if |p + [c] + q| < |pat| {
      assert |q| < |pat|;
    } else if |pat| <= |p| && p[..|pat|] == pat {
      RemoveAllAroundHit(p, c, q, pat);
    } else {
      RemoveAllAroundKeep(p, c, q, pat);
      RemoveAllAround(p[1..], c, q, pat);
      if |p| < |pat| {
        RemoveAllAroundShort(p, c, q, pat);
      } else {
        RemoveAllAroundMiss(p, c, q, pat);
      }
    }
  }

  /** The step of `RemoveAllAround` where `p` is empty: the string starts with `c`, which no match covers. */
  lemma RemoveAllAroundFront(c: char, q: string, pat: string)
    requires pat != [] && c !in pat
    ensures Strings.RemoveAll([] + [c] + q, pat) == Strings.RemoveAll([], pat) + [c] + Strings.RemoveAll(q, pat)
  {
    var s := [c] + q;
    assert [] + [c] + q == s;
    if |pat| <= |s| {
      assert s[..|pat|][0] == c;
      assert s[1..] == q;
    }
  }

  /** When `p` does not start with the pattern, neither does `p + [c] + q`, and its first character is kept. */
  lemma RemoveAllAroundKeep(p: string, c: char, q: string, pat: string)
    requires pat != [] && c !in pat && p != []
    requires |pat| <= |p + [c] + q| && !(|pat| <= |p| && p[..|pat|] == pat)
    ensures Strings.RemoveAll(p + [c] + q, pat) == [p[0]] + Strings.RemoveAll(p[1..] + [c] + q, pat)
  {
    var s := p + [c] + q;
    if |p| < |pat| {
      assert s[..|pat|][|p|] == c;
    } else {
      assert s[..|pat|] == p[..|pat|];
    }
    assert s[1..] == p[1..] + [c] + q;
  }

  /** The step of `RemoveAllAround` where `p` starts with the pattern. */
  lemma {:induction false} RemoveAllAroundHit(p: string, c: char, q: string, pat: string)
    requires pat != [] && c !in pat
    requires |pat| <= |p| && p[..|pat|] == pat
    ensures Strings.RemoveAll(p + [c] + q, pat) == Strings.RemoveAll(p, pat) + [c] + Strings.RemoveAll(q, pat)
    decreases |p|, 0
  {
    var s := p + [c] + q;
    assert s[..|pat|] == pat;
    assert s[|pat|..] == p[|pat|..] + [c] + q;
    RemoveAllAround(p[|pat|..], c, q, pat);
  }

  /** The step of `RemoveAllAround` where `p` is shorter than the pattern, so it stays whole. */
  lemma {:induction false} RemoveAllAroundShort(p: string, c: char, q: string, pat: string)
    requires pat != [] && p != [] && |p| < |pat|
    requires Strings.RemoveAll(p + [c] + q, pat) == [p[0]] + Strings.RemoveAll(p[1..] + [c] + q, pat)
    requires Strings.RemoveAll(p[1..] + [c] + q, pat) == Strings.RemoveAll(p[1..], pat) + [c] + Strings.RemoveAll(q, pat)
    ensures Strings.RemoveAll(p + [c] + q, pat) == Strings.RemoveAll(p, pat) + [c] + Strings.RemoveAll(q, pat)
  {
    assert Strings.RemoveAll(p[1..], pat) == p[1..];
    assert Strings.RemoveAll(p, pat) == p;
    assert p == [p[0]] + p[1..];
  }

  /** The step of `RemoveAllAround` where `p` is long enough but does not start with the pattern. */
  lemma {:induction false} RemoveAllAroundMiss(p: string, c: char, q: string, pat: string)
    requires pat != [] && |pat| <= |p| && p[..|pat|] != pat
    requires Strings.RemoveAll(p + [c] + q, pat) == [p[0]] + Strings.RemoveAll(p[1..] + [c] + q, pat)
    requires Strings.RemoveAll(p[1..] + [c] + q, pat) == Strings.RemoveAll(p[1..], pat) + [c] + Strings.RemoveAll(q, pat)
    ensures Strings.RemoveAll(p + [c] + q, pat) == Strings.RemoveAll(p, pat) + [c] + Strings.RemoveAll(q, pat)
  {
    assert Strings.RemoveAll(p, pat) == [p[0]] + Strings.RemoveAll(p[1..], pat);
  }

  /** `s.replace(pat, "")` introduces no character that `s` lacks. */
  lemma {:induction false} RemoveAllKeepsOut(s: string, pat: string, c: char)
    requires pat != [] && c !in s
    ensures c !in Strings.RemoveAll(s, pat)
    decreases |s|
  {
    if |s| >= |pat| {
      if s[..|pat|] == pat {
        assert forall k :: 0 <= k < |s[|pat|..]| ==> s[|pat|..][k] == s[|pat| + k];
        RemoveAllKeepsOut(s[|pat|..], pat, c);
      } else {
        assert forall k :: 0 <= k < |s[1..]| ==> s[1..][k] == s[k + 1];
        RemoveAllKeepsOut(s[1..], pat, c);
      }
    }
  }

  /** Requests that differ only in their query string share one cache file. */
  lemma QueriesShareFile(path: string, q1: string, q2: string)
    requires '?' !in path
    ensures CacheFileName(path + "?" + q1) == CacheFileName(path + "?" + q2)
  {
    RemoveAllAround(path, '?', q1, ServicePrefix);
    RemoveAllAround(path, '?', q2, ServicePrefix);
    RemoveAllKeepsOut(path, ServicePrefix, '?');
    var stem := Strings.RemoveAll(path, ServicePrefix);
    assert (stem + ['?'] + Strings.RemoveAll(q1, ServicePrefix))[..|stem|] == stem;
    assert (stem + ['?'] + Strings.RemoveAll(q2, ServicePrefix))[..|stem|] == stem;
    assert "?" == ['?'];
    FindAfter(stem, Strings.RemoveAll(q1, ServicePrefix));
    FindAfter(stem, Strings.RemoveAll(q2, ServicePrefix));
  }

  /** The first `?` of `stem + "?" + rest` comes right after `stem`. */
  lemma {:induction false} FindAfter(stem: string, rest: string)
    requires '?' !in stem
    ensures Strings.Find(stem + ['?'] + rest, '?') == |stem|
    decreases |stem|
  {
    if stem != [] {
      assert (stem + ['?'] + rest)[1..] == stem[1..] + ['?'] + rest;
      FindAfter(stem[1..], rest);
    }
  }

  /** A URL with `&` but no `?` loses its last character in the file name. */
  lemma AmpersandDropsLastCharacter()
    ensures CutQuery("a&b") == "a&"
  {
  }

  /** Only link-resolution URLs are saved or found: any other URL leaves its file as it was. */
  lemma OtherUrlsUntouched(url: string, data: Json, response: Json, c: Contents)
    requires !IsLinkResolution(url)
    ensures SaveSpec(url, data, response, c).1 == c
    ensures SaveSpec(url, data, response, c).0 == (if AlreadyExistsSpec(Null, c).Raised? then Raised(TypeError) else Ok(()))
    ensures GetSpec(url, c) == (Ok(Null), c)
  {
  }

  /** Even when nothing is to be saved, `save()` raises `TypeError` on a file holding a JSON string. */
  lemma EagerCheckRaises(url: string, data: Json, response: Json, s: string)
    requires !IsLinkResolution(url)
    ensures SaveSpec(url, data, response, Decoded(String(s))) == (Raised(TypeError), Decoded(String(s)))
  {
  }

  /** Saving twice stores the record once: a second `save()` finds it and writes nothing. */
  lemma SaveIdempotent(url: string, data: Json, response: Json, c: Contents)
    requires SaveSpec(url, data, response, c).0 == Ok(())
    ensures SaveSpec(url, data, response, SaveSpec(url, data, response, c).1) == (Ok(()), SaveSpec(url, data, response, c).1)
  {
    if IsLinkResolution(url) {
      var entry := Entry(url, data, response);
      var c1 := SaveSpec(url, data, response, c).1;
      if !(c.Decoded? && c.data.Array? && entry in c.data.items) {
        assert c1.data.items[|c1.data.items| - 1] == entry;
      }
    }
  }

  /**
   * A link-resolution response saved into a cache of well-formed records
   * that holds none for its URL is what `get()` returns next.
   */
  lemma {:induction false} GetAfterSave(url: string, data: Json, response: Json, items: seq<Json>)
    requires IsLinkResolution(url)
    requires forall x :: x in items ==> Lookup(x, "url").Found? && Lookup(x, "url") != Found(String(url))
    ensures var c1 := SaveSpec(url, data, response, Decoded(Array(items))).1;
      GetSpec(url, c1) == (Ok(response), c1)
  {
    var entry := Entry(url, data, response);
    assert PrepareData(url, data, response) == Some(entry);
    assert entry !in items;
    var all := items + [entry];
    forall j | 0 <= j < |items|
      ensures Lookup(all[j], "url").Found? && Lookup(all[j], "url") != Found(String(url))
    {
      assert all[j] == items[j] && items[j] in items;
    }
    FirstWithAfter(all, |items|, "url", String(url));
    assert all[|items|..] == [entry];
    assert FirstWith([entry], "url", String(url)) == Match(0);
    assert FirstWith(all, "url", String(url)) == Match(|items|);
    assert all[|items|] == entry;
  }
}
