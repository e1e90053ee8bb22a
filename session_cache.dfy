/**
 * `SessionCache`: a JSON file holding a list of `{"email", "sid"}` records.
 * `save` skips an email already cached unless forced; a forced save filters
 * out the email's records and appends the new one. `get` returns the sid
 * of the first record with the email. A record without `"email"` (or
 * `"sid"`) raises `KeyError`, which the readers answer by emptying the file.
 */
module SessionCaches {
  import opened Wrappers
  import opened JsonValues
  import opened CacheFiles

  /** The record `save` writes. */
  function Record(email: string, sid: Json): Json {
    Object([Member("email", String(email)), Member("sid", sid)])
  }

  /** Records that are all dicts with an `"email"` key: no subscript in the cache raises. */
  predicate WellFormed(items: seq<Json>) {
    forall x :: x in items ==> Lookup(x, "email").Found?
  }

  /** How many records hold `email`. */
  function CountEmail(items: seq<Json>, email: string): nat
    decreases |items|
  {
    if items == [] then 0
    else CountEmail(items[..|items| - 1], email) + (if Lookup(items[|items| - 1], "email") == Found(String(email)) then 1 else 0)
  }

  /** The outcome of `list(filter(lambda x: x["email"] != email, items))`. */
  datatype Filtered = Kept(items: seq<Json>) | FilterKeyError | FilterTypeError

  /** The filter, evaluated in order: the first record whose subscript raises decides the error. */
  function KeepOthers(items: seq<Json>, email: string): Filtered
    decreases |items|
  {
    if items == [] then Kept([])
    else
      var front := KeepOthers(items[..|items| - 1], email);
      if !front.Kept? then front
      else
        match Lookup(items[|items| - 1], "email")
        case MissingKey => FilterKeyError
        case WrongType => FilterTypeError
        case Found(v) => Kept(front.items + if v != String(email) then [items[|items| - 1]] else [])
  }

  /** Once a prefix of the records raises, the whole filter raises the same error. */
  lemma {:induction false} KeepOthersFaultPersists(items: seq<Json>, i: nat, email: string)
    requires i <= |items|
    requires !KeepOthers(items[..i], email).Kept?
    ensures KeepOthers(items, email) == KeepOthers(items[..i], email)
    decreases |items| - i
  {
    if i < |items| {
      assert items[..i + 1][..i] == items[..i];
      KeepOthersFaultPersists(items, i + 1, email);
    } else {
      assert items[..i] == items;
    }
  }

  /**
   * On well-formed records the filter succeeds, keeps exactly the records of
   * other emails, and keeps none with `email`.
   */
  lemma KeepOthersOnRecords(items: seq<Json>, email: string)
    requires WellFormed(items)
    ensures KeepOthers(items, email).Kept?
    ensures forall x :: x in KeepOthers(items, email).items <==> x in items && Lookup(x, "email") != Found(String(email))
    ensures CountEmail(KeepOthers(items, email).items, email) == 0
  {
    KeepOthersSucceeds(items, email);
    KeepOthersMembers(items, email);
    KeepOthersCount(items, email);
  }

  /** On well-formed records the filter raises nothing. */
  lemma {:induction false} KeepOthersSucceeds(items: seq<Json>, email: string)
    requires WellFormed(items)
    ensures KeepOthers(items, email).Kept?
    decreases |items|
  {
    if items != [] {
      var front := items[..|items| - 1];
      assert forall x :: x in front ==> x in items;
      assert items[|items| - 1] in items;
      KeepOthersSucceeds(front, email);
    }
  }

  /** A successful filter keeps a record exactly when its email is another one. */
  lemma {:induction false} KeepOthersMembers(items: seq<Json>, email: string)
    requires KeepOthers(items, email).Kept?
    ensures forall x :: x in KeepOthers(items, email).items <==>
      x in items && Lookup(x, "email").Found? && Lookup(x, "email") != Found(String(email))
    decreases |items|
  {
    if items != [] {
      var front := items[..|items| - 1];
      var last := items[|items| - 1];
      assert items == front + [last];
      KeepOthersMembers(front, email);
      var kept := KeepOthers(front, email).items;
      var keep := Lookup(last, "email") != Found(String(email));
      assert KeepOthers(items, email).items == kept + if keep then [last] else [];
    }
  }

  /** A successful filter keeps no record with `email`. */
  lemma {:induction false} KeepOthersCount(items: seq<Json>, email: string)
    requires KeepOthers(items, email).Kept?
    ensures CountEmail(KeepOthers(items, email).items, email) == 0
    decreases |items|
  {
    if items != [] {
      var front := items[..|items| - 1];
      var last := items[|items| - 1];
      KeepOthersCount(front, email);
      var kept := KeepOthers(front, email).items;
      if Lookup(last, "email") != Found(String(email)) {
        assert (kept + [last])[..|kept + [last]| - 1] == kept;
      } else {
        assert kept + [] == kept;
      }
    }
  }

  /**
   * The filter keeps order: on well-formed records, the kept records of
   * `a + b` are those of `a` followed by those of `b`.
   */
  lemma {:induction false} KeepOthersConcat(a: seq<Json>, b: seq<Json>, email: string)
    requires WellFormed(a) && WellFormed(b)
    ensures KeepOthers(a, email).Kept? && KeepOthers(b, email).Kept?
    ensures KeepOthers(a + b, email) == Kept(KeepOthers(a, email).items + KeepOthers(b, email).items)
    decreases |b|
  {
    KeepOthersSucceeds(a, email);
    KeepOthersSucceeds(b, email);
    if b == [] {
      assert a + b == a;
      assert KeepOthers(a, email).items + [] == KeepOthers(a, email).items;
    } else {
      var front := b[..|b| - 1];
      var last := b[|b| - 1];
      assert forall y :: y in front ==> y in b;
      assert last in b;
      KeepOthersConcat(a, front, email);
      KeepOthersSucceeds(front, email);
      assert (a + b)[..|a + b| - 1] == a + front;
      assert (a + b)[|a + b| - 1] == last;
      var tail: seq<Json> := if Lookup(last, "email") != Found(String(email)) then [last] else [];
      var ka := KeepOthers(a, email).items;
      var kf := KeepOthers(front, email).items;
      assert KeepOthers(b, email).items == kf + tail;
      assert (ka + kf) + tail == ka + (kf + tail);
    }
  }

  /** `already_exists()`: its answer and the file it leaves. */
  function AlreadyExistsSpec(email: string, c: Contents): (Result<bool>, Contents) {
    match c
    case Missing => (Ok(false), c)
    case Blank => (Ok(false), c)
    case Decoded(d) =>
      match Elements(d)
      case None => (Raised(TypeError), c)
      case Some(items) =>
        match FirstWith(items, "email", String(email))
        case Match(_) => (Ok(true), c)
        case NoMatch => (Ok(false), c)
        case KeyFault => (Ok(false), Blank)
        case TypeFault => (Raised(TypeError), c)
  }

  /** `get()`: the first matching record's sid (`None` as `Null`) and the file it leaves. */
  function GetSpec(email: string, c: Contents): (Result<Json>, Contents) {
    match c
    case Missing => (Ok(Null), c)
    case Blank => (Ok(Null), c)
    case Decoded(d) =>
      match Elements(d)
      case None => (Raised(TypeError), c)
      case Some(items) =>
        match FirstWith(items, "email", String(email))
        case Match(i) =>
          var sid := Lookup(items[i], "sid");
          if sid.Found? then (Ok(sid.value), c) else (Ok(Null), Blank)
        case NoMatch => (Ok(Null), c)
        case KeyFault => (Ok(Null), Blank)
        case TypeFault => (Raised(TypeError), c)
  }

  /**
   * `save_helper(file, data, force_update)`. An unreadable file counts as
   * `[]`. A plain save appends. A forced save filters and appends; when the
   * filter raises `KeyError`, the file is emptied through a second handle but
   * the unfiltered list is then dumped back, and nothing is appended.
   */
  function SaveHelperSpec(email: string, data: Json, force: bool, c: Contents): (Result<()>, Contents) {
    var cached := if c.Decoded? then c.data else Array([]);
    if !force then
      if cached.Array? then (Ok(()), Decoded(Array(cached.items + [data])))
      else (Raised(AttributeError), c)
    else
      match Elements(cached)
      case None => (Raised(TypeError), c)
      case Some(items) =>
        match KeepOthers(items, email)
        case Kept(kept) => (Ok(()), Decoded(Array(kept + [data])))
        case FilterKeyError => (Ok(()), Decoded(cached))
        case FilterTypeError => (Raised(TypeError), c)
  }

  /** `save(force_update)`: `already_exists()` runs first, even when forced. */
  function SaveSpec(email: string, sid: Json, force: bool, c: Contents): (Result<Json>, Contents) {
    var probe := AlreadyExistsSpec(email, c);
    if probe.0.Raised? then (Raised(probe.0.error), probe.1)
    else if probe.0.value && !force then GetSpec(email, probe.1)
    else
      var done := SaveHelperSpec(email, Record(email, sid), force, probe.1);
      (if done.0.Raised? then Raised(done.0.error) else Ok(Null), done.1)
  }

  class SessionCache {
    const email: string
    const sid: Json
    const file: CacheFile

    /** `__init__`: create the cache file, empty, when it does not exist. */
    constructor (email: string, sid: Json, file: CacheFile)
      modifies file
      ensures this.email == email && this.sid == sid && this.file == file
      ensures file.contents == if old(file.contents).Missing? then Blank else old(file.contents)
    {
      this.email := email;
      this.sid := sid;
      this.file := file;
      if file.contents.Missing? {
        file.contents := Blank;
      }
    }

    /** `already_exists()` with `already_exists_helper`. */
    method AlreadyExists() returns (r: Result<bool>)
      modifies file
      ensures (r, file.contents) == AlreadyExistsSpec(email, old(file.contents))
    {
      if !file.contents.Decoded? {
        return Ok(false);
      }
      var records := Elements(file.contents.data);
      if records.None? {
        return Raised(TypeError);
      }
      var scan := ScanRecords(records.value, "email", String(email));
      if scan.Match? {
        r := Ok(true);
      } else if scan.NoMatch? {
        r := Ok(false);
      } else if scan.KeyFault? {
        file.contents := Blank;
        r := Ok(false);
      } else {
        r := Raised(TypeError);
      }
    }

    /** `get()` with `get_helper`. */
    method Get() returns (r: Result<Json>)
      modifies file
      ensures (r, file.contents) == GetSpec(email, old(file.contents))
    {
      if !file.contents.Decoded? {
        return Ok(Null);
      }
      var records := Elements(file.contents.data);
      if records.None? {
        return Raised(TypeError);
      }
      var scan := ScanRecords(records.value, "email", String(email));
      if scan.Match? {
        var found := Lookup(records.value[scan.index], "sid");
        if found.Found? {
          r := Ok(found.value);
        } else {
          file.contents := Blank;
          r := Ok(Null);
        }
      } else if scan.NoMatch? {
        r := Ok(Null);
      } else if scan.KeyFault? {
        file.contents := Blank;
        r := Ok(Null);
      } else {
        r := Raised(TypeError);
      }
    }

    /** The filter of a forced save, one record at a time. */
    static method FilterRecords(items: seq<Json>, email: string) returns (r: Filtered)
      ensures r == KeepOthers(items, email)
    {
      var kept := [];
      var i := 0;
      while i < |items|
        invariant 0 <= i <= |items|
        invariant KeepOthers(items[..i], email) == Kept(kept)
      {
        assert items[..i + 1][..i] == items[..i];
        var x := Lookup(items[i], "email");
        if x.MissingKey? {
          KeepOthersFaultPersists(items, i + 1, email);
          return FilterKeyError;
        } else if x.WrongType? {
          KeepOthersFaultPersists(items, i + 1, email);
          return FilterTypeError;
        }
        if x.value != String(email) {
          kept := kept + [items[i]];
        }
        i := i + 1;
      }
      assert items[..i] == items;
      r := Kept(kept);
    }

    /** `save_helper(file, data, force_update)`. */
    method SaveHelper(data: Json, force: bool) returns (r: Result<()>)
      modifies file
      ensures (r, file.contents) == SaveHelperSpec(email, data, force, old(file.contents))
    {
      var cached := if file.contents.Decoded? then file.contents.data else Array([]);
      if !force {
        if !cached.Array? {
          return Raised(AttributeError);
        }
        file.contents := Decoded(Array(cached.items + [data]));
        return Ok(());
      }
      var records := Elements(cached);
      if records.None? {
        return Raised(TypeError);
      }
      var filtered := FilterRecords(records.value, email);
      if filtered.Kept? {
        file.contents := Decoded(Array(filtered.items + [data]));
        r := Ok(());
      } else if filtered.FilterKeyError? {
        file.contents := Blank;
        file.contents := Decoded(cached);
        r := Ok(());
      } else {
        r := Raised(TypeError);
      }
    }

    /** `save(force_update)`. */
    method Save(force: bool) returns (r: Result<Json>)
      modifies file
      ensures (r, file.contents) == SaveSpec(email, sid, force, old(file.contents))
    {
      var probe := AlreadyExists();
      if probe.Raised? {
        return Raised(probe.error);
      }
      if probe.value && !force {
        r := Get();
        return;
      }
      var done := SaveHelper(Record(email, sid), force);
      r := if done.Raised? then Raised(done.error) else Ok(Null);
    }

    /** `clear()`: an existing file is emptied. */
    method Clear()
      modifies file
      ensures file.contents == if old(file.contents).Missing? then Missing else Blank
    {
      if !file.contents.Missing? {
        file.contents := Blank;
      }
    }
  }

  /** Without `force`, an email already cached writes nothing and `save` answers `get()`. */
  lemma CachedEmailAnswersGet(email: string, sid: Json, c: Contents)
    requires AlreadyExistsSpec(email, c).0 == Ok(true)
    ensures SaveSpec(email, sid, false, c) == GetSpec(email, c)
  {
  }

  /** A missing or unreadable file is saved into exactly as an empty list would be. */
  lemma UnreadableIsEmptyList(email: string, data: Json, force: bool, c: Contents)
    requires !c.Decoded?
    ensures SaveHelperSpec(email, data, force, c) == SaveHelperSpec(email, data, force, Decoded(Array([])))
  {
  }

  /** A save of a new email appends its record and keeps every record already there. */
  lemma {:induction false} NewEmailAppends(email: string, sid: Json, items: seq<Json>)
    requires WellFormed(items)
    requires forall x :: x in items ==> Lookup(x, "email") != Found(String(email))
    ensures SaveSpec(email, sid, false, Decoded(Array(items))) == (Ok(Null), Decoded(Array(items + [Record(email, sid)])))
  {
    FirstWithOnRecords(items, "email", String(email));
  }

  /** The contents a forced save of `email` leaves in a well-formed cache. */
  function Upserted(items: seq<Json>, email: string, sid: Json): Json
    requires WellFormed(items)
  {
    KeepOthersOnRecords(items, email);
    Array(KeepOthers(items, email).items + [Record(email, sid)])
  }

  /**
   * A forced save on well-formed records removes every record of the email
   * and appends the new one: the other records stay, and exactly one
   * record carries the email.
   */
  lemma ForcedSaveUpserts(email: string, sid: Json, items: seq<Json>)
    requires WellFormed(items)
    ensures SaveSpec(email, sid, true, Decoded(Array(items))) == (Ok(Null), Decoded(Upserted(items, email, sid)))
    ensures forall x :: x in Upserted(items, email, sid).items && x != Record(email, sid) ==>
      x in items && Lookup(x, "email") != Found(String(email))
    ensures forall x :: x in items && Lookup(x, "email") != Found(String(email)) ==> x in Upserted(items, email, sid).items
    ensures CountEmail(Upserted(items, email, sid).items, email) == 1
  {
    KeepOthersOnRecords(items, email);
    FirstWithOnRecords(items, "email", String(email));
    var kept := KeepOthers(items, email).items;
    assert (kept + [Record(email, sid)])[..|kept + [Record(email, sid)]| - 1] == kept;
  }

  /** The saved record answers both of the cache's subscripts, and a scan for its email stops on it. */
  lemma RecordLookups(email: string, sid: Json)
    ensures Lookup(Record(email, sid), "email") == Found(String(email))
    ensures Lookup(Record(email, sid), "sid") == Found(sid)
    ensures FirstWith([Record(email, sid)], "email", String(email)) == Match(0)
  {
    assert Get(Record(email, sid).members, "email") == Some(String(email));
    assert Get(Record(email, sid).members, "sid") == Some(sid);
  }

  /** After a forced save on well-formed records, `get()` returns the sid just saved. */
  lemma {:induction false} GetAfterForcedSave(email: string, sid: Json, items: seq<Json>)
    requires WellFormed(items)
    ensures GetSpec(email, Decoded(Upserted(items, email, sid))) == (Ok(sid), Decoded(Upserted(items, email, sid)))
  {
    KeepOthersOnRecords(items, email);
    RecordLookups(email, sid);
    var kept := KeepOthers(items, email).items;
    var all := kept + [Record(email, sid)];
    forall j | 0 <= j < |kept|
      ensures Lookup(all[j], "email").Found? && Lookup(all[j], "email") != Found(String(email))
    {
      assert all[j] == kept[j] && kept[j] in kept;
    }
    FirstWithAfter(all, |kept|, "email", String(email));
    assert all[|kept|..] == [Record(email, sid)];
    assert FirstWith(all, "email", String(email)) == Match(|kept|);
    assert all[|kept|] == Record(email, sid);
  }

  /** On well-formed records, `already_exists()` holds exactly when some record has the email. */
  lemma AlreadyExistsExactly(email: string, items: seq<Json>)
    requires WellFormed(items)
    ensures AlreadyExistsSpec(email, Decoded(Array(items))).1 == Decoded(Array(items))
    ensures AlreadyExistsSpec(email, Decoded(Array(items))).0 ==
      Ok(exists j :: 0 <= j < |items| && Lookup(items[j], "email") == Found(String(email)))
  {
    FirstWithOnRecords(items, "email", String(email));
  }

  /**
   * A record without `"email"` met before any match makes `already_exists()`
   * empty the file, so even a forced save leaves only the new record.
   */
  lemma CorruptRecordResetsCache(email: string, sid: Json, items: seq<Json>)
    requires FirstWith(items, "email", String(email)) == KeyFault
    ensures SaveSpec(email, sid, true, Decoded(Array(items))) == (Ok(Null), Decoded(Array([Record(email, sid)])))
  {
    assert KeepOthers([], email) == Kept([]);
    assert [] + [Record(email, sid)] == [Record(email, sid)];
  }

  /**
   * A record without `"email"` after a match survives a forced save that
   * then writes nothing: the filter's `KeyError` puts the old list back.
   */
  lemma CorruptRecordAfterMatchKeepsCache(email: string, sid: Json, items: seq<Json>)
    requires FirstWith(items, "email", String(email)).Match?
    requires KeepOthers(items, email) == FilterKeyError
    ensures SaveSpec(email, sid, true, Decoded(Array(items))) == (Ok(Null), Decoded(Array(items)))
  {
  }

  /** After `clear()`, no email exists and `get()` finds nothing. */
  lemma ClearedCacheIsEmpty(email: string)
    ensures AlreadyExistsSpec(email, Blank) == (Ok(false), Blank)
    ensures GetSpec(email, Blank) == (Ok(Null), Blank)
  {
  }
}
