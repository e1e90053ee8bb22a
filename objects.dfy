/**
 * `Objects.fetch_key`, the recursive key search over decoded JSON that both
 * object modules share, the `_fetch` accessors of `User`, `Comment` and
 * `Message`, and the `EventTypes` constants.
 */
module Objects {
  import opened Wrappers
  import opened JsonValues
  import WsEvents
  import Strings

  // ---------------------------------------------------------------------
  // fetch_key, list mode: every hit, in order

  /** The hits in one value: a dict holding the key stops there; scalars hold none. */
  function FetchAll(j: Json, key: string): seq<Json>
    decreases j, 1
  {
    match j
    case Object(ms) => if HasKey(ms, key) then [Get(ms, key).value] else AllOfMembers(ms, key)
    case Array(items) => AllOfItems(items, key)
    case _ => []
  }

  /** The hits in the container items of a list, concatenated in order. */
  function AllOfItems(items: seq<Json>, key: string): seq<Json>
    decreases items, 0
  {
    if items == [] then []
    else (if IsContainer(items[0]) then FetchAll(items[0], key) else []) + AllOfItems(items[1..], key)
  }

  /** The hits in the container values of a dict, concatenated in member order. */
  function AllOfMembers(ms: seq<Member>, key: string): seq<Json>
    decreases ms, 0
  {
    if ms == [] then []
    else (if IsContainer(ms[0].value) then FetchAll(ms[0].value, key) else []) + AllOfMembers(ms[1..], key)
  }

  // ---------------------------------------------------------------------
  // fetch_key, single mode: the loop keeps the latest nested result and
  // stops at the first truthy one

  function FetchFirst(j: Json, key: string): Json
    decreases j, 1
  {
    match j
    case Object(ms) => if HasKey(ms, key) then Get(ms, key).value else FirstOfMembers(ms, key, Null)
    case Array(items) => FirstOfItems(items, key, Null)
    case _ => Null
  }

  /** The single-mode loop over list items, `res` being the accumulator. */
  function FirstOfItems(items: seq<Json>, key: string, res: Json): Json
    decreases items, 0
  {
    if items == [] then res
    else if IsContainer(items[0]) then
      var r := FetchFirst(items[0], key);
      if Truthy(r) then r else FirstOfItems(items[1..], key, r)
    else FirstOfItems(items[1..], key, res)
  }

  /** The single-mode loop over dict members. */
  function FirstOfMembers(ms: seq<Member>, key: string, res: Json): Json
    decreases ms, 0
  {
    if ms == [] then res
    else if IsContainer(ms[0].value) then
      var r := FetchFirst(ms[0].value, key);
      if Truthy(r) then r else FirstOfMembers(ms[1..], key, r)
    else FirstOfMembers(ms[1..], key, res)
  }

  /**
   * `fetch_key(data, key, isList)`: list mode gives a list of every hit,
   * single mode one value; a value that is neither a dict nor a list gives
   * `None` in both.
   */
  function FetchKeySpec(data: Json, key: string, isList: bool): (r: Json)
    ensures !IsContainer(data) ==> r == Null
    ensures data.Object? && HasKey(data.members, key) ==>
      r == if isList then Array([Get(data.members, key).value]) else Get(data.members, key).value
    ensures isList && IsContainer(data) ==> r == Array(FetchAll(data, key))
    ensures !isList ==> r == FetchFirst(data, key)
  {
    if isList then (if IsContainer(data) then Array(FetchAll(data, key)) else Null)
    else FetchFirst(data, key)
  }

  // ---------------------------------------------------------------------
  // Independent descriptions of the two modes

  /** The first truthy value of a sequence. */
  function FirstTruthy(s: seq<Json>): (r: Option<Json>)
    ensures r.Some? ==> Truthy(r.value) && r.value in s
    ensures r.None? <==> forall i :: 0 <= i < |s| ==> !Truthy(s[i])
  {
    if s == [] then None else if Truthy(s[0]) then Some(s[0]) else FirstTruthy(s[1..])
  }

  lemma {:induction false} FirstTruthyConcat(a: seq<Json>, b: seq<Json>)
    ensures FirstTruthy(a + b) == if FirstTruthy(a).Some? then FirstTruthy(a) else FirstTruthy(b)
  {
    if a != [] {
      assert (a + b)[1..] == a[1..] + b;
      FirstTruthyConcat(a[1..], b);
    } else {
      assert a + b == b;
    }
  }

  /** Python's `res += ...` keeps order: list-mode hits over a concatenation concatenate. */
  lemma {:induction false} AllOfItemsConcat(a: seq<Json>, b: seq<Json>, key: string)
    ensures AllOfItems(a + b, key) == AllOfItems(a, key) + AllOfItems(b, key)
  {
    if a == [] {
      assert a + b == b;
    } else {
      assert (a + b)[0] == a[0];
      assert (a + b)[1..] == a[1..] + b;
      AllOfItemsConcat(a[1..], b, key);
    }
  }

  /**
   * Single mode agrees with list mode: the single-mode result is truthy
   * exactly when some list-mode hit is, and then it is the first truthy hit;
   * otherwise it is `None` or one of the (falsy) hits.
   */
  lemma {:induction false} SingleIsFirstTruthyHit(j: Json, key: string)
    ensures FirstTruthy(FetchAll(j, key)) == if Truthy(FetchFirst(j, key)) then Some(FetchFirst(j, key)) else None
    ensures FetchFirst(j, key) == Null || FetchFirst(j, key) in FetchAll(j, key)
    decreases j, 1
  {
    match j
    case Object(ms) =>
      if !HasKey(ms, key) {
        SingleIsFirstTruthyHitMembers(ms, key, Null);
      }
    case Array(items) =>
      SingleIsFirstTruthyHitItems(items, key, Null);
    case _ =>
  }

  lemma {:induction false} SingleIsFirstTruthyHitItems(items: seq<Json>, key: string, res: Json)
    requires !Truthy(res)
    ensures FirstTruthy(AllOfItems(items, key)) ==
      if Truthy(FirstOfItems(items, key, res)) then Some(FirstOfItems(items, key, res)) else None
    ensures var r := FirstOfItems(items, key, res);
      r == Null || r == res || r in AllOfItems(items, key)
    decreases items, 0
  {
    if items != [] {
      var head := if IsContainer(items[0]) then FetchAll(items[0], key) else [];
      FirstTruthyConcat(head, AllOfItems(items[1..], key));
      if IsContainer(items[0]) {
        SingleIsFirstTruthyHit(items[0], key);
        var r := FetchFirst(items[0], key);
        if !Truthy(r) {
          SingleIsFirstTruthyHitItems(items[1..], key, r);
        }
      } else {
        SingleIsFirstTruthyHitItems(items[1..], key, res);
      }
    }
  }


  lemma {:induction false} SingleIsFirstTruthyHitMembers(ms: seq<Member>, key: string, res: Json)
    requires !Truthy(res)
    ensures FirstTruthy(AllOfMembers(ms, key)) ==
      if Truthy(FirstOfMembers(ms, key, res)) then Some(FirstOfMembers(ms, key, res)) else None
    ensures var r := FirstOfMembers(ms, key, res);
      r == Null || r == res || r in AllOfMembers(ms, key)
    decreases ms, 0
  {
    if ms != [] {
      var head := if IsContainer(ms[0].value) then FetchAll(ms[0].value, key) else [];
      FirstTruthyConcat(head, AllOfMembers(ms[1..], key));
      if IsContainer(ms[0].value) {
        SingleIsFirstTruthyHit(ms[0].value, key);
        var r := FetchFirst(ms[0].value, key);
        if !Truthy(r) {
          SingleIsFirstTruthyHitMembers(ms[1..], key, r);
        }
      } else {
        SingleIsFirstTruthyHitMembers(ms[1..], key, res);
      }
    }
  }


  /** The single-mode results of the container items of a list, in order; scalars are skipped. */
  function NestedResults(items: seq<Json>, key: string): (rs: seq<Json>)
    ensures |rs| <= |items|
  {
    if items == [] then []
    else (if IsContainer(items[0]) then [FetchFirst(items[0], key)] else []) + NestedResults(items[1..], key)
  }

  /** The first truthy value, else the last value, else `fallback`. */
  function FirstTruthyOrLast(rs: seq<Json>, fallback: Json): Json {
    match FirstTruthy(rs)
    case Some(v) => v
    case None => if rs == [] then fallback else rs[|rs| - 1]
  }

  /**
   * The single-mode loop over a list returns the first truthy nested result,
   * otherwise the last nested result, otherwise what it started with.
   */
  lemma {:induction false} FirstOfItemsIsFirstTruthyOrLast(items: seq<Json>, key: string, res: Json)
    ensures FirstOfItems(items, key, res) == FirstTruthyOrLast(NestedResults(items, key), res)
  {
    if items != [] {
      var rest := NestedResults(items[1..], key);
      FirstOfItemsIsFirstTruthyOrLast(items[1..], key, if IsContainer(items[0]) then FetchFirst(items[0], key) else res);
      if IsContainer(items[0]) {
        var r := FetchFirst(items[0], key);
        assert NestedResults(items, key) == [r] + rest;
        assert ([r] + rest)[1..] == rest;
        if !Truthy(r) && rest != [] {
          assert ([r] + rest)[|[r] + rest| - 1] == rest[|rest| - 1];
        }
      } else {
        assert NestedResults(items, key) == rest;
      }
    }
  }

  /** `fetch_key` on a list without any container item: `None`, or `[]` in list mode. */
  lemma NoContainersNoHits(items: seq<Json>, key: string)
    requires forall i :: 0 <= i < |items| ==> !IsContainer(items[i])
    ensures FetchKeySpec(Array(items), key, false) == Null
    ensures FetchKeySpec(Array(items), key, true) == Array([])
  {
    FirstOfItemsIsFirstTruthyOrLast(items, key, Null);
    NoContainersNoResults(items, key);
  }

  lemma {:induction false} NoContainersNoResults(items: seq<Json>, key: string)
    requires forall i :: 0 <= i < |items| ==> !IsContainer(items[i])
    ensures NestedResults(items, key) == [] && AllOfItems(items, key) == []
  {
    if items != [] {
      NoContainersNoResults(items[1..], key);
    }
  }

  // ---------------------------------------------------------------------
  // fetch_key as the loops of the source

  /** `Objects.fetch_key`. */
  method FetchKey(data: Json, key: string, isList: bool) returns (r: Json)
    ensures r == FetchKeySpec(data, key, isList)
    decreases data, 1
  {
    match data {
      case Object(ms) =>
        if HasKey(ms, key) {
          var v := Get(ms, key).value;
          return if isList then Array([v]) else v;
        }
        if isList {
          var res := CollectOverMembers(ms, key);
          return Array(res);
        }
        r := SearchOverMembers(ms, key);
      case Array(items) =>
        if isList {
          var res := CollectOverItems(items, key);
          return Array(res);
        }
        r := SearchOverItems(items, key);
      case _ =>
        return Null;
    }
  }

  /** The list-mode loop of `fetch_key` over the values of a dict: `res += fetch_key(v, key, True)`. */
  method CollectOverMembers(ms: seq<Member>, key: string) returns (res: seq<Json>)
    ensures res == AllOfMembers(ms, key)
    decreases ms, 0
  {
    res := [];
    var i := 0;
    while i < |ms|
      invariant 0 <= i <= |ms|
      invariant res + AllOfMembers(ms[i..], key) == AllOfMembers(ms, key)
    {
      assert ms[i..][1..] == ms[i + 1..];
      var head := if IsContainer(ms[i].value) then FetchAll(ms[i].value, key) else [];
      var rest := AllOfMembers(ms[i + 1..], key);
      assert AllOfMembers(ms[i..], key) == head + rest;
      assert res + (head + rest) == (res + head) + rest;
      if IsContainer(ms[i].value) {
        var sub := FetchKey(ms[i].value, key, true);
        res := res + sub.items;
      } else {
        assert res + head == res;
      }
      i := i + 1;
    }
  }

  /** The single-mode loop of `fetch_key` over the values of a dict: keep the latest nested result, stop at a truthy one. */
  method SearchOverMembers(ms: seq<Member>, key: string) returns (res: Json)
    ensures res == FirstOfMembers(ms, key, Null)
    decreases ms, 0
  {
    res := Null;
    var i := 0;
    while i < |ms|
      invariant 0 <= i <= |ms|
      invariant FirstOfMembers(ms[i..], key, res) == FirstOfMembers(ms, key, Null)
    {
      assert ms[i..][1..] == ms[i + 1..];
      if IsContainer(ms[i].value) {
        res := FetchKey(ms[i].value, key, false);
        if Truthy(res) {
          return;
        }
      }
      i := i + 1;
    }
  }

  /** The list-mode loop of `fetch_key` over the items of a list: `res += fetch_key(v, key, True)`. */
  method CollectOverItems(items: seq<Json>, key: string) returns (res: seq<Json>)
    ensures res == AllOfItems(items, key)
    decreases items, 0
  {
    res := [];
    var i := 0;
    while i < |items|
      invariant 0 <= i <= |items|
      invariant res + AllOfItems(items[i..], key) == AllOfItems(items, key)
    {
      assert items[i..][1..] == items[i + 1..];
      var head := if IsContainer(items[i]) then FetchAll(items[i], key) else [];
      var rest := AllOfItems(items[i + 1..], key);
      assert AllOfItems(items[i..], key) == head + rest;
      assert res + (head + rest) == (res + head) + rest;
      if IsContainer(items[i]) {
        var sub := FetchKey(items[i], key, true);
        res := res + sub.items;
      } else {
        assert res + head == res;
      }
      i := i + 1;
    }
  }

  /** The single-mode loop of `fetch_key` over the items of a list: keep the latest nested result, stop at a truthy one. */
  method SearchOverItems(items: seq<Json>, key: string) returns (res: Json)
    ensures res == FirstOfItems(items, key, Null)
    decreases items, 0
  {
    res := Null;
    var i := 0;
    while i < |items|
      invariant 0 <= i <= |items|
      invariant FirstOfItems(items[i..], key, res) == FirstOfItems(items, key, Null)
    {
      assert items[i..][1..] == items[i + 1..];
      if IsContainer(items[i]) {
        res := FetchKey(items[i], key, false);
        if Truthy(res) {
          return;
        }
      }
      i := i + 1;
    }
  }

  // ---------------------------------------------------------------------
  // The _fetch accessors

  /**
   * `[i[key] for i in x]`: a list projects every item, which must be a dict
   * holding the key; iterating an empty dict or string gives `[]`, a non-empty
   * one yields strings, which a string key cannot index; any other value is
   * not iterable. `None` stands for the `KeyError` or `TypeError` raised.
   */
  function Project(x: Json, key: string): (r: Option<seq<Json>>)
    ensures r.Some? && x.Array? ==>
      |r.value| == |x.items| && forall i :: 0 <= i < |x.items| ==> Index(x.items[i], key) == Some(r.value[i])
    ensures r.None? && x.Array? ==> exists i :: 0 <= i < |x.items| && Index(x.items[i], key).None?
    ensures !x.Array? ==> (r.Some? <==> (x.Object? && x.members == []) || (x.String? && x.s == [])) && (r.Some? ==> r.value == [])
  {
    match x
    case Array(items) =>
      if forall i :: 0 <= i < |items| ==> Index(items[i], key).Some?
      then Some(seq(|items|, i requires 0 <= i < |items| => Index(items[i], key).value))
      else None
    case Object(ms) => if ms == [] then Some([]) else None
    case String(s) => if s == [] then Some([]) else None
    case _ => None
  }

  /**
   * The `try` body shared by the accessors: list mode projects the list
   * under `listKey`, single mode indexes the record under `itemKey`. `None`
   * means the body raised `KeyError` or `TypeError`.
   */
  function RecordLookup(json: Json, listKey: string, itemKey: string, key: string, isList: bool): Option<Json> {
    if isList then
      match Index(json, listKey)
      case None => None
      case Some(x) => match Project(x, key) case None => None case Some(vs) => Some(Array(vs))
    else
      match Index(json, itemKey)
      case None => None
      case Some(x) => Index(x, key)
  }

  /** `User._fetch`: the profile list or profile, falling back to `fetch_key`. */
  function UserFetch(json: Json, key: string, isList: bool): (r: Json)
    ensures RecordLookup(json, "userProfileList", "userProfile", key, isList).None? ==> r == FetchKeySpec(json, key, isList)
    ensures RecordLookup(json, "userProfileList", "userProfile", key, isList).Some? ==>
      r == RecordLookup(json, "userProfileList", "userProfile", key, isList).value
  {
    RecordLookup(json, "userProfileList", "userProfile", key, isList).GetOr(FetchKeySpec(json, key, isList))
  }

  /** A profile that holds the key answers directly, without a search. */
  lemma UserProfileHit(ms: seq<Member>, profile: seq<Member>, key: string)
    requires Get(ms, "userProfile") == Some(Object(profile)) && HasKey(profile, key)
    ensures UserFetch(Object(ms), key, false) == Get(profile, key).value
  {
  }

  /** A profile list answers with one value per profile when every profile holds the key. */
  lemma UserProfileListHit(ms: seq<Member>, profiles: seq<Json>, key: string)
    requires Get(ms, "userProfileList") == Some(Array(profiles))
    requires forall i :: 0 <= i < |profiles| ==> Index(profiles[i], key).Some?
    ensures var r := UserFetch(Object(ms), key, true);
      r.Array? && |r.items| == |profiles| &&
      forall i :: 0 <= i < |profiles| ==> Index(profiles[i], key) == Some(r.items[i])
  {
  }

  /** `Comment._fetch` as written: the fallback's result is dropped, so a miss is `None`. */
  function CommentFetchAsWritten(json: Json, key: string, isList: bool): (r: Json)
    ensures RecordLookup(json, "commentList", "comment", key, isList).None? ==> r == Null
    ensures RecordLookup(json, "commentList", "comment", key, isList).Some? ==>
      r == RecordLookup(json, "commentList", "comment", key, isList).value
  {
    RecordLookup(json, "commentList", "comment", key, isList).GetOr(Null)
  }

  /** `Comment._fetch` with the fallback returned, as `User._fetch` and `Message._fetch` do. */
  function CommentFetch(json: Json, key: string, isList: bool): (r: Json)
    ensures RecordLookup(json, "commentList", "comment", key, isList).None? ==> r == FetchKeySpec(json, key, isList)
    ensures RecordLookup(json, "commentList", "comment", key, isList).Some? ==>
      r == RecordLookup(json, "commentList", "comment", key, isList).value
  {
    RecordLookup(json, "commentList", "comment", key, isList).GetOr(FetchKeySpec(json, key, isList))
  }

  /**
   * A comment whose `comment` record lacks `ndcId` while the payload holds it
   * one level up: the fallback search finds it, but the accessor as written
   * answers `None`.
   */
  lemma CommentFallbackLost()
    ensures var json := Object([Member("comment", Object([])), Member("ndcId", Number(7))]);
      && CommentFetchAsWritten(json, "ndcId", false) == Null
      && CommentFetch(json, "ndcId", false) == Number(7)
  {
  }

  /** The two `Message` constructors differ in how they treat the `"o"` wrapper. */
  datatype MessageVariant = UtilitiesMessage | ExtMessage

  /** A constructed `Message`: its payload, its list flag and the record key it chose. */
  datatype MessageRecord = MessageRecord(json: Json, isList: bool, recordKey: string)

  /**
   * `Message.__init__`. Indexing a non-dict with `"o"` raises `TypeError`,
   * which escapes (`None`). A missing `"o"` keeps the payload and the key
   * `message`. With `"o"` present, the utilities variant takes `chatMessage`
   * as key and unwraps only a truthy `"o"`; the other variant does both only
   * when `"o"` is truthy.
   */
  function MessageInit(v: MessageVariant, data: Json, isList: bool): (r: Option<MessageRecord>)
    ensures r.Some? <==> data.Object?
    ensures r.Some? ==> r.value.isList == isList
    ensures r.Some? && !HasKey(data.members, "o") ==> r.value == MessageRecord(data, isList, "message")
    ensures r.Some? && HasKey(data.members, "o") && Truthy(Get(data.members, "o").value) ==>
      r.value == MessageRecord(Get(data.members, "o").value, isList, "chatMessage")
    ensures r.Some? && HasKey(data.members, "o") && !Truthy(Get(data.members, "o").value) ==>
      r.value == MessageRecord(data, isList, if v == UtilitiesMessage then "chatMessage" else "message")
  {
    if !data.Object? then None
    else
      match Get(data.members, "o")
      case None => Some(MessageRecord(data, isList, "message"))
      case Some(o) =>
        if Truthy(o) then Some(MessageRecord(o, isList, "chatMessage"))
        else Some(MessageRecord(data, isList, if v == UtilitiesMessage then "chatMessage" else "message"))
  }

  /**
   * `j[[k]]`: the key is a one-element list. A dict rejects it as unhashable
   * and every other value rejects a list index, so it raises `TypeError`.
   */
  function IndexWithList(j: Json, k: seq<string>): Option<Json> {
    None
  }

  /** `Message._fetch`. */
  function MessageFetch(m: MessageRecord, key: string): (r: Json)
    ensures !m.isList ==> r == FetchKeySpec(m.json, key, false)
  {
    var body :=
      if m.isList then
        match Index(m.json, "messageList")
        case None => None
        case Some(x) => match Project(x, key) case None => None case Some(vs) => Some(Array(vs))
      else
        match IndexWithList(m.json, [m.recordKey])
        case None => None
        case Some(x) => Index(x, key);
    body.GetOr(FetchKeySpec(m.json, key, m.isList))
  }

  /**
   * Whatever record key the constructor chose, a single-mode field of a
   * message is found by the recursive search alone.
   */
  lemma MessageSingleModeSearches(v: MessageVariant, data: Json, key: string)
    requires data.Object?
    ensures MessageInit(v, data, false).Some?
    ensures MessageFetch(MessageInit(v, data, false).value, key) ==
      FetchKeySpec(if HasKey(data.members, "o") && Truthy(Get(data.members, "o").value)
                   then Get(data.members, "o").value else data, key, false)
  {
  }

  // ---------------------------------------------------------------------
  // EventTypes

  /** The attributes of `EventTypes`, in class order: the event table without `share_exurl_message`. */
  const EventTypeAttributes: seq<WsEvents.ChatEvent> := WsEvents.EventTable()[..6] + WsEvents.EventTable()[7..]

  /** The value of an `EventTypes` attribute. */
  function EventTypeValue(e: WsEvents.ChatEvent): string {
    WsEvents.Code(e)
  }

  /** `EventTypes` holds every event of the table except `share_exurl_message` (`"50:0"`). */
  lemma EventTypesOmitShareExurl(e: WsEvents.ChatEvent)
    ensures e in EventTypeAttributes <==> e != WsEvents.ShareExurlMessage
    ensures WsEvents.EventTable()[6] == WsEvents.ShareExurlMessage
  {
    WsEvents.EventTablePlaces(e);
    WsEvents.EventTablePlaces(WsEvents.ShareExurlMessage);
    var t := WsEvents.EventTable();
    var p := WsEvents.Position(e);
    if e != WsEvents.ShareExurlMessage {
      if p < 6 {
        assert EventTypeAttributes[p] == t[p];
      } else {
        assert EventTypeAttributes[p - 1] == t[p];
      }
    } else {
      forall k | 0 <= k < |EventTypeAttributes|
        ensures EventTypeAttributes[k] != e
      {
        if k < 6 {
          assert EventTypeAttributes[k] == t[k];
        } else {
          assert EventTypeAttributes[k] == t[k + 1];
        }
      }
    }
  }

  /** The first attribute is text_message, `"0:0"`. */
  lemma TextMessageAttribute()
    ensures EventTypeAttributes[0] == WsEvents.TextMessage && EventTypeValue(WsEvents.TextMessage) == "0:0"
  {
    assert EventTypeAttributes[0] == WsEvents.EventTable()[0] == WsEvents.EventAt(0);
  }

  /** member_join, `"101:0"`, is attribute 16: one place before its table position. */
  lemma MemberJoinAttribute()
    ensures EventTypeAttributes[16] == WsEvents.MemberJoin && EventTypeValue(WsEvents.MemberJoin) == "101:0"
  {
    assert EventTypeAttributes[16] == WsEvents.EventTable()[17] == WsEvents.EventAt(17);
    assert Strings.Decimal(10) == "10";
    assert Strings.Decimal(101) == Strings.Decimal(10) + "1";
  }

  /** member_leave, `"102:0"`, is attribute 17. */
  lemma MemberLeaveAttribute()
    ensures EventTypeAttributes[17] == WsEvents.MemberLeave && EventTypeValue(WsEvents.MemberLeave) == "102:0"
  {
    assert EventTypeAttributes[17] == WsEvents.EventTable()[18] == WsEvents.EventAt(18);
    assert Strings.Decimal(10) == "10";
    assert Strings.Decimal(102) == Strings.Decimal(10) + "2";
  }
}
