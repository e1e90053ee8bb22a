/**
 * `MessageDispatcher`: one handler per message type, chosen by the `"t"`
 * member of an incoming message.
 */
module Dispatch {
  import opened Wrappers
  import opened Calls
  import opened JsonValues

  /**
   * The dictionary key a value stands for. Python hashes `True` and `1`
   * alike and treats them as equal, so a `bool` key is the matching number.
   */
  function TypeKey(j: Json): (k: Json)
    ensures !k.Bool?
    ensures IsContainer(k) <==> IsContainer(j)
    ensures IsInt(j) ==> k == Number(IntValue(j))
    ensures !IsInt(j) ==> k == j
  {
    if j.Bool? then Number(if j.b then 1 else 0) else j
  }

  /** What `handle` did with one message. */
  datatype Handled =
    | Ignored                       // no handler for this type
    | Dispatched(call: Call<Json>)  // the handler ran once, with the whole message
    | Unhashable                    // `"t"` is a list or dict: `in` raises `TypeError`

  /** `handle`: the message type is `message.get("t")`, so a missing `"t"` looks up `None`. */
  function HandleSpec(table: map<Json, Handler>, message: seq<Member>): Handled {
    var t := GetOr(message, "t", Null);
    if IsContainer(t) then Unhashable
    else if TypeKey(t) !in table then Ignored
    else Dispatched(Call(table[TypeKey(t)], [Object(message)]))
  }

  /**
   * Registering a handler for a type makes every message whose `"t"` equals
   * that type (in the Python sense) go to it, and changes nothing for the
   * other types.
   */
  lemma RegisterThenHandle(table: map<Json, Handler>, messageType: Json, h: Handler, message: seq<Member>)
    requires !IsContainer(messageType)
    ensures var t := GetOr(message, "t", Null);
      var after := HandleSpec(table[TypeKey(messageType) := h], message);
      && (!IsContainer(t) && TypeKey(t) == TypeKey(messageType) ==> after == Dispatched(Call(h, [Object(message)])))
      && (TypeKey(t) != TypeKey(messageType) ==> after == HandleSpec(table, message))
  {
  }

  /** `handle` on a message without `"t"` runs the handler registered for `None`, if any. */
  lemma MissingTypeLooksUpNone(table: map<Json, Handler>, message: seq<Member>)
    requires !HasKey(message, "t")
    ensures HandleSpec(table, message) ==
      if Null in table then Dispatched(Call(table[Null], [Object(message)])) else Ignored
  {
  }

  /** `True` and `1` name the same slot. */
  lemma BoolAndIntShareSlot(table: map<Json, Handler>, h: Handler)
    ensures TypeKey(Bool(true)) == TypeKey(Number(1))
    ensures var t := table[TypeKey(Bool(true)) := h];
      HandleSpec(t, [Member("t", Number(1))]) == Dispatched(Call(h, [Object([Member("t", Number(1))])]))
  {
  }

  class MessageDispatcher {
    /** `dispatch_table`, keyed by `TypeKey`. */
    var table: map<Json, Handler>

    constructor ()
      ensures table == map[]
    {
      table := map[];
    }

    /**
     * `register`: the type's slot now holds `handler`; a list or dict type
     * is unhashable and raises `TypeError`, leaving the table as it was.
     */
    method Register(messageType: Json, handler: Handler) returns (typeError: bool)
      modifies this
      ensures typeError <==> IsContainer(messageType)
      ensures typeError ==> table == old(table)
      ensures !typeError ==> table == old(table)[TypeKey(messageType) := handler]
    {
      if IsContainer(messageType) {
        return true;
      }
      table := table[TypeKey(messageType) := handler];
      typeError := false;
    }

    /** `handle`. */
    method Handle(message: seq<Member>) returns (r: Handled)
      ensures r == HandleSpec(table, message)
    {
      var t := GetOr(message, "t", Null);
      if IsContainer(t) {
        return Unhashable;
      }
      if TypeKey(t) !in table {
        return Ignored;
      }
      r := Dispatched(Call(table[TypeKey(t)], [Object(message)]));
    }
  }
}
