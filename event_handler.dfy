/**
 * The synchronous `EventHandler` mixin: one dict of event handlers, one dict
 * of command handlers and the command prefix `"!"`. Decorators overwrite a
 * single slot; `_handle_event` routes three event names and raises
 * `KeyError` when the slot is empty; `emit` calls a registered handler and
 * is a no-op otherwise.
 */
module EventHandlers {
  import opened Wrappers
  import opened Calls
  import opened JsonValues

  /** What a handler is given: a `Context` around a message payload, an error, or any emitted value. */
  datatype Arg = ContextOf(message: Json) | ErrorOf(error: string) | Value(value: Json)

  /** The outcome of `_handle_event`: nothing routed, the handler called, or `KeyError(event)`. */
  datatype Routed = NotRouted | Ran(call: Call<Arg>) | KeyError(key: string)

  /** The only event names `_handle_event` routes. */
  const RoutedEvents: set<string> := {"member_join", "member_leave", "text_message"}

  /**
   * What `_handle_event(event, data)` does with the handlers `events`: one
   * of the three routed names calls its handler with `Context(data)`, or
   * raises `KeyError` when the slot is empty; any other name does nothing.
   */
  function Routing(events: map<string, Handler>, event: string, data: Json): (r: Routed)
    ensures r.NotRouted? <==> event !in RoutedEvents
    ensures r.Ran? <==> event in RoutedEvents && event in events
    ensures r.Ran? ==> r.call == Call(events[event], [ContextOf(data)])
    ensures r.KeyError? ==> r.key == event && event !in events
  {
    if event in RoutedEvents then
      if event in events then Ran(Call(events[event], [ContextOf(data)])) else KeyError(event)
    else NotRouted
  }

  /** Filling a routed slot makes `_handle_event` call the new handler ... */
  lemma RoutingAfterRegistration(events: map<string, Handler>, event: string, f: Handler, data: Json)
    requires event in RoutedEvents
    ensures Routing(events[event := f], event, data) == Ran(Call(f, [ContextOf(data)]))
  {
  }

  /** ... and changes no other route. */
  lemma RoutingOtherSlots(events: map<string, Handler>, slot: string, event: string, f: Handler, data: Json)
    requires slot != event
    ensures Routing(events[slot := f], event, data) == Routing(events, event, data)
  {
  }

  class EventHandler {
    var events: map<string, Handler>
    var commands: map<string, Handler>
    var commandPrefix: string

    constructor ()
      ensures events == map[] && commands == map[] && commandPrefix == "!"
    {
      events := map[];
      commands := map[];
      commandPrefix := "!";
    }

    /** `on_ready`: the `ready` slot now holds `func`; the decorator returns it unchanged. */
    method OnReady(func: Handler) returns (r: Handler)
      modifies this
      ensures r == func
      ensures events == old(events)["ready" := func]
      ensures commands == old(commands) && commandPrefix == old(commandPrefix)
    {
      events := events["ready" := func];
      r := func;
    }

    /** `on_text_message`: overwrite the `text_message` slot. */
    method OnTextMessage(func: Handler) returns (r: Handler)
      modifies this
      ensures r == func
      ensures events == old(events)["text_message" := func]
      ensures commands == old(commands) && commandPrefix == old(commandPrefix)
    {
      events := events["text_message" := func];
      r := func;
    }

    /** `on_member_join`: overwrite the `member_join` slot. */
    method OnMemberJoin(func: Handler) returns (r: Handler)
      modifies this
      ensures r == func
      ensures events == old(events)["member_join" := func]
      ensures commands == old(commands) && commandPrefix == old(commandPrefix)
    {
      events := events["member_join" := func];
      r := func;
    }

    /** `on_member_leave`: overwrite the `member_leave` slot. */
    method OnMemberLeave(func: Handler) returns (r: Handler)
      modifies this
      ensures r == func
      ensures events == old(events)["member_leave" := func]
      ensures commands == old(commands) && commandPrefix == old(commandPrefix)
    {
      events := events["member_leave" := func];
      r := func;
    }

    /** `on_error`: overwrite the `error` slot. */
    method OnError(func: Handler) returns (r: Handler)
      modifies this
      ensures r == func
      ensures events == old(events)["error" := func]
      ensures commands == old(commands) && commandPrefix == old(commandPrefix)
    {
      events := events["error" := func];
      r := func;
    }

    /** `command(name)`: store `func` under `name`; a later registration replaces an earlier one. */
    method Command(name: string, func: Handler) returns (r: Handler)
      modifies this
      ensures r == func
      ensures commands == old(commands)[name := func]
      ensures events == old(events) && commandPrefix == old(commandPrefix)
    {
      commands := commands[name := func];
      r := func;
    }

    /** `emit(name, *args)`: the call made, present exactly when `name` has a handler. */
    method Emit(name: string, args: seq<Arg>) returns (r: Option<Call<Arg>>)
      ensures r.Some? <==> name in events
      ensures r.Some? ==> r.value == Call(events[name], args)
    {
      if name in events {
        r := Some(Call(events[name], args));
      } else {
        r := None;
      }
    }

    /** `_handle_event(event, data)`, on the current `_events`. */
    method HandleEvent(event: string, data: Json) returns (r: Routed)
      ensures r == Routing(events, event, data)
    {
      if event == "member_join" {
        r := if "member_join" in events then Ran(Call(events["member_join"], [ContextOf(data)])) else KeyError("member_join");
      } else if event == "member_leave" {
        r := if "member_leave" in events then Ran(Call(events["member_leave"], [ContextOf(data)])) else KeyError("member_leave");
      } else if event == "text_message" {
        r := if "text_message" in events then Ran(Call(events["text_message"], [ContextOf(data)])) else KeyError("text_message");
      } else {
        r := NotRouted;
      }
    }
  }

  /**
   * A handler registered with `on_member_join` is the one `member_join`
   * calls, and registering it leaves the `member_leave` route as it was.
   */
  method JoinHandlerIsRouted(h: EventHandler, f: Handler, data: Json) returns (joined: Routed, left: Routed)
    modifies h
    ensures joined == Ran(Call(f, [ContextOf(data)]))
    ensures "member_leave" in old(h.events) ==> left == Ran(Call(old(h.events)["member_leave"], [ContextOf(data)]))
    ensures "member_leave" !in old(h.events) ==> left == KeyError("member_leave")
  {
    var _ := h.OnMemberJoin(f);
    joined := h.HandleEvent("member_join", data);
    left := h.HandleEvent("member_leave", data);
  }

  /** The handler last registered under a command name is the one kept. */
  method LastCommandWins(h: EventHandler, name: string, f: Handler, g: Handler)
    modifies h
    ensures name in h.commands && h.commands[name] == g
    ensures h.events == old(h.events)
  {
    var _ := h.Command(name, f);
    var _ := h.Command(name, g);
  }

  /** A fresh handler routes nothing and emits nothing: every routed event raises `KeyError`. */
  method FreshHandlerRaises(event: string, data: Json) returns (r: Routed, e: Option<Call<Arg>>)
    ensures event in RoutedEvents ==> r == KeyError(event)
    ensures event !in RoutedEvents ==> r == NotRouted
    ensures e == None
  {
    var h := new EventHandler();
    r := h.HandleEvent(event, data);
    e := h.Emit(event, []);
  }
}
