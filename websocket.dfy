/**
 * The older websocket client of `pymino/_websocket.py`. It branches on the
 * message type alone: type 0 first runs a prefixed command (the name is
 * the first token without its first character) and then always fires the
 * `text_message` event; types 101 and 102 fire `member_join` and
 * `member_leave`; any other type does nothing. Every handler runs at once,
 * while the argument of `threadIt(target=...)` is evaluated, so each
 * appended thread is recorded as the call whose result became its target.
 */
module LegacySocket {
  import opened Wrappers
  import opened Calls
  import opened JsonValues
  import Strings
  import Objects
  import opened EventHandlers

  /** How `_on_ws_message` ends: normally, or with the error it raises. */
  datatype Outcome = Done | TypeError | AttributeError | RaisedKeyError(key: string)

  /** The command name `content.split(" ")[0][1:]`: one character dropped, whatever the prefix. */
  function CommandName(content: string): (r: string)
    ensures |content| > 0 && content[0] != ' ' ==> [content[0]] + r == Strings.FirstToken(content)
  {
    Strings.Drop(Strings.FirstToken(content), 1)
  }

  /** The thread for a routed event: its call, or the `KeyError` that escapes. */
  function EventThread(routed: Routed): (Outcome, seq<Call<Arg>>) {
    match routed
    case Ran(call) => (Done, [call])
    case KeyError(key) => (RaisedKeyError(key), [])
    case NotRouted => (Done, [])
  }

  /**
   * What `_on_ws_message` does with a decoded frame, given the prefix and the
   * registries: how it ends and the threads it appends, in order.
   */
  function OnMessage(prefix: string, events: map<string, Handler>, commands: map<string, Handler>, data: Json): (r: (Outcome, seq<Call<Arg>>))
    ensures |r.1| <= 2
  {
    match Objects.MessageInit(Objects.ExtMessage, data, false)
    case None => (TypeError, [])
    case Some(m) =>
      var kind := Objects.MessageFetch(m, "type");
      if EqualsInt(kind, 0) then
        var content := Objects.MessageFetch(m, "content");
        if !content.String? then (AttributeError, [])
        else
          var command := CommandName(content.s);
          var first :=
            if Strings.StartsWith(content.s, prefix) && command in commands
            then [Call(commands[command], [ContextOf(m.json)])] else [];
          var text := EventThread(Routing(events, "text_message", m.json));
          (text.0, first + text.1)
      else if EqualsInt(kind, 101) then EventThread(Routing(events, "member_join", m.json))
      else if EqualsInt(kind, 102) then EventThread(Routing(events, "member_leave", m.json))
      else (Done, [])
  }

  class LegacyClient {
    /** The registries and prefix the client inherits from `EventHandler`. */
    const handlers: EventHandler
    var threads: seq<Call<Arg>>

    constructor (handlers: EventHandler)
      ensures this.handlers == handlers && threads == []
    {
      this.handlers := handlers;
      threads := [];
    }

    /** `_handle_event` run for its thread: append its call, or report the `KeyError`. */
    method RunEvent(event: string, data: Json) returns (r: Outcome)
      modifies this
      ensures r == EventThread(Routing(handlers.events, event, data)).0
      ensures threads == old(threads) + EventThread(Routing(handlers.events, event, data)).1
    {
      var routed := handlers.HandleEvent(event, data);
      if routed.Ran? {
        threads := threads + [routed.call];
        r := Done;
      } else if routed.KeyError? {
        r := RaisedKeyError(routed.key);
      } else {
        r := Done;
      }
    }

    /** `_on_ws_message`. */
    method OnWsMessage(data: Json) returns (r: Outcome)
      modifies this
      ensures var spec := OnMessage(handlers.commandPrefix, handlers.events, handlers.commands, data);
        r == spec.0 && threads == old(threads) + spec.1
    {
      var message := Objects.MessageInit(Objects.ExtMessage, data, false);
      if message.None? {
        return TypeError;
      }
      var m := message.value;
      var kind := Objects.MessageFetch(m, "type");
      if EqualsInt(kind, 0) {
        var content := Objects.MessageFetch(m, "content");
        if !content.String? {
          return AttributeError;
        }
        if Strings.StartsWith(content.s, handlers.commandPrefix) {
          var command := CommandName(content.s);
          if command in handlers.commands {
            threads := threads + [Call(handlers.commands[command], [ContextOf(m.json)])];
          }
        }
        r := RunEvent("text_message", m.json);
      } else if EqualsInt(kind, 101) {
        r := RunEvent("member_join", m.json);
      } else if EqualsInt(kind, 102) {
        r := RunEvent("member_leave", m.json);
      } else {
        r := Done;
      }
    }

    /** `_on_ws_error`: call the `error` handler, or ignore the error when none is registered. */
    method OnWsError(error: string) returns (r: Option<Call<Arg>>)
      ensures r.Some? <==> "error" in handlers.events
      ensures r.Some? ==> r.value == Call(handlers.events["error"], [ErrorOf(error)])
    {
      if "error" in handlers.events {
        r := Some(Call(handlers.events["error"], [ErrorOf(error)]));
      } else {
        r := None;
      }
    }
  }

  /**
   * A type-0 text message whose first token names a command runs that
   * command first and the `text_message` handler after it.
   */
  lemma CommandThenText(prefix: string, events: map<string, Handler>, commands: map<string, Handler>, data: Json)
    requires data.Object?
    requires var m := Objects.MessageInit(Objects.ExtMessage, data, false).value;
      && EqualsInt(Objects.MessageFetch(m, "type"), 0)
      && Objects.MessageFetch(m, "content").String?
      && var content := Objects.MessageFetch(m, "content").s;
        Strings.StartsWith(content, prefix) && CommandName(content) in commands
    requires "text_message" in events
    ensures var m := Objects.MessageInit(Objects.ExtMessage, data, false).value;
      var content := Objects.MessageFetch(m, "content").s;
      OnMessage(prefix, events, commands, data) ==
        (Done, [Call(commands[CommandName(content)], [ContextOf(m.json)]), Call(events["text_message"], [ContextOf(m.json)])])
  {
    var m := Objects.MessageInit(Objects.ExtMessage, data, false).value;
    var command := Call(commands[CommandName(Objects.MessageFetch(m, "content").s)], [ContextOf(m.json)]);
    var text := Call(events["text_message"], [ContextOf(m.json)]);
    assert [command] + [text] == [command, text];
  }

  /**
   * For type 0 with string content that is not prefixed, or whose stripped
   * name is no command, only the text event is attempted.
   */
  lemma NoCommandOnlyText(prefix: string, events: map<string, Handler>, commands: map<string, Handler>, data: Json)
    requires data.Object?
    requires var m := Objects.MessageInit(Objects.ExtMessage, data, false).value;
      && EqualsInt(Objects.MessageFetch(m, "type"), 0)
      && Objects.MessageFetch(m, "content").String?
      && var content := Objects.MessageFetch(m, "content").s;
        !Strings.StartsWith(content, prefix) || CommandName(content) !in commands
    ensures var m := Objects.MessageInit(Objects.ExtMessage, data, false).value;
      OnMessage(prefix, events, commands, data) == EventThread(Routing(events, "text_message", m.json))
    ensures "text_message" in events ==> |OnMessage(prefix, events, commands, data).1| == 1
  {
    var m := Objects.MessageInit(Objects.ExtMessage, data, false).value;
    var text := EventThread(Routing(events, "text_message", m.json));
    assert [] + text.1 == text.1;
  }

  /** For type 0 the text event is attempted whether or not a command matched. */
  lemma TextEventAlwaysFires(prefix: string, events: map<string, Handler>, commands: map<string, Handler>, data: Json)
    requires data.Object?
    requires var m := Objects.MessageInit(Objects.ExtMessage, data, false).value;
      EqualsInt(Objects.MessageFetch(m, "type"), 0) && Objects.MessageFetch(m, "content").String?
    ensures var m := Objects.MessageInit(Objects.ExtMessage, data, false).value;
      var r := OnMessage(prefix, events, commands, data);
      && ("text_message" in events ==> r.0 == Done && r.1[|r.1| - 1] == Call(events["text_message"], [ContextOf(m.json)]))
      && ("text_message" !in events ==> r.0 == RaisedKeyError("text_message"))
  {
  }

  /** Types 101 and 102 go to `member_join` and `member_leave`, running nothing else. */
  lemma MemberEventsRouted(prefix: string, events: map<string, Handler>, commands: map<string, Handler>, data: Json)
    requires data.Object?
    ensures var m := Objects.MessageInit(Objects.ExtMessage, data, false).value;
      var kind := Objects.MessageFetch(m, "type");
      && (EqualsInt(kind, 101) ==>
            OnMessage(prefix, events, commands, data) == EventThread(Routing(events, "member_join", m.json)))
      && (EqualsInt(kind, 102) ==>
            OnMessage(prefix, events, commands, data) == EventThread(Routing(events, "member_leave", m.json)))
  {
  }

  /** Any other type runs no handler at all. */
  lemma OtherTypesRunNothing(prefix: string, events: map<string, Handler>, commands: map<string, Handler>, data: Json)
    requires data.Object?
    requires var kind := Objects.MessageFetch(Objects.MessageInit(Objects.ExtMessage, data, false).value, "type");
      !EqualsInt(kind, 0) && !EqualsInt(kind, 101) && !EqualsInt(kind, 102)
    ensures OnMessage(prefix, events, commands, data) == (Done, [])
  {
  }

  /**
   * With the two-character prefix `"!!"`, the message `"!!ping"` asks for the
   * command `"!ping"`, so a registered `ping` is not run.
   */
  lemma OneCharacterStripped(h: Handler)
    ensures CommandName("!!ping") == "!ping"
    ensures CommandName("!!ping") !in map["ping" := h]
  {
    assert Strings.FirstToken("!!ping") == "!!ping" by {
      assert Strings.FirstToken("") == "";
      assert Strings.FirstToken("g") == "g";
      assert Strings.FirstToken("ng") == "ng";
      assert Strings.FirstToken("ing") == "ing";
      assert Strings.FirstToken("ping") == "ping";
      assert Strings.FirstToken("!ping") == "!ping";
    }
  }
}
