/**
 * The thread-queue websocket client of `pymino/ext/socket.py`. An incoming
 * frame becomes an `ext` `Message`; frames from the bot itself are dropped;
 * otherwise the first `EventTypes` attribute whose value is
 * `"type:mediaType"` chooses the event. Plain content queues a deferred
 * `_handle_event(key, message)` thread. Prefixed content naming a known
 * command calls `self._handle_command`, which neither the synchronous
 * `EventHandler` nor this class defines, so that branch raises
 * `AttributeError`; `OnMatchedIntended` states the command thread the code
 * evidently meant to queue. Handler calls and threads are recorded, never
 * run; a `Message` is represented by its payload.
 */
module ExtSocket {
  import opened Wrappers
  import opened Calls
  import opened JsonValues
  import Strings
  import WsEvents
  import Objects
  import opened EventHandlers

  /**
   * A thread appended to `threads`: `_handle_event(key, message)` still to
   * run, or (as intended) a thread running `_handle_command(json)`.
   */
  datatype Queued = Deferred(key: string, message: Json) | CommandQueued(json: Json)

  /** What `_on_ws_message` returns, or the error it raises. */
  datatype Reply = NoReply | Status(code: int) | TypeError | AttributeError

  /** The string `f"{message.type}:{message.mediaType}"`. */
  function EventCode(m: Objects.MessageRecord): (r: string)
    ensures ':' in r
  {
    Str(Objects.MessageFetch(m, "type")) + ":" + Str(Objects.MessageFetch(m, "mediaType"))
  }

  /**
   * The `EventTypes` attribute whose value is `code`: the event the code
   * names, except `share_exurl_message`, which has no attribute. The
   * class's special entries (`__module__`, `__doc__`, ...) never hold a
   * value with a colon, so only the attributes can match.
   */
  function MatchedEvent(code: string): (r: Option<WsEvents.ChatEvent>)
    ensures r.Some? ==> r.value in Objects.EventTypeAttributes && Objects.EventTypeValue(r.value) == code
    ensures r.None? ==> forall e :: e in Objects.EventTypeAttributes ==> Objects.EventTypeValue(e) != code
  {
    AttributeCodes(code);
    match WsEvents.EventOf(code)
    case Some(e) => if e == WsEvents.ShareExurlMessage then None else Some(e)
    case None => None
  }

  /** The attributes are the events other than `share_exurl_message`, each found by its code. */
  lemma AttributeCodes(code: string)
    ensures forall e :: WsEvents.EventOf(code) == Some(e) <==> code == WsEvents.Code(e)
    ensures forall e :: e in Objects.EventTypeAttributes <==> e != WsEvents.ShareExurlMessage
  {
    forall e ensures WsEvents.EventOf(code) == Some(e) <==> code == WsEvents.Code(e) {
      WsEvents.EventOfIff(code, e);
    }
    forall e ensures e in Objects.EventTypeAttributes <==> e != WsEvents.ShareExurlMessage {
      Objects.EventTypesOmitShareExurl(e);
    }
  }

  /** An attribute with the frame's code is the matched event: codes are unique. */
  lemma MatchedEventUnique(code: string, e: WsEvents.ChatEvent)
    requires e in Objects.EventTypeAttributes && Objects.EventTypeValue(e) == code
    ensures MatchedEvent(code) == Some(e)
  {
    WsEvents.CodeInjective(e, MatchedEvent(code).value);
  }

  /**
   * What `_on_ws_message` does with a decoded frame, for a client whose own
   * user id is `self`, with `prefix` and the command names `commands`: the
   * reply and the threads it appends.
   */
  function OnMessage(prefix: string, commands: set<string>, self: Json, data: Json): (r: (Reply, seq<Queued>))
    ensures |r.1| <= 1
    ensures r.0.Status? ==> r.0.code == 200
    ensures r.1 != [] ==> r.0 == Status(200) && r.1[0].Deferred?
  {
    match Objects.MessageInit(Objects.ExtMessage, data, false)
    case None => (TypeError, [])
    case Some(m) =>
      if Objects.MessageFetch(m, "uid") == self then (NoReply, [])
      else
        match MatchedEvent(EventCode(m))
        case None => (NoReply, [])
        case Some(e) => OnMatched(prefix, commands, m, e)
  }

  /**
   * The branch `_on_ws_message` takes once the attribute `e` matched, as
   * written: a known command reaches `self._handle_command`, an attribute
   * the client does not have, before any thread is built.
   */
  function OnMatched(prefix: string, commands: set<string>, m: Objects.MessageRecord, e: WsEvents.ChatEvent): (r: (Reply, seq<Queued>))
    ensures |r.1| <= 1
    ensures r.0.Status? ==> r.0.code == 200
    ensures r.1 != [] ==> r.0 == Status(200) && r.1 == [Deferred(WsEvents.Name(e), m.json)]
  {
    var content := Objects.MessageFetch(m, "content");
    if content.Null? || (content.String? && !Strings.StartsWith(content.s, prefix)) then
      (Status(200), [Deferred(WsEvents.Name(e), m.json)])
    else if !content.String? then
      (AttributeError, [])
    else if Strings.Drop(Strings.FirstToken(content.s), |prefix|) in commands then
      (AttributeError, [])
    else
      (Status(200), [])
  }

  /** The same branch as intended: a known command queues a thread for `_handle_command(json)`. */
  function OnMatchedIntended(prefix: string, commands: set<string>, m: Objects.MessageRecord, e: WsEvents.ChatEvent): (r: (Reply, seq<Queued>))
    ensures |r.1| <= 1
    ensures r.0.Status? ==> r.0.code == 200
    ensures r.1 != [] ==> r.0 == Status(200)
  {
    var content := Objects.MessageFetch(m, "content");
    if content.String? && Strings.StartsWith(content.s, prefix)
      && Strings.Drop(Strings.FirstToken(content.s), |prefix|) in commands
    then (Status(200), [CommandQueued(m.json)])
    else OnMatched(prefix, commands, m, e)
  }

  /**
   * Prefixed content naming a known command raises `AttributeError` and
   * queues nothing as written, where the intended branch queues the command
   * thread and returns 200; on every other frame the two agree.
   */
  lemma KnownCommandRaises(prefix: string, commands: set<string>, m: Objects.MessageRecord, e: WsEvents.ChatEvent)
    ensures var content := Objects.MessageFetch(m, "content");
      var known := content.String? && Strings.StartsWith(content.s, prefix)
        && Strings.Drop(Strings.FirstToken(content.s), |prefix|) in commands;
      && (known ==>
            && OnMatched(prefix, commands, m, e) == (AttributeError, [])
            && OnMatchedIntended(prefix, commands, m, e) == (Status(200), [CommandQueued(m.json)]))
      && (!known ==> OnMatchedIntended(prefix, commands, m, e) == OnMatched(prefix, commands, m, e))
  {
  }

  /**
   * The scan over `EventTypes.__dict__.items()`: the first attribute whose
   * value is `code`, which is the matched event.
   */
  method FindAttribute(code: string) returns (found: Option<WsEvents.ChatEvent>)
    ensures found == MatchedEvent(code)
  {
    var attributes := Objects.EventTypeAttributes;
    var i := 0;
    while i < |attributes|
      invariant 0 <= i <= |attributes|
      invariant forall j :: 0 <= j < i ==> Objects.EventTypeValue(attributes[j]) != code
    {
      if Objects.EventTypeValue(attributes[i]) == code {
        MatchedEventUnique(code, attributes[i]);
        return Some(attributes[i]);
      }
      i := i + 1;
    }
    forall e | e in attributes ensures Objects.EventTypeValue(e) != code {
      var j :| 0 <= j < |attributes| && attributes[j] == e;
    }
    found := None;
  }

  class SocketClient {
    /** The registries and prefix the client inherits. */
    const handlers: EventHandler
    /** The bot's own user id, `self.userId`. */
    const userId: Json
    var threads: seq<Queued>

    constructor (handlers: EventHandler, userId: Json)
      ensures this.handlers == handlers && this.userId == userId && threads == []
    {
      this.handlers := handlers;
      this.userId := userId;
      threads := [];
    }

    /** `_on_ws_message`: scan the `EventTypes` attributes for the frame's code and act on the first match. */
    method OnWsMessage(data: Json) returns (r: Reply)
      modifies this
      ensures var spec := OnMessage(handlers.commandPrefix, handlers.commands.Keys, userId, data);
        r == spec.0 && threads == old(threads) + spec.1
    {
      var message := Objects.MessageInit(Objects.ExtMessage, data, false);
      if message.None? {
        return TypeError;
      }
      var m := message.value;
      if Objects.MessageFetch(m, "uid") == userId {
        return NoReply;
      }
      var found := FindAttribute(EventCode(m));
      if found.Some? {
        r := HandleMatch(m, found.value);
      } else {
        r := NoReply;
      }
    }

    /** The body of the loop once `EventTypes.e` matched: queue the event, or check the command. */
    method HandleMatch(m: Objects.MessageRecord, e: WsEvents.ChatEvent) returns (r: Reply)
      modifies this
      ensures var spec := OnMatched(handlers.commandPrefix, handlers.commands.Keys, m, e);
        r == spec.0 && threads == old(threads) + spec.1
    {
      var content := Objects.MessageFetch(m, "content");
      var prefix := handlers.commandPrefix;
      if content.Null? || (content.String? && !Strings.StartsWith(content.s, prefix)) {
        threads := threads + [Deferred(WsEvents.Name(e), m.json)];
        r := Status(200);
      } else if !content.String? {
        // `startswith` on a value that is not a string
        r := AttributeError;
      } else {
        // the remaining case is exactly "prefixed", so the `return 400` branch is never taken
        var command := Strings.Drop(Strings.FirstToken(content.s), |prefix|);
        if command in handlers.commands {
          // `self._handle_command` is evaluated before the thread is built, and no such attribute exists
          r := AttributeError;
        } else {
          r := Status(200);
        }
      }
    }

    /** `_on_ws_error`: call the `error` handler, or drop the error when none is registered. */
    method OnWsError(error: string) returns (r: Option<Call<Arg>>)
      ensures r.Some? <==> "error" in handlers.events
      ensures r.Some? ==> r.value == Call(handlers.events["error"], [ErrorOf(error)])
    {
      if "error" in handlers.events {
        r := Some(Call(handlers.events["error"], [ErrorOf(error)]));
      } else {
        r := None;
      }
    }
  }

  /** A frame whose `uid` is the bot's own queues nothing and returns `None`. */
  lemma OwnMessagesIgnored(prefix: string, commands: set<string>, data: Json)
    requires data.Object?
    ensures var m := Objects.MessageInit(Objects.ExtMessage, data, false).value;
      OnMessage(prefix, commands, Objects.MessageFetch(m, "uid"), data) == (NoReply, [])
  {
  }

  /**
   * A frame from someone else with plain content (`None`, or a string without
   * the prefix) whose code has an attribute queues exactly one deferred
   * event under that attribute's name, and returns 200.
   */
  lemma PlainContentQueuesEvent(prefix: string, commands: set<string>, self: Json, data: Json, e: WsEvents.ChatEvent)
    requires data.Object?
    requires var m := Objects.MessageInit(Objects.ExtMessage, data, false).value;
      && Objects.MessageFetch(m, "uid") != self
      && e in Objects.EventTypeAttributes && Objects.EventTypeValue(e) == EventCode(m)
      && var content := Objects.MessageFetch(m, "content");
        content.Null? || (content.String? && !Strings.StartsWith(content.s, prefix))
    ensures var m := Objects.MessageInit(Objects.ExtMessage, data, false).value;
      OnMessage(prefix, commands, self, data) == (Status(200), [Deferred(WsEvents.Name(e), m.json)])
  {
    var m := Objects.MessageInit(Objects.ExtMessage, data, false).value;
    MatchedEventUnique(EventCode(m), e);
  }

  /**
   * Prefixed content queues nothing, whatever the frame: the reply is `None`
   * (own frame or no attribute), 200 or `AttributeError`; which of the last
   * two is stated by `PrefixedMatchQueuesNothing`.
   */
  lemma PrefixedContentQueuesNothing(prefix: string, commands: set<string>, self: Json, data: Json)
    requires data.Object?
    requires var m := Objects.MessageInit(Objects.ExtMessage, data, false).value;
      var content := Objects.MessageFetch(m, "content");
      content.String? && Strings.StartsWith(content.s, prefix)
    ensures OnMessage(prefix, commands, self, data).1 == []
    ensures OnMessage(prefix, commands, self, data).0 in {NoReply, Status(200), AttributeError}
  {
    var m := Objects.MessageInit(Objects.ExtMessage, data, false).value;
    if Objects.MessageFetch(m, "uid") != self && MatchedEvent(EventCode(m)).Some? {
      PrefixedMatchQueuesNothing(prefix, commands, m, MatchedEvent(EventCode(m)).value);
    }
  }

  /**
   * Once an attribute matched, prefixed content queues nothing; it raises
   * `AttributeError` exactly when its token is a known command, and replies
   * 200 otherwise.
   */
  lemma PrefixedMatchQueuesNothing(prefix: string, commands: set<string>, m: Objects.MessageRecord, e: WsEvents.ChatEvent)
    requires var content := Objects.MessageFetch(m, "content");
      content.String? && Strings.StartsWith(content.s, prefix)
    ensures OnMatched(prefix, commands, m, e).1 == []
    ensures var content := Objects.MessageFetch(m, "content");
      OnMatched(prefix, commands, m, e).0 ==
        if Strings.Drop(Strings.FirstToken(content.s), |prefix|) in commands then AttributeError else Status(200)
  {
  }

  /**
   * A frame from someone else whose code has an attribute and whose content
   * is prefixed and names a known command raises `AttributeError`.
   */
  lemma KnownCommandFrameRaises(prefix: string, commands: set<string>, self: Json, data: Json, e: WsEvents.ChatEvent)
    requires data.Object?
    requires var m := Objects.MessageInit(Objects.ExtMessage, data, false).value;
      && Objects.MessageFetch(m, "uid") != self
      && e in Objects.EventTypeAttributes && Objects.EventTypeValue(e) == EventCode(m)
      && var content := Objects.MessageFetch(m, "content");
        content.String? && Strings.StartsWith(content.s, prefix)
        && Strings.Drop(Strings.FirstToken(content.s), |prefix|) in commands
    ensures OnMessage(prefix, commands, self, data) == (AttributeError, [])
  {
    var m := Objects.MessageInit(Objects.ExtMessage, data, false).value;
    MatchedEventUnique(EventCode(m), e);
  }

  /**
   * A frame from someone else whose code has an attribute and whose content
   * is prefixed but names no known command queues nothing and replies 200.
   */
  lemma PrefixedUnknownCommandReplies200(prefix: string, commands: set<string>, self: Json, data: Json, e: WsEvents.ChatEvent)
    requires data.Object?
    requires var m := Objects.MessageInit(Objects.ExtMessage, data, false).value;
      && Objects.MessageFetch(m, "uid") != self
      && e in Objects.EventTypeAttributes && Objects.EventTypeValue(e) == EventCode(m)
      && var content := Objects.MessageFetch(m, "content");
        content.String? && Strings.StartsWith(content.s, prefix)
        && Strings.Drop(Strings.FirstToken(content.s), |prefix|) !in commands
    ensures OnMessage(prefix, commands, self, data) == (Status(200), [])
  {
    var m := Objects.MessageInit(Objects.ExtMessage, data, false).value;
    MatchedEventUnique(EventCode(m), e);
  }

  /** A frame whose code names no attribute queues nothing and returns `None`. */
  lemma UnmatchedCodeQueuesNothing(prefix: string, commands: set<string>, self: Json, data: Json)
    requires data.Object?
    requires var m := Objects.MessageInit(Objects.ExtMessage, data, false).value;
      forall e :: e in Objects.EventTypeAttributes ==> Objects.EventTypeValue(e) != EventCode(m)
    ensures OnMessage(prefix, commands, self, data) == (NoReply, [])
  {
  }
}
