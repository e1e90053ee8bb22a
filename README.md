# pymino dispatch core in Dafny

This project models the event and command dispatch layer of pymino, a Python
client library for the Amino chat service, and proves properties of the model.
It covers:

- **Command registry** (`Commands`): an append-only list of commands with
  first-match lookup by name or alias, the alias map, the help text, and a
  lazily filled cooldown table indexed by command and user.
- **Asynchronous event handler** (`AsyncEvents`): splits a command token off a
  text message, resolves aliases, applies the cooldown gate, binds handler
  parameters by name, and falls back to the built-in help reply or to the
  `text_message` handler.
- **Older dispatchers:**
  - `Dispatch`: the message-type dispatch table.
  - `EventHandlers`: the synchronous `EventHandler` mixin.
  - `ExtSocket` and `LegacySocket`: the two websocket clients and how they
    classify each incoming frame.
- **Lookup tables**:
  - `WsEvents`: the websocket event table and the notification table.
  - `ApiErrors`: the status-code table of `APIException` and its constructor,
    which always ends by raising `API_ERROR`.
- **Record accessors** (`Objects`): the recursive JSON key search
  `fetch_key`, the `_fetch` accessors of `User`, `Comment` and `Message`, and
  the `EventTypes` constants.
- **Record caches**:
  - `CacheFiles`: what the two caches share.
  - `SessionCaches`: the login cache keyed by email.
  - `LiteCaches`: the link-resolution response cache keyed by URL, with the
    file name derived from the URL.

Shared helpers:

- `JsonValues`: decoded JSON, with dict members in order, Python
  truthiness, and `str` and `repr`.
- `Strings`: the Python string operations the core uses.
- `Calls`: a handler is an opaque identifier with its declared parameter names,
  and a handler call is recorded as a value, never run.
- `Wrappers`: `Option`.

Time is an integer parameter `now`. A cache file is a `CacheFile` object whose
contents are `Missing`, `Blank` (text `load` rejects) or a decoded JSON value.

## Model

| member | source | states |
|---|---|---|
| Commands.Registry.constructor | pymino/ext/utilities/commands.py:12-14 | a new registry has no commands and an empty cooldown table |
| Commands.Registry.AddCommand | pymino/ext/utilities/commands.py:16-18 | the command is appended at the end and returned; earlier commands and the cooldown table are unchanged |
| Commands.Registry.FetchCommand | pymino/ext/utilities/commands.py:20-24 | the loop returns `Lookup`, the first command matching the token by name or alias, or `None` |
| Commands.LookupIsFirstMatch | pymino/ext/utilities/commands.py:20-24 | lookup fails exactly when no command matches; otherwise it returns the earliest matching command |
| Commands.LookupAfterAppend | pymino/ext/utilities/commands.py:16-24 | appending a command never changes an earlier match, so a duplicate name or alias stays shadowed |
| Commands.Names | pymino/ext/utilities/commands.py:35-36 | one name per command, in registration order |
| Commands.Registry.CommandNames | pymino/ext/utilities/commands.py:35-36 | the comprehension yields the names in registration order |
| Commands.AliasMapOwner | pymino/ext/utilities/commands.py:38-43 | the keys of the alias map are exactly the declared aliases; each maps to the name of the last command declaring it |
| Commands.Registry.CommandAliases | pymino/ext/utilities/commands.py:38-43 | the nested loops build exactly `AliasMap` |
| Commands.Registry.WriteAliases | pymino/ext/utilities/commands.py:41-42 | the inner loop adds every alias of one command, mapped to its name |
| Commands.AliasesUpToStep | pymino/ext/utilities/commands.py:41-42 | writing one more alias extends the entries written so far by that alias |
| Commands.FetchedPreservesReadings | pymino/ext/utilities/commands.py:60-65 | lazy zero-initialisation creates the pair's entry, changes no reading and leaves other commands' tables alone |
| Commands.Registry.FetchCooldown | pymino/ext/utilities/commands.py:60-65 | returns the stored expiry or 0, and the table becomes the lazily initialised one |
| Commands.Registry.SetCooldown | pymino/ext/utilities/commands.py:57-58 | stores `now + cooldown` for the pair when the command's inner table exists; otherwise `KeyError` and nothing changes |
| Commands.FlattenConcat | pymino/ext/utilities/commands.py:70-71 | joining two runs of help pieces is joining each in turn |
| Commands.EntryTexts | pymino/ext/utilities/commands.py:70-71 | one help entry per command, in order |
| Commands.HelpEntriesSnoc | pymino/ext/utilities/commands.py:70-71 | a command registered last adds its entry at the end of the help text |
| Commands.HelpListsInOrder | pymino/ext/utilities/commands.py:67-73 | the help text is header, then entries in registration order (command `i` after all earlier ones), then footer |
| Commands.Registry.Help | pymino/ext/utilities/commands.py:67-73 | `__help__` returns `HelpText` of the registered commands |
| Commands.Registry.WriteEntries | pymino/ext/utilities/commands.py:70-71 | the loop appends the entries of all commands in order |
| AsyncEvents.SetParameters | pymino/ext/async_event_handler.py:73-83 | one argument per declared parameter, in order; `ctx`, `message`, `username` and `userId` bind their values, any other name binds `None` |
| AsyncEvents.CommandToken | pymino/ext/async_event_handler.py:197 | the token follows the first `len(prefix)` characters of the content and contains no space |
| AsyncEvents.IsCommandIffLookup | pymino/ext/async_event_handler.py:185-193 | `command_exists` holds exactly when `fetch_command` finds a command |
| AsyncEvents.AsyncEventHandler.CommandExists | pymino/ext/async_event_handler.py:185-189 | true exactly when the token is a command name or an alias key |
| AsyncEvents.CanonicalIsRegistered | pymino/ext/async_event_handler.py:216-221 | a known token resolves to a name that `fetch_command` finds, so the handler lookup never fails |
| AsyncEvents.LastOwner | pymino/ext/utilities/commands.py:38-43 | the index of a command declaring the alias, with no later command declaring it |
| AsyncEvents.AliasResolvesToLastOwner | pymino/ext/async_event_handler.py:216 | an alias resolves to the name of the last command that declares it |
| AsyncEvents.Gate | pymino/ext/async_event_handler.py:227-243 | refused exactly when cooldown > 0 and the stored expiry is after `now`, with the table unchanged; on a pass the expiry becomes `now + cooldown`; other pairs are untouched; cooldown 0 writes nothing |
| AsyncEvents.AsyncEventHandler.CheckCooldown | pymino/ext/async_event_handler.py:227-243 | returns 403 exactly when the gate refuses, otherwise 200; the cooldown table becomes the gate's, the commands are unchanged |
| AsyncEvents.CooldownFiveSeconds | pymino/ext/async_event_handler.py:227-243 | with cooldown 5, a user passes at 0, is refused at 3 with 2 seconds left, and passes at 6 with expiry 11 |
| AsyncEvents.PrefixMismatchNeverRunsCommand | pymino/ext/async_event_handler.py:199-213 | a message not starting with the prefix only reaches the `text_message` handler, and the cooldown table is unchanged |
| AsyncEvents.UnknownTokenFallsBack | pymino/ext/async_event_handler.py:199-210 | for an unknown token, exactly `{prefix}help` gets the help reply; otherwise the `text_message` handler runs, or nothing does |
| AsyncEvents.MatchedCommandRuns | pymino/ext/async_event_handler.py:212-224 | a prefixed known token runs the resolved command or is throttled; the text handler is not called; the argument is the content after prefix, token and one character |
| AsyncEvents.AsyncEventHandler.HandleCommand | pymino/ext/async_event_handler.py:195-224 | the outcome and the new cooldown table are those of `HandleCommandSpec`; the commands are unchanged |
| AsyncEvents.AsyncEventHandler.RunCommand | pymino/ext/async_event_handler.py:215-224 | for a known token: resolve the alias, check the cooldown, call the command's function with its bound parameters |
| AsyncEvents.AsyncEventHandler.HandleEvent | pymino/ext/async_event_handler.py:706-725 | as intended, with the context built and `AddCache`: a text message caches non-command text and goes through `_handle_command`; another registered event calls its handler with the raw payload for the four notification events and bound parameters otherwise; an unregistered event does nothing |
| AsyncEvents.AsyncEventHandler.HandleEventAsWritten | pymino/ext/async_event_handler.py:705 | as written: building the context with three arguments raises `TypeError` for every event, and nothing is cached, routed or throttled |
| AsyncEvents.NotifEventsTakeRawPayload | pymino/ext/async_event_handler.py:713-718 | the `NOTIF_TYPES` names of 53, 67 and 68 are exactly the raw-payload events other than `user_online` |
| AsyncEvents.AsyncEventHandler.constructor | pymino/ext/async_event_handler.py:22-27 | a new handler has no events, an empty wait cache and a fresh empty registry |
| AsyncEvents.AsyncEventHandler.On | pymino/ext/async_event_handler.py:246-264 | an `on_*` decorator overwrites its event's slot and returns the function |
| AsyncEvents.AsyncEventHandler.Emit | pymino/ext/async_event_handler.py:86-88 | calls the event's handler with the arguments exactly when one is registered |
| AsyncEvents.AsyncEventHandler.Command | pymino/ext/async_event_handler.py:156-178 | as intended, with the corrected keywords: `ValueError` exactly when neither `name` nor `command_name` is given, registering nothing; otherwise one command is appended, the deprecated keywords winning |
| AsyncEvents.UnexpectedKeyword | pymino/ext/async_event_handler.py:168-176 | no keyword is reported exactly when every keyword names a parameter; a reported keyword names none |
| AsyncEvents.DecoratorAsWrittenRaises | pymino/ext/async_event_handler.py:168-176 | the keywords as written do not bind to `Command.__init__`: `name` raises `TypeError` |
| AsyncEvents.CorrectedKeywordsBind | pymino/ext/utilities/commands.py:4 | the keywords `command_name` and `command_description` (without `usage`) all bind |
| AsyncEvents.AddCacheAsWritten | pymino/ext/async_event_handler.py:267-277 | as written, a repeated key empties the whole wait cache before the new entry is added |
| AsyncEvents.AddCacheAsWrittenForgetsOthers | pymino/ext/async_event_handler.py:267-277 | a second text from one user drops another user's waiting text |
| AsyncEvents.AddCache | pymino/ext/async_event_handler.py:267-277 | as intended: the key maps to the new content, and every other entry is kept |
| Dispatch.TypeKey | pymino/ext/dispatcher.py:23-24 | the dict key of a value: `True` and `False` become `1` and `0`, everything else is itself |
| Dispatch.MessageDispatcher.constructor | pymino/ext/dispatcher.py:20-21 | a new dispatcher has an empty table |
| Dispatch.MessageDispatcher.Register | pymino/ext/dispatcher.py:23-24 | the type's slot now holds the handler and the other slots are unchanged; an unhashable type raises `TypeError` and changes nothing |
| Dispatch.MessageDispatcher.Handle | pymino/ext/dispatcher.py:26-30 | the result is `HandleSpec`, whose promises are proved by `RegisterThenHandle`, `MissingTypeLooksUpNone` and `BoolAndIntShareSlot`: the handler for `message.get("t")` runs once with the whole message, or nothing runs |
| Dispatch.RegisterThenHandle | pymino/ext/dispatcher.py:23-30 | after registering a type, a message with that `"t"` goes to the new handler; other types route as before |
| Dispatch.MissingTypeLooksUpNone | pymino/ext/dispatcher.py:26-29 | a message without `"t"` is dispatched to the handler registered for `None`, if any |
| Dispatch.BoolAndIntShareSlot | pymino/ext/dispatcher.py:23-24 | `True` and `1` name the same slot |
| EventHandlers.Routing | pymino/ext/EventHandler.py:40-46 | only `member_join`, `member_leave` and `text_message` are routed, to their handler with `Context(data)`; an empty slot raises `KeyError` |
| EventHandlers.RoutingAfterRegistration | pymino/ext/event_handler.py:36-42 | filling a routed slot makes `_handle_event` call the new handler |
| EventHandlers.RoutingOtherSlots | pymino/ext/event_handler.py:36-42 | filling one slot changes no other route |
| EventHandlers.EventHandler.constructor | pymino/ext/EventHandler.py:35-38 | empty event and command tables and the prefix `"!"` |
| EventHandlers.EventHandler.OnReady | pymino/ext/EventHandler.py:66-69 | overwrites the `ready` slot and returns the function unchanged |
| EventHandlers.EventHandler.OnTextMessage | pymino/ext/EventHandler.py:89-92 | overwrites the `text_message` slot and returns the function unchanged |
| EventHandlers.EventHandler.OnMemberJoin | pymino/ext/EventHandler.py:111-114 | overwrites the `member_join` slot and returns the function unchanged |
| EventHandlers.EventHandler.OnMemberLeave | pymino/ext/EventHandler.py:133-136 | overwrites the `member_leave` slot and returns the function unchanged |
| EventHandlers.EventHandler.OnError | pymino/ext/EventHandler.py:142-145 | overwrites the `error` slot and returns the function unchanged |
| EventHandlers.EventHandler.Command | pymino/ext/EventHandler.py:162-165 | stores the function under the name, replacing an earlier one |
| EventHandlers.EventHandler.Emit | pymino/ext/EventHandler.py:177-178 | calls the handler with the arguments exactly when it is registered |
| EventHandlers.EventHandler.HandleEvent | pymino/ext/event_handler.py:36-42 | `_handle_event` on the current tables is `Routing` |
| EventHandlers.JoinHandlerIsRouted | pymino/ext/event_handler.py:90-93 | a handler registered with `on_member_join` is the one `member_join` calls, and the `member_leave` route is unchanged |
| EventHandlers.LastCommandWins | pymino/ext/event_handler.py:138-141 | of two registrations under one command name, the later is kept |
| EventHandlers.FreshHandlerRaises | pymino/ext/event_handler.py:31-34 | a fresh handler raises `KeyError` for every routed event and emits nothing |
| ExtSocket.EventCode | pymino/ext/socket.py:68 | the code `"type:mediaType"` contains a colon |
| ExtSocket.MatchedEvent | pymino/ext/socket.py:67-68 | the matched attribute has the frame's code; when there is none, no attribute has it |
| ExtSocket.AttributeCodes | pymino/ext/objects.py:784-832 | the `EventTypes` attributes are the events other than `share_exurl_message`, each found by its code |
| ExtSocket.MatchedEventUnique | pymino/ext/socket.py:67-68 | codes are unique, so any attribute with the frame's code is the matched one |
| ExtSocket.FindAttribute | pymino/ext/socket.py:67-68 | the scan over the attributes finds `MatchedEvent` |
| ExtSocket.OnMessage | pymino/ext/socket.py:59-81 | at most one thread is queued, only a deferred `_handle_event` thread and only when the reply is 200; the only status is 200, so the 400 branch is unreachable |
| ExtSocket.OnMatched | pymino/ext/socket.py:70-81 | as written: the branch after a match queues at most the deferred event thread and replies 200 when it does; a known command raises `AttributeError` |
| ExtSocket.OnMatchedIntended | pymino/ext/socket.py:74-79 | as intended: a known command queues one thread for `_handle_command(json)` and replies 200 |
| ExtSocket.KnownCommandRaises | pymino/ext/socket.py:77-78 | a prefixed known command raises `AttributeError` and queues nothing as written, where the intended branch queues the command thread; on every other frame the two agree |
| ExtSocket.SocketClient.constructor | pymino/ext/socket.py:23-29 | a new client has no threads |
| ExtSocket.SocketClient.OnWsMessage | pymino/ext/socket.py:59-81 | the reply (or raised error) and the appended threads are `OnMessage` of the frame |
| ExtSocket.SocketClient.HandleMatch | pymino/ext/socket.py:70-81 | the reply (or raised error) and the appended threads are `OnMatched` |
| ExtSocket.SocketClient.OnWsError | pymino/ext/socket.py:92-94 | the error handler is called exactly when one is registered, with the error |
| ExtSocket.OwnMessagesIgnored | pymino/ext/socket.py:65 | a frame from the bot's own user id queues nothing and returns `None` |
| ExtSocket.PlainContentQueuesEvent | pymino/ext/socket.py:70-72 | plain content with a matching code queues exactly one deferred event under the attribute's name and returns 200 |
| ExtSocket.PrefixedContentQueuesNothing | pymino/ext/socket.py:74-79 | prefixed content queues no thread, for any frame; the reply is `None`, 200 or `AttributeError` |
| ExtSocket.PrefixedMatchQueuesNothing | pymino/ext/socket.py:74-79 | once matched, prefixed content queues no thread; it raises `AttributeError` exactly when the stripped token is a known command and replies 200 otherwise |
| ExtSocket.PrefixedUnknownCommandReplies200 | pymino/ext/socket.py:74-79 | a frame from someone else with a matching code and prefixed content naming no known command queues nothing and replies 200 |
| ExtSocket.KnownCommandFrameRaises | pymino/ext/socket.py:74-78 | a frame from someone else with a matching code and prefixed content naming a known command raises `AttributeError` and queues nothing |
| ExtSocket.UnmatchedCodeQueuesNothing | pymino/ext/socket.py:67-68 | a frame whose code names no attribute queues nothing |
| LegacySocket.CommandName | pymino/_websocket.py:106 | the command name is the first token without its first character, whatever the prefix |
| LegacySocket.OnMessage | pymino/_websocket.py:94-116 | at most two threads are appended for one frame |
| LegacySocket.LegacyClient.constructor | pymino/_websocket.py:31-38 | a new client has no threads |
| LegacySocket.LegacyClient.RunEvent | pymino/_websocket.py:110 | `_handle_event` runs at once: its call is appended, or its `KeyError` escapes |
| LegacySocket.LegacyClient.OnWsMessage | pymino/_websocket.py:94-116 | the outcome and the appended calls are `OnMessage` of the frame |
| LegacySocket.LegacyClient.OnWsError | pymino/_websocket.py:119-129 | the error handler is called exactly when one is registered |
| LegacySocket.CommandThenText | pymino/_websocket.py:103-110 | a type-0 message naming a command runs the command first and the text handler second |
| LegacySocket.NoCommandOnlyText | pymino/_websocket.py:103-110 | a type-0 message that is not prefixed, or whose stripped name is no command, only attempts the text event: one call when a text handler is registered |
| LegacySocket.TextEventAlwaysFires | pymino/_websocket.py:110 | for type 0 the text event is attempted whether or not a command matched |
| LegacySocket.MemberEventsRouted | pymino/_websocket.py:112-116 | types 101 and 102 route to `member_join` and `member_leave` |
| LegacySocket.OtherTypesRunNothing | pymino/_websocket.py:101-116 | any other type runs no handler |
| LegacySocket.OneCharacterStripped | pymino/_websocket.py:106 | with prefix `"!!"`, `"!!ping"` asks for `"!ping"`, so `ping` is not run |
| WsEvents.NameRoundTrip | pymino/ext/entities/wsevents.py:4-54 | every event name reads back as its event |
| WsEvents.NamesDistinct | pymino/ext/entities/wsevents.py:4-54 | the event names are pairwise distinct, so the table is injective |
| WsEvents.KindRoundTrip | pymino/ext/entities/wsevents.py:4-54 | every event's type and media type read back as the event |
| WsEvents.Code | pymino/ext/entities/wsevents.py:4-54 | every key contains a colon |
| WsEvents.ParseCode | pymino/ext/entities/wsevents.py:4-54 | a parsed key contains a colon |
| WsEvents.ParseCodeOfCode | pymino/ext/entities/wsevents.py:4-54 | every key has the form `"<int>:<int>"`: parsing it gives back the event's kind |
| WsEvents.ParseJoined | pymino/ext/entities/wsevents.py:4-54 | two numbers printed around a colon parse back as the numbers |
| WsEvents.CodeInjective | pymino/ext/entities/wsevents.py:4-54 | distinct events have distinct keys |
| WsEvents.EventOfIff | pymino/ext/entities/wsevents.py:4-54 | a code looks up an event exactly when it is that event's key |
| WsEvents.EventName | pymino/ext/entities/wsevents.py:4-54 | `EVENT_TYPES.get(code)` is an event's name exactly when `code` is that event's key |
| WsEvents.Position | pymino/ext/entities/wsevents.py:4-54 | every event has a place below the table size |
| WsEvents.PositionRoundTrip | pymino/ext/entities/wsevents.py:4-54 | the event at an event's place is that event |
| WsEvents.EventAtRoundTrip | pymino/ext/entities/wsevents.py:4-54 | the place of the event at a place is that place |
| WsEvents.EventTable | pymino/ext/entities/wsevents.py:4-54 | the table lists the 49 events |
| WsEvents.EventTablePlaces | pymino/ext/entities/wsevents.py:4-54 | each event occurs in the table exactly once |
| WsEvents.TextMessageCode | pymino/ext/entities/wsevents.py:5 | `"0:0"` is `text_message` |
| WsEvents.MemberJoinCode | pymino/ext/entities/wsevents.py:22 | `"101:0"` is `member_join` |
| WsEvents.MemberLeaveCode | pymino/ext/entities/wsevents.py:23 | `"102:0"` is `member_leave` |
| WsEvents.UnknownCode | pymino/ext/entities/wsevents.py:4-54 | `"0:1"` is no event |
| WsEvents.NotifType | pymino/ext/entities/wsevents.py:57-61 | only 53, 67 and 68 are mapped (their names are stated by `AsyncEvents.NotifEventsTakeRawPayload`) |
| WsEvents.NotifNamesDistinct | pymino/ext/entities/wsevents.py:57-61 | no two notification types share a name |
| ApiErrors.ExceptionFor | pymino/ext/entities/exceptions.py:269-335 | a found error is filed under the code looked up |
| ApiErrors.ExceptionForIff | pymino/ext/entities/exceptions.py:269-335 | a code finds an error exactly when it is that error's key |
| ApiErrors.ExceptionForStatusCode | pymino/ext/entities/exceptions.py:269-335 | every error is found under its own code |
| ApiErrors.StatusCodesDistinct | pymino/ext/entities/exceptions.py:269-335 | no two errors share a code |
| ApiErrors.SampleCodes | pymino/ext/entities/exceptions.py:274-280 | 105 is `InvalidSession`, 200 is `InvalidAccountOrPassword`, 104 is no key |
| ApiErrors.Classify | pymino/ext/entities/exceptions.py:346-347 | a status maps to an error only when it is an `int` key, and every `int` key does |
| ApiErrors.Construct | pymino/ext/entities/exceptions.py:337-355 | the attributes default to the whole response; the typed error is built only for an `int` key, with `" (url)"` appended when the url is set, the message without `api:message` being the `repr` of the whole response; it is swallowed, and `API_ERROR(response)` is always raised |
| ApiErrors.BoolStatusNeverMapped | pymino/ext/entities/exceptions.py:346 | a `bool` status code maps to no error |
| Objects.FetchKeySpec | pymino/ext/utilities/objects.py:32-61 | a top-level key answers directly (`[value]` in list mode); a non-container gives `None`; list mode gives every hit and single mode the single-mode search |
| Objects.FirstTruthy | pymino/ext/utilities/objects.py:46 | the first truthy value, present exactly when some value is truthy |
| Objects.FirstTruthyConcat | pymino/ext/utilities/objects.py:46 | the first truthy value of a concatenation comes from the first part that has one |
| Objects.AllOfItemsConcat | pymino/ext/utilities/objects.py:53-57 | list-mode hits over a concatenation are the concatenated hits |
| Objects.SingleIsFirstTruthyHit | pymino/ext/objects.py:4-28 | single mode is truthy exactly when some list-mode hit is, and then it is the first truthy hit; otherwise it is `None` or one of the hits |
| Objects.NestedResults | pymino/ext/utilities/objects.py:55-58 | at most one nested result per list item |
| Objects.FirstOfItemsIsFirstTruthyOrLast | pymino/ext/utilities/objects.py:53-60 | over a list, single mode returns the first truthy nested result, else the last one, else `None` |
| Objects.NoContainersNoHits | pymino/ext/utilities/objects.py:53-60 | a list without containers gives `None`, and `[]` in list mode |
| Objects.NoContainersNoResults | pymino/ext/utilities/objects.py:53-60 | a list without containers has no nested results and no hits |
| Objects.FetchKey | pymino/ext/utilities/objects.py:6-61 | the loops compute `FetchKeySpec` |
| Objects.CollectOverMembers | pymino/ext/utilities/objects.py:40-47 | the list-mode loop over a dict collects every hit in member order |
| Objects.SearchOverMembers | pymino/ext/utilities/objects.py:40-47 | the single-mode loop over a dict computes the single-mode search |
| Objects.CollectOverItems | pymino/ext/utilities/objects.py:53-60 | the list-mode loop over a list collects every hit in item order |
| Objects.SearchOverItems | pymino/ext/utilities/objects.py:53-60 | the single-mode loop over a list computes the single-mode search |
| Objects.Project | pymino/ext/utilities/objects.py:129 | `[i[key] for i in x]` succeeds on a list exactly when every item holds the key; an empty dict or string gives `[]`; anything else raises |
| Objects.UserFetch | pymino/ext/utilities/objects.py:124-129 | the profile list or profile answers, and on `KeyError` or `TypeError` `fetch_key` does |
| Objects.UserProfileHit | pymino/ext/objects.py:35-39 | a profile holding the key answers directly |
| Objects.UserProfileListHit | pymino/ext/utilities/objects.py:124-129 | in list mode, one value per profile when every profile holds the key |
| Objects.CommentFetchAsWritten | pymino/ext/utilities/objects.py:320-325 | as written in both modules (also pymino/ext/objects.py:210-214), a miss answers `None` |
| Objects.CommentFetch | pymino/ext/objects.py:35-39 | as intended, following `User._fetch`: a miss answers the `fetch_key` fallback |
| Objects.CommentFallbackLost | pymino/ext/utilities/objects.py:320-325 | a comment record without `ndcId` under a payload holding it answers `None` as written, and the value once corrected |
| Objects.MessageInit | pymino/ext/objects.py:391-401 | a dict payload builds a message; without `"o"` the payload and key `message` stay; with `"o"` the two modules differ in when they unwrap and switch to `chatMessage` |
| Objects.MessageFetch | pymino/ext/utilities/objects.py:561-563 | in single mode the field is `fetch_key` of the payload |
| Objects.MessageSingleModeSearches | pymino/ext/objects.py:403-407 | the list index key always raises `TypeError`, so a single-mode field is found by the search alone |
| Objects.EventTypesOmitShareExurl | pymino/ext/objects.py:784-832 | `EventTypes` has every table event except `share_exurl_message` |
| Objects.TextMessageAttribute | pymino/ext/utilities/objects.py:67 | `text_message` is `"0:0"` |
| Objects.MemberJoinAttribute | pymino/ext/utilities/objects.py:83 | `member_join` is `"101:0"` |
| Objects.MemberLeaveAttribute | pymino/ext/utilities/objects.py:84 | `member_leave` is `"102:0"` |
| CacheFiles.CacheFile.constructor | pymino/ext/utilities/session_cache.py:16-18 | a file with the given contents |
| CacheFiles.Lookup | pymino/ext/utilities/session_cache.py:66-68 | `x[key]` finds the key exactly on a dict holding it, and raises `TypeError` exactly on a non-dict |
| CacheFiles.KeyStrings | pymino/ext/utilities/session_cache.py:67 | iterating a dict yields its keys, in order |
| CacheFiles.CharStrings | pymino/ext/utilities/session_cache.py:67 | iterating a string yields its characters |
| CacheFiles.FirstWith | pymino/ext/utilities/session_cache.py:65-69 | a hit is a record holding the value under the key |
| CacheFiles.FirstWithSkipped | pymino/ext/utilities/session_cache.py:65-69 | every record the scan passed holds the key with another value |
| CacheFiles.FirstWithOnRecords | pymino/ext/utilities/session_cache.py:95-98 | on records that all hold the key, the scan raises nothing and hits exactly when some record holds the value |
| CacheFiles.FirstWithAfter | pymino/ext/utilities/lite_cache.py:87 | past records that hold the key with other values, the scan resumes further on |
| CacheFiles.ScanRecords | pymino/ext/utilities/lite_cache.py:87 | the generator, one record at a time, computes `FirstWith` |
| SessionCaches.KeepOthersFaultPersists | pymino/ext/utilities/session_cache.py:41 | once a prefix of the records raises, the whole filter raises the same error |
| SessionCaches.KeepOthersOnRecords | pymino/ext/utilities/session_cache.py:41 | on well-formed records the filter raises nothing, keeps exactly the other emails' records and none with the email |
| SessionCaches.KeepOthersSucceeds | pymino/ext/utilities/session_cache.py:41 | on well-formed records the filter raises nothing |
| SessionCaches.KeepOthersMembers | pymino/ext/utilities/session_cache.py:41 | a kept record is exactly a record holding another email |
| SessionCaches.KeepOthersCount | pymino/ext/utilities/session_cache.py:41 | no kept record holds the email |
| SessionCaches.KeepOthersConcat | pymino/ext/utilities/session_cache.py:41 | the filter keeps order: the kept records of `a + b` are those of `a` followed by those of `b` |
| SessionCaches.SessionCache.constructor | pymino/ext/utilities/session_cache.py:6-20 | a missing cache file is created empty; an existing one is unchanged |
| SessionCaches.SessionCache.AlreadyExists | pymino/ext/utilities/session_cache.py:77-103 | the answer and the file are `AlreadyExistsSpec` |
| SessionCaches.SessionCache.Get | pymino/ext/utilities/session_cache.py:51-75 | the answer and the file are `GetSpec` |
| SessionCaches.SessionCache.FilterRecords | pymino/ext/utilities/session_cache.py:41 | the filter computes `KeepOthers` |
| SessionCaches.SessionCache.SaveHelper | pymino/ext/utilities/session_cache.py:29-49 | the result and the file are `SaveHelperSpec` |
| SessionCaches.SessionCache.Save | pymino/ext/utilities/session_cache.py:22-27 | the result and the file are `SaveSpec` |
| SessionCaches.SessionCache.Clear | pymino/ext/utilities/session_cache.py:105-108 | an existing file is emptied; a missing one stays missing |
| SessionCaches.CachedEmailAnswersGet | pymino/ext/utilities/session_cache.py:22-24 | a non-forced save of a cached email writes nothing and answers `get()` |
| SessionCaches.UnreadableIsEmptyList | pymino/ext/utilities/session_cache.py:31-35 | a missing or unreadable file is saved into as an empty list |
| SessionCaches.NewEmailAppends | pymino/ext/utilities/session_cache.py:37-38 | a save of a new email appends its record and keeps every record |
| SessionCaches.ForcedSaveUpserts | pymino/ext/utilities/session_cache.py:40-42 | a forced save keeps exactly the other emails' records, adds the new one, and leaves the email exactly once |
| SessionCaches.RecordLookups | pymino/ext/utilities/session_cache.py:27 | the saved record answers both subscripts, and a scan for its email stops on it |
| SessionCaches.GetAfterForcedSave | pymino/ext/utilities/session_cache.py:59-69 | after a forced save on well-formed records, `get()` returns the sid just saved |
| SessionCaches.AlreadyExistsExactly | pymino/ext/utilities/session_cache.py:89-98 | on well-formed records `already_exists()` holds exactly when some record has the email, and the file is unchanged |
| SessionCaches.CorruptRecordResetsCache | pymino/ext/utilities/session_cache.py:99-101 | a record without `"email"` hit before any match empties the file, so a forced save leaves only the new record |
| SessionCaches.CorruptRecordAfterMatchKeepsCache | pymino/ext/utilities/session_cache.py:43-49 | when the filter raises `KeyError` after a match, the unfiltered records are dumped back and nothing is appended |
| SessionCaches.ClearedCacheIsEmpty | pymino/ext/utilities/session_cache.py:105-108 | after `clear()` no email exists and `get()` finds nothing |
| LiteCaches.CutQuery | pymino/ext/utilities/lite_cache.py:15-16 | with `?` the URL is cut before the first `?`; with `&` alone the last character goes; otherwise it is unchanged |
| LiteCaches.StripSchemes | pymino/ext/utilities/lite_cache.py:24 | removing the schemes never lengthens the text |
| LiteCaches.FileStem | pymino/ext/utilities/lite_cache.py:13-24 | the stem contains no `/` |
| LiteCaches.CacheFileName | pymino/ext/utilities/lite_cache.py:21-25 | the file name is one path component ending in `.json` |
| LiteCaches.QueriesShareFile | pymino/ext/utilities/lite_cache.py:15-16 | URLs differing only in their query string share one cache file |
| LiteCaches.AmpersandDropsLastCharacter | pymino/ext/utilities/lite_cache.py:15-16 | `"a&b"` is cut to `"a&"` |
| LiteCaches.RemoveAllAround | pymino/ext/utilities/lite_cache.py:24 | removing a pattern splits around a character it does not contain |
| LiteCaches.RemoveAllKeepsOut | pymino/ext/utilities/lite_cache.py:24 | removing a pattern introduces no new character |
| LiteCaches.PrepareData | pymino/ext/utilities/lite_cache.py:34-40 | a record exactly for link-resolution URLs, holding the URL and the response |
| LiteCaches.Membership | pymino/ext/utilities/lite_cache.py:66 | `data in load(f)` on a list is list membership; any failure is a `TypeError` |
| LiteCaches.AlreadyExistsSpec | pymino/ext/utilities/lite_cache.py:62-70 | a missing or unreadable file holds nothing |
| LiteCaches.LiteCache.constructor | pymino/ext/utilities/lite_cache.py:7-29 | the file is named after the URL and created empty when missing |
| LiteCaches.LiteCache.AlreadyExists | pymino/ext/utilities/lite_cache.py:62-70 | the answer is `AlreadyExistsSpec` |
| LiteCaches.LiteCache.SaveHelper | pymino/ext/utilities/lite_cache.py:49-60 | the result and the file are `SaveHelperSpec` |
| LiteCaches.LiteCache.Save | pymino/ext/utilities/lite_cache.py:42-47 | the result and the file are `SaveSpec` |
| LiteCaches.LiteCache.Get | pymino/ext/utilities/lite_cache.py:72-91 | the result and the file are `GetSpec` |
| LiteCaches.OtherUrlsUntouched | pymino/ext/utilities/lite_cache.py:37-45 | a URL that is not a link resolution never changes its file and always gets `None` |
| LiteCaches.EagerCheckRaises | pymino/ext/utilities/lite_cache.py:44 | even with nothing to save, `save()` raises `TypeError` on a file holding a JSON string |
| LiteCaches.SaveIdempotent | pymino/ext/utilities/lite_cache.py:42-47 | a second save writes nothing, so records never duplicate |
| LiteCaches.GetAfterSave | pymino/ext/utilities/lite_cache.py:85-87 | a response saved into well-formed records without its URL is what `get()` returns next |
| Strings.FirstToken | pymino/ext/async_event_handler.py:197 | `split(" ")[0]` is a space-free prefix ending at the first space |
| Strings.Find | pymino/ext/utilities/lite_cache.py:16 | `find` is the first index of the character, or -1 exactly when it is absent |
| Strings.RemoveAll | pymino/ext/utilities/lite_cache.py:13 | `replace(pat, "")` never lengthens the text |
| Strings.ReplaceChar | pymino/ext/utilities/lite_cache.py:24 | `replace("/", "_")` replaces exactly the slashes |
| Strings.DecimalValue | pymino/ext/entities/wsevents.py:4-54 | reading back a printed number gives the number |
| Strings.DecimalInjective | pymino/ext/entities/wsevents.py:4-54 | different numbers never print alike |
| Strings.EscapeChar | pymino/ext/entities/exceptions.py:346 | `repr` writes a character as itself exactly when it is plain: not the backslash, the quote or an ASCII control character |
| Strings.StrRepr | pymino/ext/entities/exceptions.py:346 | `repr(s)` starts and ends with the chosen quote |
| Strings.EscapeAllPlain | pymino/ext/entities/exceptions.py:346 | a string of plain characters is written unchanged inside the quotes |
| Strings.EscapeAllConcat | pymino/ext/entities/exceptions.py:346 | escaping distributes over concatenation |
| Strings.PlainStrRepr | pymino/ext/entities/exceptions.py:346 | a string of plain characters without `'` is written between single quotes |
| JsonValues.ReprPair | pymino/ext/entities/exceptions.py:346 | a two-member dict's `repr` is each `key: value` separated by `", "` in braces |

## Left out

- Threads, the websocket lifecycle and the event loop are left out: `start_threads`, `connect`, `_on_ws_close`, `_keep_alive`, `task` and the `async`/`await` scheduling. A queued thread is recorded, not run.
- HTTP, the network, the file system and the clock are left out. The cache directory and `path.join`/`makedirs` are not modelled: each cache object is given its file as a `CacheFile`, and time is the parameter `now`.
- `LiteCache.clear` is left out. It lists and deletes the directory's files, and it is declared without `self`.
- A file is modelled as holding a decoded value, on the assumption that `load` reads back what `dump` wrote. Text that `load` rejects is the single state `Blank`.
- JSON numbers are integers; floats are not modelled. A dict is its member list, looked up by the first member with the key. Two dicts are equal only when their member lists are, whereas Python ignores order.
- `Context`, `AsyncContext` and `Message` objects are represented by the payload they wrap; `send`, `reply` and the rest of their API are not modelled. `pymino/ext/context.py` is not part of this model.
- The `_wait_for` cache's 90-second expiry is not modelled; an entry never expires.
- Printing (`_is_deprecated`'s warning, "Cleared cache.") is not modelled.
- The other `on_*` decorators of the asynchronous handler (lines 280-688) are all the same slot write and are covered by `On`. The wrapper that `on_delete_message` installs is not modelled.
- `pymino/ext/socket.py` calls `self._handle_command`, which neither synchronous `EventHandler` nor `Context` defines; `pymino/ext/context.py` defines only `Context`. The client therefore raises `AttributeError` on a known command (see Findings); `OnMatchedIntended` states the command thread instead, and `SocketClient` keeps the code as written.
- `EventTypes.__dict__` also holds entries such as `__module__` and `__doc__`. Their values never contain a colon, so they are not modelled.
- `pymino/ext/async_socket.py` uses `EventTypes().events` from `pymino.ext.entities`; that table is not modelled, and neither is the asynchronous websocket client.
- `__command_functions__`, `__command_descriptions__`, `__command_cooldowns__` and `fetch_commands` are left out: nothing in the modelled core calls them.
- ExtSocket.SocketClient.OnWsError: a `KeyError` raised inside the error handler is swallowed too; handlers are recorded, not run, so this is not modelled.
- LegacySocket.LegacyClient.OnWsError: a `KeyError` raised inside the error handler is swallowed too; handlers are recorded, not run, so this is not modelled.
- SessionCaches.ForcedSaveUpserts: states membership and the count of the email's records; the order of the kept records is stated separately by `KeepOthersConcat`.
- AsyncEvents.AsyncEventHandler.HandleEvent: states the intended dispatch, with the context built and the single-entry `AddCache`; the code as written raises `TypeError` first (`HandleEventAsWritten`), and its `_add_cache` would empty the whole cache (`AddCacheAsWritten`).
- AsyncEvents.AsyncEventHandler.Command: states the registration with the corrected keywords; as written every application raises `TypeError` (`DecoratorAsWrittenRaises`).
- JsonValues.Repr: every character from U+0080 up is written as itself; Python escapes the non-printable ones among them (`\x85`, `\xa0`, ...), so a message holding such a character differs.
- ExtSocket.SocketClient: `pymino/ext/socket.py` imports `EventHandler` from `.context`, which defines no such name, so the import as written fails; the model gives the client the synchronous `EventHandler` of `pymino/ext/event_handler.py` (its `_commands`, `_events` and `command_prefix`) as its base.
- Python equality between `True` and `1` is modelled where a dict key or an `== 0` test needs it (`TypeKey`, `EqualsInt`). It is not modelled inside the `in` and `==` of the caches.

## Findings

| source | as written | input that shows it | evidently intended | confidence | as-written member | corrected member |
|---|---|---|---|---|---|---|
| pymino/ext/async_event_handler.py:168-176 | the decorator calls `Command(func=…, name=…, description=…, usage=…, …)`, but `Command.__init__` takes `command_name` and `command_description` and has no `usage` | `@bot.command(name="ping")` applied to any function raises `TypeError` on `name` | pass `command_name=name, command_description=description` and register the command | not executed | AsyncEvents.DecoratorAsWrittenRaises | AsyncEvents.CorrectedKeywordsBind |
| pymino/ext/async_event_handler.py:267-277 | `self._wait_for.clear(key)` passes the key as the retry flag of `diskcache`'s `Cache.clear`, which empties the whole cache | texts `"hi"` from user `u1` and `"yes"` from `u2` in chat `c`, then `"again"` from `u1`: `u2`'s entry is gone | replace only the `chatId_userId` entry | not executed | AsyncEvents.AddCacheAsWritten | AsyncEvents.AddCache |
| pymino/ext/async_event_handler.py:705 | `_handle_event` calls `self.context(data, self.loop, self.request)`, and `self.context` is `AsyncContext`, whose `__init__` takes only `message` and `bot`; the `TypeError` passes `suppress(KeyError)` | any event, e.g. a `text_message` with content `"hi"`: nothing is cached and no handler or command runs | build the context as `self.context(data, self)` and dispatch | not executed | AsyncEvents.AsyncEventHandler.HandleEventAsWritten | AsyncEvents.AsyncEventHandler.HandleEvent |
| pymino/ext/socket.py:78 | `self._handle_command(message.json)` is evaluated before the thread is built, and no superclass of the client defines `_handle_command` | a frame from another user with content `"!ping"` and `ping` registered raises `AttributeError` and queues nothing | queue a thread that runs the command | not executed | ExtSocket.KnownCommandRaises | ExtSocket.OnMatchedIntended |
| pymino/ext/utilities/objects.py:320-325 | `Comment._fetch` calls `fetch_key` in its `except` branch but does not return the result | `{"comment": {}, "ndcId": 7}` with key `ndcId` gives `None`; pymino/ext/objects.py:210-214 has the same missing `return` | `return Objects().fetch_key(...)`, as `User._fetch` and `Message._fetch` do | not executed | Objects.CommentFetchAsWritten | Objects.CommentFetch |
