/**
 * The asynchronous event handler: one handler slot per event name, the
 * command registry, and the routing of a text message to the built-in help
 * reply, a command (through the cooldown gate) or the `text_message`
 * handler. Time is an injected integer `now`; handlers are recorded as the
 * `Call` they receive.
 */
module AsyncEvents {
  import opened Wrappers
  import opened Calls
  import opened Commands
  import Strings
  import WsEvents

  /** The fields of an inbound chat message the dispatcher reads. */
  datatype Inbound = Inbound(content: string, chatId: string, userId: string, username: string)

  /** A value bound to a handler parameter. */
  datatype Arg =
    | Ctx(m: Inbound)      // the context built around the message
    | Text(s: string)      // a string: the message text, the username or the user id
    | Data(m: Inbound)     // the raw payload, passed positionally to notification handlers
    | NoneArg              // `None`, for a parameter name the dispatcher does not know

  /** What one dispatch did. */
  datatype Outcome =
    | NoAction
    | HelpReply(text: string)       // `context.reply(__help__())`
    | CooldownReply(text: string)   // the throttled user is told how long to wait
    | Invoked(call: Call<Arg>)      // a handler ran with these arguments
    | ContextTypeError              // building the context raised `TypeError` (`_handle_event` as written)

  /** One step of command handling: its outcome and the cooldown table afterwards. */
  datatype Step = Step(outcome: Outcome, cooldowns: Cooldowns)

  /** The value `_set_parameters` picks for one parameter name. */
  function BindParameter(p: string, m: Inbound, message: string): Arg {
    if p == "ctx" then Ctx(m)
    else if p == "message" then Text(message)
    else if p == "username" then Text(m.username)
    else if p == "userId" then Text(m.userId)
    else NoneArg
  }

  /** `_set_parameters`: one argument per declared parameter, in signature order. */
  function SetParameters(params: seq<string>, m: Inbound, message: string): (args: seq<Arg>)
    ensures |args| == |params|
    ensures forall i :: 0 <= i < |params| ==>
      && (params[i] == "ctx" ==> args[i] == Ctx(m))
      && (params[i] == "message" ==> args[i] == Text(message))
      && (params[i] == "username" ==> args[i] == Text(m.username))
      && (params[i] == "userId" ==> args[i] == Text(m.userId))
      && (params[i] !in {"ctx", "message", "username", "userId"} ==> args[i] == NoneArg)
  {
    seq(|params|, i requires 0 <= i < |params| => BindParameter(params[i], m, message))
  }

  /** The command token: the text after `|prefix|` characters, up to the first space. */
  function CommandToken(prefix: string, content: string): (t: string)
    ensures Strings.Take(content, |prefix|) + t <= content
    ensures ' ' !in t
  {
    Strings.FirstToken(Strings.Drop(content, |prefix|))
  }

  /** `command_exists`: the token is a registered name or a key of the alias map. */
  predicate IsCommand(cmds: seq<Command>, token: string) {
    token in Names(cmds) || token in AliasMap(cmds)
  }

  /** `command_exists` agrees with `fetch_command`: it holds exactly when a lookup succeeds. */
  lemma IsCommandIffLookup(cmds: seq<Command>, token: string)
    ensures IsCommand(cmds, token) <==> Lookup(cmds, token).Some?
  {
    LookupIsFirstMatch(cmds, token);
    AliasMapOwner(cmds, token);
    if IsCommand(cmds, token) && token !in AliasMap(cmds) {
      var i :| 0 <= i < |cmds| && Names(cmds)[i] == token;
      assert Matches(cmds[i], token);
    }
  }

  /** The alias map's `get(token, token)`: an alias resolves to its owner's name. */
  function Canonical(cmds: seq<Command>, token: string): string {
    if token in AliasMap(cmds) then AliasMap(cmds)[token] else token
  }

  /** Resolving a known token always leads to a command, so the handler lookup never misses. */
  lemma {:induction false} CanonicalIsRegistered(cmds: seq<Command>, token: string)
    requires IsCommand(cmds, token)
    ensures Lookup(cmds, Canonical(cmds, token)).Some?
  {
    AliasMapOwner(cmds, token);
    if token in AliasMap(cmds) {
      var owner := LastOwner(cmds, token);
      LookupIsFirstMatch(cmds, cmds[owner].name);
      assert Matches(cmds[owner], cmds[owner].name);
    } else {
      IsCommandIffLookup(cmds, token);
    }
  }

  /** The index of the last command declaring alias `a`. */
  function LastOwner(cmds: seq<Command>, a: string): (i: nat)
    requires exists i :: 0 <= i < |cmds| && a in cmds[i].aliases
    ensures i < |cmds| && a in cmds[i].aliases
    ensures forall j :: i < j < |cmds| ==> a !in cmds[j].aliases
    decreases |cmds|
  {
    if a in cmds[|cmds| - 1].aliases then |cmds| - 1
    else
      var init := cmds[..|cmds| - 1];
      assert exists i :: 0 <= i < |init| && a in init[i].aliases by {
        var i :| 0 <= i < |cmds| && a in cmds[i].aliases;
        assert init[i] == cmds[i];
      }
      LastOwner(init, a)
  }

  /** The result of `_check_cooldown`. */
  datatype GateResult = GateResult(passed: bool, cooldowns: Cooldowns, remaining: int)

  /**
   * `_check_cooldown`: with a positive cooldown and a stored expiry after
   * `now` the call is refused (403) and the expiry is left alone; otherwise it
   * passes (200) and, for a positive cooldown, the expiry becomes
   * `now + cooldown`. A zero or negative cooldown writes nothing.
   */
  function Gate(cd: Cooldowns, name: string, cooldown: int, user: string, now: int): (g: GateResult)
    ensures !g.passed <==> cooldown > 0 && Stored(cd, name, user) > now
    ensures !g.passed ==> g.remaining == Stored(cd, name, user) - now > 0
    ensures !g.passed ==> forall n, u :: Stored(g.cooldowns, n, u) == Stored(cd, n, u)
    ensures g.passed && cooldown > 0 ==> Stored(g.cooldowns, name, user) == now + cooldown
    ensures cooldown > 0 ==> forall n, u :: (n, u) != (name, user) ==> Stored(g.cooldowns, n, u) == Stored(cd, n, u)
    ensures cooldown <= 0 ==> g.cooldowns == cd
  {
    if cooldown > 0 then
      var cd1 := Fetched(cd, name, user);
      FetchedPreservesReadings(cd, name, user);
      var v := Stored(cd, name, user);
      if v > now then GateResult(false, cd1, v - now)
      else GateResult(true, cd1[name := cd1[name][user := now + cooldown]], 0)
    else GateResult(true, cd, 0)
  }

  /** The reply a throttled user gets. */
  function CooldownText(remaining: int): string {
    "You are on cooldown for " + Strings.IntStr(remaining) + " seconds."
  }

  /** `_handle_all_events("text_message", ...)`: the text handler sees the whole content. */
  function TextHandlerCall(h: Handler, m: Inbound): Call<Arg> {
    Call(h, SetParameters(h.params, m, m.content))
  }

  /** `_handle_command` as a function of the state it reads and the cooldown table it leaves. */
  function HandleCommandSpec(prefix: string, cmds: seq<Command>, events: map<string, Handler>,
                             cd: Cooldowns, m: Inbound, now: int): Step
  {
    var token := CommandToken(prefix, m.content);
    if !IsCommand(cmds, token) || prefix != Strings.Take(m.content, |prefix|) then
      if token == "help" && m.content == prefix + "help" then Step(HelpReply(HelpText(cmds)), cd)
      else if "text_message" in events then Step(Invoked(TextHandlerCall(events["text_message"], m)), cd)
      else Step(NoAction, cd)
    else DispatchSpec(prefix, cmds, cd, m, now, token)
  }

  /** The branch of `_handle_command` for a known command: resolve aliases, check the cooldown, run it. */
  function DispatchSpec(prefix: string, cmds: seq<Command>, cd: Cooldowns, m: Inbound, now: int, token: string): Step {
    var message := Strings.Drop(m.content, |prefix| + |token| + 1);
    var name := Canonical(cmds, token);
    match Lookup(cmds, name)
    case None => Step(NoAction, cd)
    case Some(c) =>
      var g := Gate(cd, name, c.cooldown, m.userId, now);
      if g.passed then Step(Invoked(Call(c.func, SetParameters(c.func.params, m, message))), g.cooldowns)
      else Step(CooldownReply(CooldownText(g.remaining)), g.cooldowns)
  }

  /**
   * A message that does not begin with the prefix never reaches a command:
   * it goes to the `text_message` handler if there is one, and the cooldown
   * table is not touched.
   */
  lemma PrefixMismatchNeverRunsCommand(prefix: string, cmds: seq<Command>, events: map<string, Handler>,
                                       cd: Cooldowns, m: Inbound, now: int)
    requires Strings.Take(m.content, |prefix|) != prefix
    ensures HandleCommandSpec(prefix, cmds, events, cd, m, now) ==
      if "text_message" in events then Step(Invoked(TextHandlerCall(events["text_message"], m)), cd)
      else Step(NoAction, cd)
  {
  }

  /**
   * A prefixed, known token runs its command (or is throttled) and never the
   * `text_message` handler. The handler is that of the command the resolved
   * name finds, and the argument is what follows prefix, token and one more
   * character.
   */
  lemma MatchedCommandRuns(prefix: string, cmds: seq<Command>, events: map<string, Handler>,
                           cd: Cooldowns, m: Inbound, now: int)
    requires Strings.Take(m.content, |prefix|) == prefix
    requires IsCommand(cmds, CommandToken(prefix, m.content))
    ensures Lookup(cmds, Canonical(cmds, CommandToken(prefix, m.content))).Some?
    ensures var token := CommandToken(prefix, m.content);
      var c := Lookup(cmds, Canonical(cmds, token));
      var g := Gate(cd, Canonical(cmds, token), c.value.cooldown, m.userId, now);
      HandleCommandSpec(prefix, cmds, events, cd, m, now) ==
         if g.passed
         then Step(Invoked(Call(c.value.func, SetParameters(c.value.func.params, m,
                                Strings.Drop(m.content, |prefix| + |token| + 1)))), g.cooldowns)
         else Step(CooldownReply(CooldownText(g.remaining)), g.cooldowns)
  {
    CanonicalIsRegistered(cmds, CommandToken(prefix, m.content));
  }

  /** An alias resolves to the name of the last command that declares it. */
  lemma AliasResolvesToLastOwner(cmds: seq<Command>, token: string)
    requires token in AliasMap(cmds)
    ensures exists i :: 0 <= i < |cmds| && token in cmds[i].aliases
    ensures Canonical(cmds, token) == cmds[LastOwner(cmds, token)].name
  {
    AliasMapOwner(cmds, token);
  }

  /**
   * With no command for the token, exactly `{prefix}help` gets the built-in
   * help; any other text goes to the `text_message` handler, or nowhere.
   */
  lemma UnknownTokenFallsBack(prefix: string, cmds: seq<Command>, events: map<string, Handler>,
                              cd: Cooldowns, m: Inbound, now: int)
    requires !IsCommand(cmds, CommandToken(prefix, m.content))
    ensures var s := HandleCommandSpec(prefix, cmds, events, cd, m, now);
      && s.cooldowns == cd
      && (m.content == prefix + "help" ==> s.outcome == HelpReply(HelpText(cmds)))
      && (m.content != prefix + "help" && "text_message" in events ==>
            s.outcome == Invoked(TextHandlerCall(events["text_message"], m)))
      && (m.content != prefix + "help" && "text_message" !in events ==> s.outcome == NoAction)
  {
    if m.content == prefix + "help" {
      assert Strings.Drop(m.content, |prefix|) == "help";
      assert Strings.FirstToken("help") == "help" by {
        assert "help"[1..] == "elp";
        assert "elp"[1..] == "lp";
        assert "lp"[1..] == "p";
        assert "p"[1..] == "";
      }
    }
  }

  /**
   * A concrete run of the gate for one user of a command with cooldown 5
   * starting from an empty table: passes at 0, is refused at 3 with 2 seconds
   * left, passes again at 6.
   */
  lemma CooldownFiveSeconds(name: string, user: string)
    ensures var g0 := Gate(map[], name, 5, user, 0);
      var g3 := Gate(g0.cooldowns, name, 5, user, 3);
      var g6 := Gate(g3.cooldowns, name, 5, user, 6);
      g0.passed && !g3.passed && g3.remaining == 2 && g6.passed && Stored(g6.cooldowns, name, user) == 11
  {
    var g0 := Gate(map[], name, 5, user, 0);
    assert Stored(g0.cooldowns, name, user) == 5;
  }

  /** The parameters of `Command.__init__`, in order. */
  const CommandParameters: seq<string> := ["func", "command_name", "command_description", "aliases", "cooldown"]

  /** The keywords the `command` decorator passes to `Command(...)` as written. */
  const DecoratorKeywords: seq<string> := ["func", "name", "description", "usage", "aliases", "cooldown"]

  /** The keywords that bind to `Command.__init__`: the decorator's intent, without `usage`. */
  const CorrectedKeywords: seq<string> := ["func", "command_name", "command_description", "aliases", "cooldown"]

  /**
   * Python's keyword binding for a callee without `**kwargs`: the first
   * keyword that names no parameter makes the call raise `TypeError`.
   */
  function UnexpectedKeyword(kws: seq<string>, params: seq<string>): (r: Option<string>)
    ensures r.None? <==> forall k :: k in kws ==> k in params
    ensures r.Some? ==> r.value in kws && r.value !in params
  {
    if kws == [] then None
    else if kws[0] !in params then Some(kws[0])
    else UnexpectedKeyword(kws[1..], params)
  }

  /** As written, applying the decorator raises `TypeError` on the keyword `name`. */
  lemma DecoratorAsWrittenRaises()
    ensures UnexpectedKeyword(DecoratorKeywords, CommandParameters) == Some("name")
  {
    assert DecoratorKeywords[0] in CommandParameters;
    assert DecoratorKeywords[1..][0] !in CommandParameters;
  }

  /** The corrected keywords all bind, so registration goes through `Command.__init__`. */
  lemma CorrectedKeywordsBind()
    ensures UnexpectedKeyword(CorrectedKeywords, CommandParameters) == None
  {
  }

  /**
   * `_add_cache` as written: `Cache.clear` takes no key (its one argument is a
   * retry flag), so a repeated text from the same chat and user empties the
   * whole cache before the new entry is added.
   */
  function AddCacheAsWritten(w: map<string, string>, key: string, content: string): (r: map<string, string>)
    ensures key in r && r[key] == content
    ensures key in w ==> r.Keys == {key}
    ensures key !in w ==> r.Keys == w.Keys + {key}
  {
    if key in w then map[key := content] else w[key := content]
  }

  /** The waiting text of another user is lost when one user speaks twice. */
  lemma AddCacheAsWrittenForgetsOthers()
    ensures var w := map["c_u1" := "hi", "c_u2" := "yes"];
      "c_u2" !in AddCacheAsWritten(w, "c_u1", "again")
  {
  }

  /** `_add_cache` as intended: replace this chat-and-user entry only. */
  function AddCache(w: map<string, string>, key: string, content: string): (r: map<string, string>)
    ensures key in r && r[key] == content
    ensures r.Keys == w.Keys + {key}
    ensures forall k :: k in w && k != key ==> r[k] == w[k]
  {
    w[key := content]
  }

  /** The `AsyncEventHandler` of one bot. */
  class AsyncEventHandler {
    var prefix: string
    var events: map<string, Handler>
    /** `_wait_for`: the last non-command text per chat and user, key `chatId_userId`. */
    var waitFor: map<string, string>
    const registry: Registry

    constructor (prefix: string)
      ensures this.prefix == prefix && events == map[] && waitFor == map[]
      ensures fresh(registry) && registry.commands == [] && registry.cooldowns == map[]
    {
      this.prefix := prefix;
      events := map[];
      waitFor := map[];
      registry := new Registry();
    }

    /** Every `on_*` decorator: overwrite the single slot of its event, return the function. */
    method On(event: string, func: Handler) returns (r: Handler)
      modifies this
      ensures r == func
      ensures events == old(events)[event := func]
      ensures prefix == old(prefix) && waitFor == old(waitFor)
    {
      events := events[event := func];
      r := func;
    }

    /** `emit`: call the event's handler with `args`, if one is registered. */
    function Emit(name: string, args: seq<Arg>): (r: Option<Call<Arg>>)
      reads this
      ensures r.Some? <==> name in events
      ensures r.Some? ==> r.value == Call(events[name], args)
    {
      if name in events then Some(Call(events[name], args)) else None
    }

    /**
     * `command`: a name is required, either as `name` or as the deprecated
     * `command_name` keyword (which wins); without one, `ValueError` and
     * nothing is registered. The deprecated `command_description` likewise
     * replaces `description`.
     */
    method Command(name: Option<string>, commandNameKw: Option<string>,
                   description: Option<string>, commandDescriptionKw: Option<Option<string>>,
                   aliases: seq<string>, cooldown: int, func: Handler) returns (valueError: bool)
      modifies registry
      ensures valueError <==> commandNameKw.None? && name.None?
      ensures valueError ==> registry.commands == old(registry.commands)
      ensures !valueError ==> registry.commands == old(registry.commands) + [Commands.Command(
        func,
        if commandNameKw.Some? then commandNameKw.value else name.value,
        if commandDescriptionKw.Some? then commandDescriptionKw.value else description,
        aliases, cooldown)]
      ensures registry.cooldowns == old(registry.cooldowns)
    {
      var n: string;
      if commandNameKw.Some? {
        n := commandNameKw.value;
      } else if name.None? {
        return true;
      } else {
        n := name.value;
      }
      var d := description;
      if commandDescriptionKw.Some? {
        d := commandDescriptionKw.value;
      }
      var _ := registry.AddCommand(Commands.Command(func, n, d, aliases, cooldown));
      valueError := false;
    }

    /** `command_exists`. */
    method CommandExists(token: string) returns (b: bool)
      ensures b <==> IsCommand(registry.commands, token)
    {
      var names := registry.CommandNames();
      var aliases := registry.CommandAliases();
      assert names == Names(registry.commands);
      b := token in names || token in aliases;
    }

    /** `_check_cooldown` for a resolved command name; 403 means refused. */
    method CheckCooldown(name: string, m: Inbound, now: int) returns (status: int, reply: string)
      requires Lookup(registry.commands, name).Some?
      modifies registry
      ensures registry.commands == old(registry.commands)
      ensures var g := Gate(old(registry.cooldowns), name, Lookup(registry.commands, name).value.cooldown, m.userId, now);
        && registry.cooldowns == g.cooldowns
        && (status == 403 <==> !g.passed)
        && (status != 403 ==> status == 200)
        && (!g.passed ==> reply == CooldownText(g.remaining))
    {
      FetchedPreservesReadings(registry.cooldowns, name, m.userId);
      var c := registry.FetchCommand(name);
      if c.value.cooldown > 0 {
        var v := registry.FetchCooldown(name, m.userId);
        if v > now {
          var v' := registry.FetchCooldown(name, m.userId);
          return 403, CooldownText(v' - now);
        }
        var c' := registry.FetchCommand(name);
        var _ := registry.SetCooldown(name, c'.value.cooldown, m.userId, now);
      }
      return 200, "";
    }

    /** `_handle_command`. */
    method HandleCommand(m: Inbound, now: int) returns (o: Outcome)
      modifies registry
      ensures registry.commands == old(registry.commands)
      ensures Step(o, registry.cooldowns) ==
        HandleCommandSpec(prefix, registry.commands, events, old(registry.cooldowns), m, now)
    {
      var token := Strings.FirstToken(Strings.Drop(m.content, |prefix|));
      var known := CommandExists(token);
      if !known || prefix != Strings.Take(m.content, |prefix|) {
        if token == "help" && m.content == prefix + "help" {
          var text := registry.Help();
          return HelpReply(text);
        } else if "text_message" in events {
          return Invoked(TextHandlerCall(events["text_message"], m));
        } else {
          return NoAction;
        }
      }
      o := RunCommand(m, now, token);
    }

    /** `_handle_command` once `token` names a command. */
    method RunCommand(m: Inbound, now: int, token: string) returns (o: Outcome)
      requires IsCommand(registry.commands, token)
      modifies registry
      ensures registry.commands == old(registry.commands)
      ensures Step(o, registry.cooldowns) ==
        DispatchSpec(prefix, registry.commands, old(registry.cooldowns), m, now, token)
    {
      var message := Strings.Drop(m.content, |prefix| + |token| + 1);
      var aliases := registry.CommandAliases();
      var name := if token in aliases then aliases[token] else token;
      CanonicalIsRegistered(registry.commands, token);
      var status, reply := CheckCooldown(name, m, now);
      if status != 403 {
        var c := registry.FetchCommand(name);
        return Invoked(Call(c.value.func, SetParameters(c.value.func.params, m, message)));
      }
      return CooldownReply(reply);
    }

    /** Notification events whose handler takes the raw payload. */
    static const RawPayloadEvents: set<string> :=
      {"user_online", "member_set_you_host", "member_set_you_cohost", "member_remove_your_cohost"}

    /**
     * `_handle_event`: a text message caches non-command text for `wait_for`
     * and goes through `_handle_command`; any other registered event calls its
     * handler (raw payload for the four notification events, bound parameters
     * otherwise); an unregistered event does nothing. This is the intended
     * behaviour; `HandleEventAsWritten` is the code as it stands.
     */
    method HandleEvent(event: string, m: Inbound, now: int) returns (o: Outcome)
      modifies this, registry
      ensures prefix == old(prefix) && events == old(events)
      ensures registry.commands == old(registry.commands)
      ensures event == "text_message" ==>
        && Step(o, registry.cooldowns) ==
             HandleCommandSpec(prefix, registry.commands, events, old(registry.cooldowns), m, now)
        && waitFor == if IsCommand(registry.commands, CommandToken(prefix, m.content)) then old(waitFor)
                      else AddCache(old(waitFor), m.chatId + "_" + m.userId, m.content)
      ensures event != "text_message" ==>
        && registry.cooldowns == old(registry.cooldowns)
        && waitFor == old(waitFor)
        && o == if event !in events then NoAction
                else if event in RawPayloadEvents then Invoked(Call(events[event], [Data(m)]))
                else Invoked(Call(events[event], SetParameters(events[event].params, m, m.content)))
    {
      if event == "text_message" {
        var known := CommandExists(Strings.FirstToken(Strings.Drop(m.content, |prefix|)));
        if !known {
          waitFor := AddCache(waitFor, m.chatId + "_" + m.userId, m.content);
        }
        o := HandleCommand(m, now);
        return;
      }
      if event in events {
        if event in RawPayloadEvents {
          return Invoked(Call(events[event], [Data(m)]));
        } else {
          return Invoked(Call(events[event], SetParameters(events[event].params, m, m.content)));
        }
      }
      return NoAction;
    }

    /**
     * `_handle_event` as written: its first statement calls
     * `self.context(data, self.loop, self.request)`, and `self.context` is
     * the class `AsyncContext`, whose `__init__` takes `message` and `bot`
     * only. The call raises `TypeError`, which `suppress(KeyError)` lets
     * through, so whatever the event, nothing is cached, routed or throttled:
     * the method modifies nothing.
     */
    method HandleEventAsWritten(event: string, m: Inbound, now: int) returns (o: Outcome)
      ensures o == ContextTypeError
    {
      // three arguments, `data`, `self.loop` and `self.request`, for the parameters `message` and `bot`
      o := ContextTypeError;
    }
  }

  /**
   * The names `NOTIF_TYPES` gives, `member_set_you_host` (53),
   * `member_set_you_cohost` (67) and `member_remove_your_cohost` (68), are
   * exactly the raw-payload events other than `user_online`.
   */
  lemma NotifEventsTakeRawPayload()
    ensures WsEvents.NotifType(53) == Some("member_set_you_host")
    ensures WsEvents.NotifType(67) == Some("member_set_you_cohost")
    ensures WsEvents.NotifType(68) == Some("member_remove_your_cohost")
    ensures forall t :: WsEvents.NotifType(t).Some? ==> WsEvents.NotifType(t).value in AsyncEventHandler.RawPayloadEvents
    ensures AsyncEventHandler.RawPayloadEvents - {"user_online"} ==
      {WsEvents.NotifType(53).value, WsEvents.NotifType(67).value, WsEvents.NotifType(68).value}
  {
  }
}
