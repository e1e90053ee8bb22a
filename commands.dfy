/**
 * The command registry of the asynchronous bot: an append-only list of
 * `Command` records and a per-command, per-user table of cooldown expiry
 * times that is filled lazily with zeros.
 */
module Commands {
  import opened Wrappers
  import opened Calls

  /** A registered command; `description` is `None` when none was given. */
  datatype Command = Command(
    func: Handler,
    name: string,
    description: Option<string>,
    aliases: seq<string>,
    cooldown: int)

  /** Expiry times: command name -> user id -> time before which the user is throttled. */
  type Cooldowns = map<string, map<string, int>>

  /** The test `fetch_command` applies to each command in turn. */
  predicate Matches(c: Command, token: string) {
    c.name == token || token in c.aliases
  }

  /** `fetch_command`: the earliest command matching `token` by name or alias. */
  function Lookup(cmds: seq<Command>, token: string): Option<Command>
    decreases |cmds|
  {
    if cmds == [] then None
    else if Matches(cmds[0], token) then Some(cmds[0])
    else Lookup(cmds[1..], token)
  }

  /** `Lookup` finds a command exactly when one matches, and then the first one. */
  lemma {:induction false} LookupIsFirstMatch(cmds: seq<Command>, token: string)
    ensures Lookup(cmds, token).None? <==> forall i :: 0 <= i < |cmds| ==> !Matches(cmds[i], token)
    ensures Lookup(cmds, token).Some? ==>
      exists i :: 0 <= i < |cmds| && cmds[i] == Lookup(cmds, token).value && Matches(cmds[i], token) &&
        forall j :: 0 <= j < i ==> !Matches(cmds[j], token)
    decreases |cmds|
  {
    if cmds != [] && !Matches(cmds[0], token) {
      LookupIsFirstMatch(cmds[1..], token);
      assert forall i :: 1 <= i < |cmds| ==> cmds[1..][i - 1] == cmds[i];
      if Lookup(cmds, token).Some? {
        var k :| 0 <= k < |cmds| - 1 && cmds[1..][k] == Lookup(cmds, token).value && Matches(cmds[1..][k], token) &&
          forall j :: 0 <= j < k ==> !Matches(cmds[1..][j], token);
        assert cmds[k + 1] == Lookup(cmds, token).value;
      }
    } else if cmds != [] {
      assert cmds[0] == Lookup(cmds, token).value;
    }
  }

  /**
   * Registering one more command never changes what an earlier match returns:
   * with no uniqueness check, a duplicate name or alias stays shadowed.
   */
  lemma {:induction false} LookupAfterAppend(cmds: seq<Command>, c: Command, token: string)
    ensures Lookup(cmds + [c], token) ==
      if Lookup(cmds, token).Some? then Lookup(cmds, token)
      else if Matches(c, token) then Some(c) else None
    decreases |cmds|
  {
    if cmds == [] {
      assert cmds + [c] == [c];
    } else {
      assert (cmds + [c])[1..] == cmds[1..] + [c];
      LookupAfterAppend(cmds[1..], c, token);
    }
  }

  /** `__command_names__`: the names in registration order. */
  function Names(cmds: seq<Command>): (names: seq<string>)
    ensures |names| == |cmds|
    ensures forall i :: 0 <= i < |cmds| ==> names[i] == cmds[i].name
  {
    seq(|cmds|, i requires 0 <= i < |cmds| => cmds[i].name)
  }

  /** The entries one command's inner loop writes into the alias map. */
  function AliasesOf(c: Command): map<string, string> {
    map a | a in c.aliases :: c.name
  }

  /** `__command_aliases__`: the map the loop over all commands builds, later ones overwriting. */
  function AliasMap(cmds: seq<Command>): map<string, string>
    decreases |cmds|
  {
    if cmds == [] then map[]
    else AliasMap(cmds[..|cmds| - 1]) + AliasesOf(cmds[|cmds| - 1])
  }

  /**
   * Every alias of every command is a key, nothing else is, and a key maps to
   * the name of the LAST command that declares it.
   */
  lemma {:induction false} AliasMapOwner(cmds: seq<Command>, a: string)
    ensures a in AliasMap(cmds) <==> exists i :: 0 <= i < |cmds| && a in cmds[i].aliases
    ensures forall i ::
      (0 <= i < |cmds| && a in cmds[i].aliases && forall j :: i < j < |cmds| ==> a !in cmds[j].aliases) ==>
        a in AliasMap(cmds) && AliasMap(cmds)[a] == cmds[i].name
    decreases |cmds|
  {
    if cmds != [] {
      var init := cmds[..|cmds| - 1];
      AliasMapOwner(init, a);
      assert forall i :: 0 <= i < |init| ==> init[i] == cmds[i];
    }
  }

  /** What `fetch_cooldown` returns: the stored expiry, or 0 for a pair never seen. */
  function Stored(cd: Cooldowns, name: string, user: string): int {
    if name in cd && user in cd[name] then cd[name][user] else 0
  }

  /** The table after `fetch_cooldown`, which creates missing levels with 0. */
  function Fetched(cd: Cooldowns, name: string, user: string): Cooldowns {
    var inner := if name in cd then cd[name] else map[];
    cd[name := if user in inner then inner else inner[user := 0]]
  }

  /**
   * Lazy zero-initialisation is invisible to readers: after `fetch_cooldown`
   * the pair has an entry, every reading is what it was, and every other
   * command's table is untouched.
   */
  lemma FetchedPreservesReadings(cd: Cooldowns, name: string, user: string)
    ensures name in Fetched(cd, name, user) && user in Fetched(cd, name, user)[name]
    ensures forall n, u :: Stored(Fetched(cd, name, user), n, u) == Stored(cd, n, u)
    ensures forall n :: n != name && n in cd ==> n in Fetched(cd, name, user) && Fetched(cd, name, user)[n] == cd[n]
    ensures Fetched(cd, name, user).Keys == cd.Keys + {name}
  {
  }

  /** `description` as an f-string renders it: a missing one prints as "None". */
  function DescriptionText(d: Option<string>): string {
    match d
    case Some(s) => s
    case None => "None"
  }

  const HelpHeader: string :=
    "[bcu]Commands\n" + "\n[ic]This is a list of all the commands available on this bot.\n"

  const HelpFooter: string :=
    "\n\n[ic]This message was generated automatically. If you have any questions, please contact the bot owner."

  /** The lines `__help__` writes for one command. */
  function HelpEntry(c: Command): string {
    "\n[uc]" + c.name + "\n[ic]" + DescriptionText(c.description)
  }

  /** The pieces of a text, joined in order. */
  function Flatten(parts: seq<string>): string
    decreases |parts|
  {
    if parts == [] then "" else Flatten(parts[..|parts| - 1]) + parts[|parts| - 1]
  }

  /** Joining two runs of pieces is joining each, in order. */
  lemma {:induction false} FlattenConcat(a: seq<string>, b: seq<string>)
    ensures Flatten(a + b) == Flatten(a) + Flatten(b)
    decreases |b|
  {
    if b == [] {
      assert a + b == a;
    } else {
      var front := b[..|b| - 1];
      var ab := a + b;
      assert ab[..|ab| - 1] == a + front;
      assert ab[|ab| - 1] == b[|b| - 1];
      FlattenConcat(a, front);
    }
  }

  /** The entry of each command, in registration order. */
  function EntryTexts(cmds: seq<Command>): (r: seq<string>)
    ensures |r| == |cmds|
    ensures forall i :: 0 <= i < |cmds| ==> r[i] == HelpEntry(cmds[i])
  {
    seq(|cmds|, i requires 0 <= i < |cmds| => HelpEntry(cmds[i]))
  }

  /** The entries of all commands, in registration order. */
  function HelpEntries(cmds: seq<Command>): string {
    Flatten(EntryTexts(cmds))
  }

  /** `__help__`: header, one entry per command, footer. */
  function HelpText(cmds: seq<Command>): string {
    HelpHeader + HelpEntries(cmds) + HelpFooter
  }

  /** One more command adds its entry at the end. */
  lemma HelpEntriesSnoc(cmds: seq<Command>, c: Command)
    ensures HelpEntries(cmds + [c]) == HelpEntries(cmds) + HelpEntry(c)
  {
    var parts := EntryTexts(cmds + [c]);
    assert parts[..|parts| - 1] == EntryTexts(cmds);
  }

  /**
   * The help text starts with the header, ends with the footer, and lists
   * command `i` after the entries of all earlier commands and before those of
   * all later ones.
   */
  lemma HelpListsInOrder(cmds: seq<Command>, i: nat)
    requires i < |cmds|
    ensures HelpEntries(cmds) == HelpEntries(cmds[..i]) + HelpEntry(cmds[i]) + HelpEntries(cmds[i + 1..])
    ensures HelpText(cmds) ==
      HelpHeader + (HelpEntries(cmds[..i]) + HelpEntry(cmds[i]) + HelpEntries(cmds[i + 1..])) + HelpFooter
  {
    var before := EntryTexts(cmds[..i]);
    var after := EntryTexts(cmds[i + 1..]);
    assert EntryTexts(cmds) == before + [HelpEntry(cmds[i])] + after;
    FlattenConcat(before + [HelpEntry(cmds[i])], after);
    assert (before + [HelpEntry(cmds[i])])[..|before|] == before;
  }

  /** The entries the inner loop has written after `j` aliases. */
  function AliasesUpTo(c: Command, j: nat): map<string, string>
    requires j <= |c.aliases|
  {
    map a | a in c.aliases[..j] :: c.name
  }

  /** One more alias written: its entry now maps to the command's name. */
  lemma AliasesUpToStep(m0: map<string, string>, c: Command, j: nat)
    requires j < |c.aliases|
    ensures (m0 + AliasesUpTo(c, j))[c.aliases[j] := c.name] == m0 + AliasesUpTo(c, j + 1)
  {
    assert c.aliases[..j + 1] == c.aliases[..j] + [c.aliases[j]];
  }

  /** The `Commands` object of one bot. */
  class Registry {
    var commands: seq<Command>
    var cooldowns: Cooldowns

    constructor ()
      ensures commands == [] && cooldowns == map[]
    {
      commands := [];
      cooldowns := map[];
    }

    /** `add_command`: append at the end and hand the command back. */
    method AddCommand(c: Command) returns (r: Command)
      modifies this
      ensures r == c
      ensures commands == old(commands) + [c]
      ensures cooldowns == old(cooldowns)
    {
      commands := commands + [c];
      r := c;
    }

    /** `fetch_command`: the first command whose name is `token` or whose aliases hold it. */
    method FetchCommand(token: string) returns (r: Option<Command>)
      ensures r == Lookup(commands, token)
    {
      var i := 0;
      while i < |commands|
        invariant 0 <= i <= |commands|
        invariant Lookup(commands[i..], token) == Lookup(commands, token)
      {
        assert commands[i..][1..] == commands[i + 1..];
        if Matches(commands[i], token) {
          return Some(commands[i]);
        }
        i := i + 1;
      }
      return None;
    }

    /** `__command_names__`. */
    method CommandNames() returns (names: seq<string>)
      ensures |names| == |commands|
      ensures forall i :: 0 <= i < |commands| ==> names[i] == commands[i].name
    {
      names := [];
      var i := 0;
      while i < |commands|
        invariant 0 <= i <= |commands|
        invariant |names| == i
        invariant forall k :: 0 <= k < i ==> names[k] == commands[k].name
      {
        names := names + [commands[i].name];
        i := i + 1;
      }
    }

    /** `__command_aliases__`. */
    method CommandAliases() returns (m: map<string, string>)
      ensures m == AliasMap(commands)
    {
      m := map[];
      var i := 0;
      while i < |commands|
        invariant 0 <= i <= |commands|
        invariant m == AliasMap(commands[..i])
      {
        m := WriteAliases(m, commands[i]);
        assert commands[..i + 1][..i] == commands[..i];
        i := i + 1;
      }
      assert commands[..i] == commands;
    }

    /** The inner loop of `__command_aliases__`: every alias of `c` now maps to its name. */
    static method WriteAliases(m0: map<string, string>, c: Command) returns (m: map<string, string>)
      ensures m == m0 + AliasesOf(c)
    {
      m := m0;
      var j := 0;
      while j < |c.aliases|
        invariant 0 <= j <= |c.aliases|
        invariant m == m0 + AliasesUpTo(c, j)
      {
        AliasesUpToStep(m0, c, j);
        m := m[c.aliases[j] := c.name];
        j := j + 1;
      }
      assert c.aliases[..j] == c.aliases;
    }

  /**
     * `set_cooldown`: store `now + cooldown` for the pair. The command's inner
     * table must already exist; otherwise Python raises `KeyError`, reported
     * here as `ok == false` with nothing changed.
     */
    method SetCooldown(name: string, cooldown: int, user: string, now: int) returns (ok: bool)
      modifies this
      ensures ok <==> name in old(cooldowns)
      ensures ok ==> cooldowns == old(cooldowns)[name := old(cooldowns)[name][user := now + cooldown]]
      ensures !ok ==> cooldowns == old(cooldowns)
      ensures commands == old(commands)
    {
      if name in cooldowns {
        cooldowns := cooldowns[name := cooldowns[name][user := now + cooldown]];
        ok := true;
      } else {
        ok := false;
      }
    }

    /** `fetch_cooldown`: create missing entries with 0, then return the stored value. */
    method FetchCooldown(name: string, user: string) returns (v: int)
      modifies this
      ensures cooldowns == Fetched(old(cooldowns), name, user)
      ensures v == Stored(old(cooldowns), name, user)
      ensures commands == old(commands)
    {
      if name !in cooldowns {
        cooldowns := cooldowns[name := map[]];
      }
      if user !in cooldowns[name] {
        cooldowns := cooldowns[name := cooldowns[name][user := 0]];
      }
      v := cooldowns[name][user];
    }

    /** `__help__`. */
    method Help() returns (text: string)
      ensures text == HelpText(commands)
    {
      text := "[bcu]Commands\n";
      text := text + "\n[ic]This is a list of all the commands available on this bot.\n";
      var entries := WriteEntries(commands);
      text := text + entries;
      text := text + "\n\n[ic]This message was generated automatically. If you have any questions, please contact the bot owner.";
    }

    /** The loop of `__help__`: one entry per command, in registration order. */
    static method WriteEntries(cmds: seq<Command>) returns (text: string)
      ensures text == HelpEntries(cmds)
    {
      text := "";
      var i := 0;
      while i < |cmds|
        invariant 0 <= i <= |cmds|
        invariant text == HelpEntries(cmds[..i])
      {
        assert cmds[..i + 1] == cmds[..i] + [cmds[i]];
        HelpEntriesSnoc(cmds[..i], cmds[i]);
        text := text + "\n[uc]" + cmds[i].name + "\n[ic]" + DescriptionText(cmds[i].description);
        i := i + 1;
      }
      assert cmds[..i] == cmds;
    }
  }
}
