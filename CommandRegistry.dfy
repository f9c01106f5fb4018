/**
 * The command registry of `CommandManager.kt`: one process-wide ordered list of
 * commands (the `Handle` companion list), name validation by the pattern
 * `[a-z0-9_]+`, diagnostics for invalid names, the command menu built from the
 * valid names, and the lookup the command handle performs on a message.
 */
module CommandRegistry {
  import opened Wrappers
  import opened Text
  import opened Logging
  import opened TelegramApi

  /** Identity of a command's handler lambda. */
  type HandlerId = nat

  datatype Command = Command(name: string, description: string, handler: HandlerId)

  /** A handler call: `handler(CommandHandler(message, telegramClient))`. */
  datatype Invocation = Invocation(handler: HandlerId, message: Message)

  /** The character class `[a-z0-9_]`. */
  predicate InNameClass(c: char) {
    'a' <= c <= 'z' || '0' <= c <= '9' || c == '_'
  }

  /** A valid command name: non-empty, made only of lowercase letters, digits and underscores. */
  predicate IsValidName(name: string) {
    |name| > 0 && forall i :: 0 <= i < |name| ==> InNameClass(name[i])
  }

  /** `[a-z0-9_]*` matched against the whole of `s`, one character at a time. */
  function MatchesClassStar(s: string): (r: bool)
    ensures r <==> forall i :: 0 <= i < |s| ==> InNameClass(s[i])
    decreases |s|
  {
    |s| == 0 || (InNameClass(s[0]) && MatchesClassStar(s[1..]))
  }

  /** `commandRegex.matchEntire(name) != null` for `commandRegex = Regex("[a-z0-9_]+")`. */
  function MatchesNameRegex(name: string): (r: bool)
    ensures r <==> IsValidName(name)
  {
    |name| > 0 && InNameClass(name[0]) && MatchesClassStar(name[1..])
  }

  /** A valid name never contains the space the lookup splits on. */
  lemma ValidNameHasNoSpace(name: string)
    requires IsValidName(name)
    ensures Space !in name
  {
  }

  /** The menu entries sent to Telegram: the commands whose name is valid, in registration order. */
  function ValidMenu(cmds: seq<Command>): seq<BotCommand>
  {
    if cmds == [] then []
    else
      var last := cmds[|cmds| - 1];
      ValidMenu(cmds[..|cmds| - 1])
      + (if MatchesNameRegex(last.name) then [BotCommand(last.name, last.description)] else [])
  }

  const InvalidNameReason: string :=
    " has an invalid name! "
    + "Command's name should contain only lowercase english letters, digits and underscores. "
  const InvalidNameConsequence: string :=
    " will not be registered as a valid command in Telegram command list."

  /** The error logged for a command whose name is invalid. */
  function InvalidNameMessage(name: string): string {
    name + InvalidNameReason + name + InvalidNameConsequence
  }

  /** The error lines `addCommand` logs: one per command with an invalid name, in order. */
  function Diagnostics(cmds: seq<Command>): seq<LogLine>
  {
    if cmds == [] then []
    else
      var last := cmds[|cmds| - 1];
      Diagnostics(cmds[..|cmds| - 1])
      + (if MatchesNameRegex(last.name) then [] else [ErrorLine(InvalidNameMessage(last.name))])
  }

  /** Every menu entry comes from a registered command with a valid name, and every such command has its entry. */
  lemma {:induction false} ValidMenuExactlyValid(cmds: seq<Command>)
    ensures forall b :: b in ValidMenu(cmds) ==>
      IsValidName(b.name) && exists c :: c in cmds && b == BotCommand(c.name, c.description)
    ensures forall c :: c in cmds && IsValidName(c.name) ==> BotCommand(c.name, c.description) in ValidMenu(cmds)
  {
    if cmds != [] {
      var init := cmds[..|cmds| - 1];
      ValidMenuExactlyValid(init);
      assert cmds == init + [cmds[|cmds| - 1]];
      forall c | c in cmds && IsValidName(c.name)
        ensures BotCommand(c.name, c.description) in ValidMenu(cmds)
      {
        if c != cmds[|cmds| - 1] {
          assert c in init;
        }
      }
    }
  }

  /** The menu of a concatenation is the concatenation of the menus: registration order is kept. */
  lemma {:induction false} ValidMenuAppend(a: seq<Command>, b: seq<Command>)
    ensures ValidMenu(a + b) == ValidMenu(a) + ValidMenu(b)
    decreases |b|
  {
    if b == [] {
      assert a + b == a;
    } else {
      var initB := b[..|b| - 1];
      assert (a + b)[..|a + b| - 1] == a + initB;
      ValidMenuAppend(a, initB);
    }
  }

  /** Each added command is either in the menu or diagnosed, never both. */
  lemma {:induction false} MenuAndDiagnosticsPartition(cmds: seq<Command>)
    ensures |ValidMenu(cmds)| + |Diagnostics(cmds)| == |cmds|
  {
    if cmds != [] {
      MenuAndDiagnosticsPartition(cmds[..|cmds| - 1]);
    }
  }

  /** No diagnostic is logged exactly when every added name is valid. */
  lemma {:induction false} NoDiagnosticsIffAllValid(cmds: seq<Command>)
    ensures Diagnostics(cmds) == [] <==> forall i :: 0 <= i < |cmds| ==> IsValidName(cmds[i].name)
  {
    if cmds != [] {
      var init := cmds[..|cmds| - 1];
      var last := cmds[|cmds| - 1];
      NoDiagnosticsIffAllValid(init);
      assert Diagnostics(cmds) == Diagnostics(init) + (if MatchesNameRegex(last.name) then [] else [ErrorLine(InvalidNameMessage(last.name))]);
      assert forall i :: 0 <= i < |init| ==> init[i] == cmds[i];
    }
  }

  /** Each diagnostic names an invalid command, and each invalid command is diagnosed. */
  lemma {:induction false} DiagnosticsExactlyInvalid(cmds: seq<Command>)
    ensures forall l :: l in Diagnostics(cmds) ==>
      exists c :: c in cmds && !IsValidName(c.name) && l == ErrorLine(InvalidNameMessage(c.name))
    ensures forall c :: c in cmds && !IsValidName(c.name) ==> ErrorLine(InvalidNameMessage(c.name)) in Diagnostics(cmds)
  {
    if cmds != [] {
      var init := cmds[..|cmds| - 1];
      DiagnosticsExactlyInvalid(init);
      assert cmds == init + [cmds[|cmds| - 1]];
      forall c | c in cmds && !IsValidName(c.name)
        ensures ErrorLine(InvalidNameMessage(c.name)) in Diagnostics(cmds)
      {
        if c != cmds[|cmds| - 1] {
          assert c in init;
        }
      }
    }
  }

  /** The loop that builds `commandsToSend` on start. */
  method CommandsToSend(cmds: seq<Command>) returns (menu: seq<BotCommand>)
    ensures menu == ValidMenu(cmds)
  {
    menu := [];
    for i := 0 to |cmds|
      invariant menu == ValidMenu(cmds[..i])
    {
      assert cmds[..i + 1][..i] == cmds[..i];
      if MatchesNameRegex(cmds[i].name) {
        menu := menu + [BotCommand(cmds[i].name, cmds[i].description)];
      }
    }
    assert cmds[..|cmds|] == cmds;
  }

  /** Index of the first command whose `"/" + name` equals `token`. */
  function FindByToken(cmds: seq<Command>, token: string): (r: Option<nat>)
    ensures r.Some? ==> r.value < |cmds| && "/" + cmds[r.value].name == token
    ensures r.Some? ==> forall j :: 0 <= j < r.value ==> "/" + cmds[j].name != token
    ensures r.None? <==> forall j :: 0 <= j < |cmds| ==> "/" + cmds[j].name != token
  {
    if cmds == [] then None
    else if "/" + cmds[0].name == token then Some(0)
    else
      match FindByToken(cmds[1..], token)
      case None => None
      case Some(i) => Some(i + 1)
  }

  /** The handle's lookup: the first token of `text.split(" ")` against the registered commands. */
  function Lookup(cmds: seq<Command>, text: string): Option<nat>
  {
    FindByToken(cmds, Split(text)[0])
  }

  /**
   * A registered command whose name has no space is found by `"/" + name`, alone or
   * followed by arguments; when the name is registered twice, the earliest wins.
   * Valid names have no space (ValidNameHasNoSpace), and neither do many invalid ones.
   */
  lemma LookupFindsRegistered(cmds: seq<Command>, k: nat, rest: string)
    requires k < |cmds| && Space !in cmds[k].name
    requires rest == [] || rest[0] == Space
    ensures var r := Lookup(cmds, "/" + cmds[k].name + rest);
      r.Some? && r.value <= k && cmds[r.value].name == cmds[k].name
  {
    var name := cmds[k].name;
    assert Space !in "/" + name;
    FirstTokenOfPrefixed("/" + name, rest);
    var r := Lookup(cmds, "/" + name + rest);
    assert "/" + cmds[r.value].name == "/" + name;
    assert cmds[r.value].name == ("/" + cmds[r.value].name)[1..];
  }

  /** A command whose name contains a space can never be reached by the lookup. */
  lemma NameWithSpaceNeverMatches(cmds: seq<Command>, text: string, k: nat)
    requires k < |cmds| && Space in cmds[k].name
    ensures Lookup(cmds, text) != Some(k)
  {
    SplitTokensHaveNoSpace(text);
    var t := Split(text)[0];
    assert t in Split(text);
  }

  /** What the handle does with a message: run the handler its lookup finds, with the message. */
  function Resolve(cmds: seq<Command>, message: Message): Option<Invocation>
    requires message.text.Some?
  {
    match Lookup(cmds, message.text.value)
    case None => None
    case Some(i) => Some(Invocation(cmds[i].handler, message))
  }

  /**
   * The handler of the first command named by the message's first token runs, with a
   * context holding the message; when no command matches, nothing runs.
   */
  lemma ResolveRunsFirstMatch(cmds: seq<Command>, message: Message)
    requires message.text.Some?
    ensures var r := Resolve(cmds, message);
      var token := Split(message.text.value)[0];
      && (r.None? <==> forall j :: 0 <= j < |cmds| ==> "/" + cmds[j].name != token)
      && (r.Some? ==>
        exists i :: 0 <= i < |cmds|
          && "/" + cmds[i].name == token
          && (forall j :: 0 <= j < i ==> "/" + cmds[j].name != token)
          && r.value == Invocation(cmds[i].handler, message))
  {
  }

  /** The companion `commands` list, shared by every manager and every handle. */
  class CommandList {
    var commands: seq<Command>

    constructor ()
      ensures commands == []
    {
      commands := [];
    }
  }

  /** `CommandManager.Handle`: listener 0 of every bot, resolving commands on messages. */
  class Handle {
    const list: CommandList

    constructor (list: CommandList)
      ensures this.list == list
    {
      this.list := list;
    }

    /** `onMessage`: resolves the message against the shared list and runs what `Resolve` names. */
    method OnMessage(message: Message) returns (invoked: Option<Invocation>)
      requires message.text.Some?
      ensures invoked == Resolve(list.commands, message)
    {
      var command := Split(message.text.value);
      match FindByToken(list.commands, command[0])
      case None =>
        invoked := None;
      case Some(i) =>
        invoked := Some(Invocation(list.commands[i].handler, message));
    }
  }

  /** `CommandManager`: adds commands to the shared list and reports invalid names on the bot's logger. */
  class CommandManager {
    const list: CommandList
    const handle: Handle
    const logger: Logger

    constructor (list: CommandList, logger: Logger)
      ensures this.list == list && this.logger == logger
      ensures fresh(handle) && handle.list == list
    {
      this.list := list;
      this.logger := logger;
      handle := new Handle(list);
    }

    /**
     * `addCommand(vararg commands)`: appends all of them, valid or not, then logs one
     * error per command with an invalid name.
     */
    method AddCommand(cmds: seq<Command>)
      modifies list, logger
      ensures list.commands == old(list.commands) + cmds
      ensures logger.lines == old(logger.lines) + Diagnostics(cmds)
    {
      list.commands := list.commands + cmds;
      for i := 0 to |cmds|
        invariant list.commands == old(list.commands) + cmds
        invariant logger.lines == old(logger.lines) + Diagnostics(cmds[..i])
      {
        assert cmds[..i + 1][..i] == cmds[..i];
        assert Diagnostics(cmds[..i + 1]) == Diagnostics(cmds[..i])
          + (if MatchesNameRegex(cmds[i].name) then [] else [ErrorLine(InvalidNameMessage(cmds[i].name))]);
        if !MatchesNameRegex(cmds[i].name) {
          logger.Error(InvalidNameMessage(cmds[i].name));
        }
      }
      assert cmds[..|cmds|] == cmds;
    }
  }

  /**
   * The list is one companion object: commands added through one manager, valid names or
   * not, are resolved by the handle of any other manager built over the same list.
   */
  method SharedAcrossManagers(list: CommandList, logger: Logger, cmds: seq<Command>, message: Message)
    returns (invoked: Option<Invocation>)
    requires message.text.Some?
    modifies list, logger
    ensures list.commands == old(list.commands) + cmds
    ensures invoked == Resolve(old(list.commands) + cmds, message)
  {
    var first := new CommandManager(list, logger);
    var second := new CommandManager(list, logger);
    first.AddCommand(cmds);
    invoked := second.handle.OnMessage(message);
  }
}
