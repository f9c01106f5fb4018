/**
 * The older revision of the command registry (`Commands.kt`): no name validation,
 * commands can be removed again, and a matched command receives the words after
 * its name as arguments.
 */
module LegacyCommandRegistry {
  import opened Wrappers
  import opened Text
  import opened TelegramApi

  type HandlerId = nat

  /** A command; two commands are equal when name and handler lambda are the same. */
  datatype Command = Command(name: string, handler: HandlerId)

  /** A handler call: `handler(CommandHandler(message, args, telegramClient))`. */
  datatype Invocation = Invocation(handler: HandlerId, message: Message, args: seq<string>)

  /** `MutableList.remove(element)`: the list without its first element equal to `c`. */
  function RemoveFirst(cmds: seq<Command>, c: Command): (r: seq<Command>)
    ensures c in cmds ==> |r| == |cmds| - 1
    ensures c !in cmds ==> r == cmds
  {
    if cmds == [] then []
    else if cmds[0] == c then cmds[1..]
    else [cmds[0]] + RemoveFirst(cmds[1..], c)
  }

  /** Removing takes away one copy of `c` when there is one, and nothing else. */
  lemma {:induction false} RemoveFirstRemovesOne(cmds: seq<Command>, c: Command)
    ensures multiset(RemoveFirst(cmds, c)) == multiset(cmds) - multiset{c}
  {
    if cmds != [] {
      assert cmds == [cmds[0]] + cmds[1..];
      if cmds[0] != c {
        RemoveFirstRemovesOne(cmds[1..], c);
      }
    }
  }

  /** Removing cuts out exactly the first occurrence and keeps the rest in order. */
  lemma {:induction false} RemoveFirstAt(cmds: seq<Command>, c: Command, i: nat)
    requires i < |cmds| && cmds[i] == c && c !in cmds[..i]
    ensures RemoveFirst(cmds, c) == cmds[..i] + cmds[i + 1..]
  {
    if i > 0 {
      assert cmds[0] in cmds[..i];
      assert cmds[1..][..i - 1] == cmds[1..i];
      RemoveFirstAt(cmds[1..], c, i - 1);
      assert cmds[..i] == [cmds[0]] + cmds[1..i];
    }
  }

  /** Index of the first command whose `"/" + name` equals `token`. */
  function FindByToken(cmds: seq<Command>, token: string): (r: Option<nat>)
    ensures r.Some? ==> r.value < |cmds| && "/" + cmds[r.value].name == token
    ensures r.Some? ==> forall j :: 0 <= j < r.value ==> "/" + cmds[j].name != token
    ensures r.None? <==> forall j :: 0 <= j < |cmds| ==> "/" + cmds[j].name != token
  {
    if cmds == [] then None
    else if "/" + cmds[0].name == token then Some(0)
    else
      match FindByToken(cmds[1..], token)
      case None => None
      case Some(i) => Some(i + 1)
  }

  /** The arguments a matched command receives: the tokens after the first. */
  function Args(text: string): seq<string>
  {
    Split(text)[1..]
  }

  /** The command token and the arguments, joined by single spaces, give back the text. */
  lemma CommandAndArgsRebuildText(text: string)
    ensures Join([Split(text)[0]] + Args(text)) == text
  {
    assert [Split(text)[0]] + Args(text) == Split(text);
    JoinSplit(text);
  }

  /** Text without a space has no arguments. */
  lemma NoSpaceNoArgs(text: string)
    requires Space !in text
    ensures Args(text) == []
  {
    SplitWithoutSpace(text);
  }

  /** Each space of the text starts one more argument, empty ones included. */
  lemma {:induction false} ArgsCountSpaces(text: string)
    ensures |Args(text)| == multiset(text)[Space]
    decreases |text|
  {
    match IndexOf(text, Space)
    case None =>
    case Some(i) =>
      ArgsCountSpaces(text[i + 1..]);
      assert text == text[..i] + [Space] + text[i + 1..];
      assert multiset(text) == multiset(text[..i]) + multiset{Space} + multiset(text[i + 1..]);
  }

  /**
   * What the handle does with a message: the first command named by the first token runs
   * once, with the remaining tokens as arguments; nothing runs when no command matches.
   */
  function Resolve(cmds: seq<Command>, message: Message): (r: Option<Invocation>)
    requires message.text.Some?
    ensures r.None? <==> forall j :: 0 <= j < |cmds| ==> "/" + cmds[j].name != Split(message.text.value)[0]
    ensures r.Some? ==>
      exists i :: 0 <= i < |cmds|
        && "/" + cmds[i].name == Split(message.text.value)[0]
        && (forall j :: 0 <= j < i ==> "/" + cmds[j].name != Split(message.text.value)[0])
        && r.value == Invocation(cmds[i].handler, message, Args(message.text.value))
  {
    match FindByToken(cmds, Split(message.text.value)[0])
    case None => None
    case Some(i) => Some(Invocation(cmds[i].handler, message, Args(message.text.value)))
  }

  /** The companion `commands` list of this revision. */
  class CommandList {
    var commands: seq<Command>

    constructor ()
      ensures commands == []
    {
      commands := [];
    }
  }

  class Handle {
    const list: CommandList

    constructor (list: CommandList)
      ensures this.list == list
    {
      this.list := list;
    }

    /** `onMessage`: resolves the message against the shared list and runs what `Resolve` names. */
    method OnMessage(message: Message) returns (invoked: Option<Invocation>)
      requires message.text.Some?
      ensures invoked == Resolve(list.commands, message)
    {
      var command := Split(message.text.value);
      match FindByToken(list.commands, command[0])
      case None =>
        invoked := None;
      case Some(i) =>
        invoked := Some(Invocation(list.commands[i].handler, message, command[1..]));
    }
  }

  class CommandManager {
    const list: CommandList
    const handle: Handle

    constructor (list: CommandList)
      ensures this.list == list && fresh(handle) && handle.list == list
    {
      this.list := list;
      handle := new Handle(list);
    }

    /** `addCommand`: appends one command, whatever its name; the list's `add` always answers true. */
    method AddCommand(c: Command) returns (added: bool)
      modifies list
      ensures added
      ensures list.commands == old(list.commands) + [c]
    {
      list.commands := list.commands + [c];
      added := true;
    }

    /** `removeCommand`: removes the first equal command, if any, and says whether one was removed. */
    method RemoveCommand(c: Command) returns (removed: bool)
      modifies list
      ensures removed <==> c in old(list.commands)
      ensures list.commands == RemoveFirst(old(list.commands), c)
    {
      removed := c in list.commands;
      list.commands := RemoveFirst(list.commands, c);
    }
  }
}
