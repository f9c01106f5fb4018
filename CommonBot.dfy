/**
 * The abstract `Bot` of `common/Bot.kt`: its listener list (the command handle first)
 * and `setNameAndCommands`, which pushes the menu of valid commands, reads the bot's
 * name and descriptions back from Telegram (falling back when a read fails) and writes
 * each configured value that differs from what it read.
 */
module CommonBot {
  import opened Wrappers
  import opened Logging
  import opened TelegramApi
  import opened CommandRegistry

  // ---------------------------------------------------------------------------
  // The Telegram side of the sync

  /** The bot's profile as the Telegram API holds it; a write that goes through sets its field. */
  datatype Remote = Remote(name: string, description: string, shortDescription: string)

  /**
   * Which of the three reads of one sync raise. Each read can fail on its own, whatever
   * the profile holds, and the next sync may fail differently.
   */
  datatype ReadFailures = ReadFailures(name: bool, description: bool, shortDescription: bool)

  const NoReadFailures: ReadFailures := ReadFailures(false, false, false)

  /** The three values `setNameAndCommands` compares the configuration against. */
  datatype Seen = Seen(name: string, description: string, shortDescription: string)

  /**
   * The three reads with their `catch` fallbacks: the configured name, the configured
   * description, and, for the short description, again the configured name; a missing
   * configured value falls back to `""`.
   */
  function ReadBack(options: BotCreationOptions, remote: Remote, fails: ReadFailures): Seen {
    Seen(
      if fails.name then options.botName.GetOr("") else remote.name,
      if fails.description then options.botDescription.GetOr("") else remote.description,
      if fails.shortDescription then options.botName.GetOr("") else remote.shortDescription)
  }

  /** The reads, in the order they are made. */
  const Reads: seq<ApiCall> := [GetMyName, GetMyDescription, GetMyShortDescription]

  /** `if (botName != null && botName != name) execute(SetMyName(botName))`. */
  function NameWrite(options: BotCreationOptions, seen: Seen): seq<ApiCall> {
    if options.botName.Some? && options.botName.value != seen.name then [SetMyName(options.botName.value)] else []
  }

  /** `if (botDescription != null && botDescription != description) execute(SetMyDescription(...))`. */
  function DescriptionWrite(options: BotCreationOptions, seen: Seen): seq<ApiCall> {
    if options.botDescription.Some? && options.botDescription.value != seen.description
    then [SetMyDescription(options.botDescription.value)] else []
  }

  /** `if (botShortDescription != null && botShortDescription != shortDescription) execute(...)`. */
  function ShortDescriptionWrite(options: BotCreationOptions, seen: Seen): seq<ApiCall> {
    if options.botShortDescription.Some? && options.botShortDescription.value != seen.shortDescription
    then [SetMyShortDescription(options.botShortDescription.value)] else []
  }

  /** The writes, name first, then description, then short description. */
  function Writes(options: BotCreationOptions, seen: Seen): seq<ApiCall> {
    NameWrite(options, seen) + DescriptionWrite(options, seen) + ShortDescriptionWrite(options, seen)
  }

  /** `if (commandsToSend.isNotEmpty() && autoSetCommands) execute(SetMyCommands(...))`. */
  function MenuCall(menu: seq<BotCommand>, autoSetCommands: bool): seq<ApiCall> {
    if |menu| > 0 && autoSetCommands then [SetMyCommands(menu)] else []
  }

  /** Every call one `setNameAndCommands` makes, in order. */
  function SyncCalls(options: BotCreationOptions, menu: seq<BotCommand>, autoSetCommands: bool, remote: Remote, fails: ReadFailures): seq<ApiCall> {
    MenuCall(menu, autoSetCommands) + Reads + Writes(options, ReadBack(options, remote, fails))
  }

  /** What one call does to the Telegram-side profile: a write sets its field, anything else leaves it. */
  function ApplyOne(remote: Remote, c: ApiCall): Remote {
    match c
    case SetMyName(n) => remote.(name := n)
    case SetMyDescription(d) => remote.(description := d)
    case SetMyShortDescription(s) => remote.(shortDescription := s)
    case _ => remote
  }

  /** The profile after a sequence of calls went through, in order. */
  function Apply(remote: Remote, calls: seq<ApiCall>): Remote
    decreases |calls|
  {
    if calls == [] then remote else Apply(ApplyOne(remote, calls[0]), calls[1..])
  }

  // ---------------------------------------------------------------------------
  // What the sync promises

  /**
   * The name is written exactly when one is configured, its read succeeded and returned
   * something else; a failed read falls back to the configured name, so nothing is
   * written. The write carries the configured name.
   */
  lemma NameWrittenIffDiffers(options: BotCreationOptions, remote: Remote, fails: ReadFailures)
    ensures NameWrite(options, ReadBack(options, remote, fails)) != []
      <==> options.botName.Some? && !fails.name && remote.name != options.botName.value
    ensures NameWrite(options, ReadBack(options, remote, fails)) != [] ==>
      NameWrite(options, ReadBack(options, remote, fails)) == [SetMyName(options.botName.value)]
  {
  }

  /**
   * The description is written exactly when one is configured, its read succeeded and
   * returned something else; the write carries the configured description.
   */
  lemma DescriptionWrittenIffDiffers(options: BotCreationOptions, remote: Remote, fails: ReadFailures)
    ensures DescriptionWrite(options, ReadBack(options, remote, fails)) != []
      <==> options.botDescription.Some? && !fails.description && remote.description != options.botDescription.value
    ensures DescriptionWrite(options, ReadBack(options, remote, fails)) != [] ==>
      DescriptionWrite(options, ReadBack(options, remote, fails)) == [SetMyDescription(options.botDescription.value)]
  {
  }

  /**
   * The short description read falls back to the bot's NAME: when that read fails, the
   * short description is written exactly when it is configured and differs from the
   * configured name (or from `""` without a name). A successful read is compared as is.
   */
  lemma ShortDescriptionComparedWithNameOnFailedRead(options: BotCreationOptions, remote: Remote, fails: ReadFailures)
    ensures fails.shortDescription ==>
      (ShortDescriptionWrite(options, ReadBack(options, remote, fails)) != [] <==>
         options.botShortDescription.Some? && options.botShortDescription.value != options.botName.GetOr(""))
    ensures !fails.shortDescription ==>
      (ShortDescriptionWrite(options, ReadBack(options, remote, fails)) != [] <==>
         options.botShortDescription.Some? && options.botShortDescription.value != remote.shortDescription)
  {
  }

  /**
   * So, unlike the name and the description, a short description whose read fails is
   * written whenever it differs from the configured name, even when the profile already
   * holds it.
   */
  lemma UnreadableShortDescriptionWritten(options: BotCreationOptions, remote: Remote, fails: ReadFailures)
    requires fails.shortDescription
    requires options.botShortDescription.Some? && options.botShortDescription.value != options.botName.GetOr("")
    ensures SetMyShortDescription(options.botShortDescription.value) in Writes(options, ReadBack(options, remote, fails))
  {
    var seen := ReadBack(options, remote, fails);
    assert ShortDescriptionWrite(options, seen) == [SetMyShortDescription(options.botShortDescription.value)];
  }

  /** Every write carries a configured value, in the field it was configured for. */
  lemma WritesCarryConfiguredValues(options: BotCreationOptions, seen: Seen)
    ensures forall c :: c in Writes(options, seen) ==>
      || (c.SetMyName? && options.botName == Some(c.name))
      || (c.SetMyDescription? && options.botDescription == Some(c.description))
      || (c.SetMyShortDescription? && options.botShortDescription == Some(c.shortDescription))
  {
  }

  /**
   * When the profile already holds every configured value, the sync writes nothing,
   * provided the short-description read succeeds or its fallback, the configured name,
   * happens to equal the configured short description.
   */
  lemma InSyncNoWrites(options: BotCreationOptions, remote: Remote, fails: ReadFailures)
    requires options.botName.Some? ==> remote.name == options.botName.value
    requires options.botDescription.Some? ==> remote.description == options.botDescription.value
    requires options.botShortDescription.Some? ==> remote.shortDescription == options.botShortDescription.value
    requires fails.shortDescription && options.botShortDescription.Some? ==>
      options.botShortDescription.value == options.botName.GetOr("")
    ensures Writes(options, ReadBack(options, remote, fails)) == []
  {
  }

  /** Applying a call sequence in two parts is applying the first part, then the second. */
  lemma {:induction false} ApplyAppend(remote: Remote, a: seq<ApiCall>, b: seq<ApiCall>)
    ensures Apply(remote, a + b) == Apply(Apply(remote, a), b)
    decreases |a|
  {
    if a == [] {
      assert a + b == b;
    } else {
      assert (a + b)[0] == a[0] && (a + b)[1..] == a[1..] + b;
      ApplyAppend(ApplyOne(remote, a[0]), a[1..], b);
    }
  }

  /** A call sequence of at most one call applies as that one call. */
  lemma ApplyAtMostOne(remote: Remote, cs: seq<ApiCall>)
    requires |cs| <= 1
    ensures Apply(remote, cs) == if cs == [] then remote else ApplyOne(remote, cs[0])
  {
    if cs != [] {
      assert cs[1..] == [];
    }
  }

  /**
   * The sync is idempotent when its reads tell the truth: once a sync whose reads all
   * succeeded has had its writes go through, a second sync whose short-description read
   * succeeds writes nothing (its name and description reads may fail).
   */
  lemma SyncIdempotent(options: BotCreationOptions, remote: Remote, second: ReadFailures)
    requires !second.shortDescription
    ensures var after := Apply(remote, Writes(options, ReadBack(options, remote, NoReadFailures)));
      Writes(options, ReadBack(options, after, second)) == []
  {
    var seen := ReadBack(options, remote, NoReadFailures);
    var n, d, s := NameWrite(options, seen), DescriptionWrite(options, seen), ShortDescriptionWrite(options, seen);
    ApplyAppend(remote, n + d, s);
    ApplyAppend(remote, n, d);
    ApplyAtMostOne(remote, n);
    ApplyAtMostOne(Apply(remote, n), d);
    ApplyAtMostOne(Apply(remote, n + d), s);
    var after := Apply(remote, n + d + s);
    assert options.botName.Some? ==> after.name == options.botName.value;
    assert options.botDescription.Some? ==> after.description == options.botDescription.value;
    assert options.botShortDescription.Some? ==> after.shortDescription == options.botShortDescription.value;
    InSyncNoWrites(options, after, second);
  }

  /**
   * But it is not idempotent when a read fails. A short-description read that fails on
   * the second sync makes it write the short description again although the profile
   * holds it; a name read that fails on the first sync leaves a stale name that the
   * second sync then writes.
   */
  lemma SyncRepeatsWritesAfterFailedReads()
    ensures var options := BotCreationOptions("t", Some("n"), None, Some("s"), false, false, "bot");
      var remote := Remote("n", "", "s");
      && Writes(options, ReadBack(options, remote, NoReadFailures)) == []
      && Writes(options, ReadBack(options, remote, ReadFailures(false, false, true))) == [SetMyShortDescription("s")]
    ensures var options := BotCreationOptions("t", Some("n"), None, None, false, false, "bot");
      var remote := Remote("old", "", "");
      var first := ReadFailures(true, false, false);
      var after := Apply(remote, Writes(options, ReadBack(options, remote, first)));
      && Writes(options, ReadBack(options, remote, first)) == []
      && after == remote
      && Writes(options, ReadBack(options, after, NoReadFailures)) == [SetMyName("n")]
  {
    var options := BotCreationOptions("t", Some("n"), None, None, false, false, "bot");
    var remote := Remote("old", "", "");
    assert Writes(options, ReadBack(options, remote, ReadFailures(true, false, false))) == [];
  }

  /**
   * The menu is pushed exactly when automatic commands are on and some registered
   * command has a valid name; it holds the valid commands in registration order.
   */
  lemma MenuSentIffSomeValid(cmds: seq<Command>, autoSetCommands: bool)
    ensures MenuCall(ValidMenu(cmds), autoSetCommands) != []
      <==> autoSetCommands && exists c :: c in cmds && IsValidName(c.name)
    ensures MenuCall(ValidMenu(cmds), autoSetCommands) != [] ==>
      MenuCall(ValidMenu(cmds), autoSetCommands) == [SetMyCommands(ValidMenu(cmds))]
  {
    ValidMenuExactlyValid(cmds);
    if |ValidMenu(cmds)| > 0 {
      var b := ValidMenu(cmds)[0];
      assert b in ValidMenu(cmds);
    }
  }

  /** The parameters of `start`, with the defaults the abstract declaration gives them. */
  datatype StartOptions = StartOptions(autoSetCommands: bool, hookStopToShutdown: bool, exitOnError: bool)

  const DefaultStart: StartOptions := StartOptions(true, false, true)

  /**
   * With the defaults, `start` pushes the menu whenever some registered command has a
   * valid name, registers no shutdown hook and exits on error.
   */
  lemma DefaultStartSendsMenuWithoutHook(cmds: seq<Command>)
    ensures MenuCall(ValidMenu(cmds), DefaultStart.autoSetCommands) != [] <==> exists c :: c in cmds && IsValidName(c.name)
    ensures !DefaultStart.hookStopToShutdown && DefaultStart.exitOnError
  {
    MenuSentIffSomeValid(cmds, DefaultStart.autoSetCommands);
  }

  // ---------------------------------------------------------------------------
  // The bot

  class Bot {
    const options: BotCreationOptions
    const logger: Logger
    /** The companion command list the command handle reads. */
    const commands: CommandList
    const commandManager: CommandManager
    var listeners: seq<Listener>
    /** The profile the Telegram API holds for this bot; reads and writes go to it. */
    var remote: Remote
    /** Every outbound call made so far, in order. */
    var calls: seq<ApiCall>
    /** Shutdown hooks registered with the runtime; each would call `stop()`. */
    var shutdownHooks: nat

    /** Listener 0 is the command handle over the shared list; every other one is user code. */
    ghost predicate Valid()
      reads this`listeners
    {
      && |listeners| >= 1
      && listeners[0] == CommandHandle
      && (forall i :: 1 <= i < |listeners| ==> listeners[i].UserListener?)
      && commandManager.list == commands
      && commandManager.handle.list == commands
      && commandManager.logger == logger
    }

    constructor (options: BotCreationOptions, commands: CommandList, remote: Remote)
      ensures Valid()
      ensures this.options == options && this.commands == commands && this.remote == remote
      ensures listeners == [CommandHandle]
      ensures calls == [] && shutdownHooks == 0
      ensures fresh(logger) && logger.lines == []
    {
      this.options := options;
      this.commands := commands;
      var logger := new Logger(options.loggerName);
      this.logger := logger;
      commandManager := new CommandManager(commands, logger);
      listeners := [CommandHandle];
      this.remote := remote;
      calls := [];
      shutdownHooks := 0;
    }

    /** `addListener(vararg listener)`: appends the given listeners in order. */
    method AddListener(ids: seq<nat>)
      requires Valid()
      modifies this`listeners
      ensures Valid()
      ensures |listeners| == |old(listeners)| + |ids|
      ensures listeners[..|old(listeners)|] == old(listeners)
      ensures forall j :: 0 <= j < |ids| ==> listeners[|old(listeners)| + j] == UserListener(ids[j])
    {
      var added := seq(|ids|, j requires 0 <= j < |ids| => UserListener(ids[j]));
      listeners := listeners + added;
      assert listeners[..|old(listeners)|] == old(listeners);
    }

    /** `getListeners()`: a fresh copy, so changing it leaves the bot's list as it was. */
    method GetListeners() returns (copy: array<Listener>)
      ensures fresh(copy) && copy[..] == listeners
    {
      copy := new Listener[|listeners|](i requires 0 <= i < |listeners| reads this => listeners[i]);
    }

    /** One outbound call; a write that goes through updates the profile. */
    method Execute(c: ApiCall)
      modifies this`calls, this`remote
      ensures calls == old(calls) + [c]
      ensures remote == ApplyOne(old(remote), c)
    {
      calls := calls + [c];
      remote := ApplyOne(remote, c);
    }

    /**
     * The three reads of `setNameAndCommands`, each answered by the profile, or, when
     * `fails` says it raises, by its `catch` fallback.
     */
    method ReadProfile(fails: ReadFailures) returns (seen: Seen)
      modifies this`calls, this`remote
      ensures calls == old(calls) + Reads
      ensures remote == old(remote)
      ensures seen == ReadBack(options, old(remote), fails)
    {
      Execute(GetMyName);
      var name := if fails.name then options.botName.GetOr("") else remote.name;
      Execute(GetMyDescription);
      var description := if fails.description then options.botDescription.GetOr("") else remote.description;
      Execute(GetMyShortDescription);
      var shortDescription := if fails.shortDescription then options.botName.GetOr("") else remote.shortDescription;
      seen := Seen(name, description, shortDescription);
    }

    /** The three conditional writes of `setNameAndCommands`, in order. */
    method WriteDifferences(seen: Seen)
      modifies this`calls, this`remote
      ensures calls == old(calls) + Writes(options, seen)
      ensures remote == Apply(old(remote), Writes(options, seen))
    {
      ghost var n, d := NameWrite(options, seen), DescriptionWrite(options, seen);
      ApplyAtMostOne(old(remote), n);
      if options.botName.Some? && options.botName.value != seen.name {
        Execute(SetMyName(options.botName.value));
      }
      assert calls == old(calls) + n && remote == Apply(old(remote), n);
      ghost var r1 := remote;
      ApplyAtMostOne(r1, d);
      if options.botDescription.Some? && options.botDescription.value != seen.description {
        Execute(SetMyDescription(options.botDescription.value));
      }
      ApplyAppend(old(remote), n, d);
      assert calls == old(calls) + (n + d) && remote == Apply(old(remote), n + d);
      ghost var r2 := remote;
      ApplyAtMostOne(r2, ShortDescriptionWrite(options, seen));
      if options.botShortDescription.Some? && options.botShortDescription.value != seen.shortDescription {
        Execute(SetMyShortDescription(options.botShortDescription.value));
      }
      ApplyAppend(old(remote), n + d, ShortDescriptionWrite(options, seen));
    }

    /**
     * `setNameAndCommands(hookStopToShutdown, autoSetCommands)`: the menu when there is
     * one to send and automatic commands are on, the three reads, the writes of what
     * differs, and a shutdown hook when asked for. `fails` says which reads raise.
     */
    method SetNameAndCommands(hookStopToShutdown: bool, autoSetCommands: bool, fails: ReadFailures)
      modifies this`calls, this`remote, this`shutdownHooks
      ensures calls == old(calls) + SyncCalls(options, ValidMenu(commands.commands), autoSetCommands, old(remote), fails)
      ensures remote == Apply(old(remote), Writes(options, ReadBack(options, old(remote), fails)))
      ensures shutdownHooks == old(shutdownHooks) + (if hookStopToShutdown then 1 else 0)
    {
      var menu := CommandsToSend(commands.commands);
      if |menu| > 0 && autoSetCommands {
        Execute(SetMyCommands(menu));
      }
      ghost var menuCalls := MenuCall(menu, autoSetCommands);
      assert calls == old(calls) + menuCalls && remote == old(remote);
      var seen := ReadProfile(fails);
      assert calls == old(calls) + (menuCalls + Reads);
      WriteDifferences(seen);
      assert calls == old(calls) + (menuCalls + Reads + Writes(options, seen));
      if hookStopToShutdown {
        shutdownHooks := shutdownHooks + 1;
      }
    }
  }

  /**
   * Two syncs in a row, the first with every read succeeding: the second makes the menu
   * call and the reads again, but no write, as long as its short-description read succeeds.
   */
  method SecondSyncWritesNothing(bot: Bot, hookStopToShutdown: bool, autoSetCommands: bool, second: ReadFailures)
    requires !second.shortDescription
    modifies bot`calls, bot`remote, bot`shutdownHooks
    ensures var menuAndReads := MenuCall(ValidMenu(bot.commands.commands), autoSetCommands) + Reads;
      bot.calls == old(bot.calls)
        + SyncCalls(bot.options, ValidMenu(bot.commands.commands), autoSetCommands, old(bot.remote), NoReadFailures)
        + menuAndReads
  {
    bot.SetNameAndCommands(hookStopToShutdown, autoSetCommands, NoReadFailures);
    ghost var mid := bot.remote;
    bot.SetNameAndCommands(hookStopToShutdown, autoSetCommands, second);
    SyncIdempotent(bot.options, old(bot.remote), second);
    assert Writes(bot.options, ReadBack(bot.options, mid, second)) == [];
  }
}
