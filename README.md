# tgbotter core, modelled in Dafny

This project models the core of the `tgbotter` Telegram bot library and its
companion `configurator`, and proves properties of that model.

- **Update router** (`LongPolling`, after `LongPollingBot.kt`). The bot keeps a list
  of listeners, and the command handle always comes first. `start` registers the bot,
  pushes the menu of valid commands, sends each configured name and description, and
  starts the session. `stop` stops the session, deletes the menu and unregisters the
  token. The consumer queues each batch on a single worker and routes each update as
  follows. A text message starting with `/` goes to the command handle first. Unless
  `runCommandsThroughOnMessage` is set, routing ends there. Otherwise every other
  listener gets, in list order, the callback for the first kind the update carries,
  in the router's fixed priority order. Each callback is followed by the
  `afterUpdate` hook, which may also log a line.
- **Command registry** (`CommandRegistry`, after `CommandManager.kt`). One process-wide
  list of commands is shared by every manager. Names are validated against
  `[a-z0-9_]+`, with one diagnostic per invalid name. The menu is built from the valid
  names. The handle resolves a message by the first token of its text.
- **Older command registry** (`LegacyCommandRegistry`, after `Commands.kt`). It does not
  validate names. It can remove a command, and the matched handler receives the tokens
  after the command as arguments.
- **Metadata sync** (`CommonBot`, after `common/Bot.kt`). `setNameAndCommands` pushes
  the menu, reads the name, description and short description back from Telegram,
  with fallbacks when a read fails, and writes each configured value that differs
  from what it read. It then optionally registers a shutdown hook.
- **File-format registry** (`Configurator`, after `Others.kt`). An insertion-ordered
  map from extension lists to loaders, with five defaults. Lookup is case-insensitive
  and returns the first list that holds the extension. `addFormat` stores a loader
  under the lowercased list.

Supporting modules:
- `Wrappers` holds `Option`, standing in for nullable types.
- `Text` holds `split(" ")`, `joinToString(" ")` and ASCII lowercasing.
- `Counting` counts occurrences in a sequence.
- `Logging` records a logger's lines.
- `TelegramApi` holds updates, kinds, listeners, options and outbound calls.

Outbound calls are recorded in order in a `calls` field. A `TelegramApiException` is
modelled as a failure at a given position of the planned call sequence. The work of
listeners and handlers is recorded as a trace of events: a callback of listener `i`,
a command handler run, and an `afterUpdate` hook.

Where the behaviour described for this system and the code differ, the model follows
the code:
- On the command path, `consume` returns when `runCommandsThroughOnMessage` is false,
  whether or not a command matched. It does not fall through to the listeners.
  `CommandStopsWithoutRunThrough` states this.
- An update may carry several fields. The router takes the first one in its fixed
  order; it does not assume exactly one.
- Updates run on a single-thread executor, so they are routed one at a time, in
  arrival order. `RunQueued` and `RouteAllAppend` state this.
- `LongPollingBot.start` sends each configured name and description without reading
  or comparing the current value first. Only the common `Bot` reads before it writes.
- A failed `start` leaves the session registered. It does not stop what was started.
- A command whose name contains a space is stored, but the lookup can never reach it
  (`NameWithSpaceNeverMatches`).
- When the short-description read fails, the fallback is the configured bot *name*,
  not the configured short description. This is modelled as written, and
  `ShortDescriptionComparedWithNameOnFailedRead` exhibits the consequence.

## Model

| member | source | states |
|---|---|---|
| Text.SplitTokensHaveNoSpace | src/main/kotlin/CommandManager.kt:34 | no token of `split(" ")` contains a space |
| Text.JoinSplit | src/main/kotlin/Commands.kt:27-30 | joining the tokens of `split(" ")` with single spaces gives back the text |
| Text.SplitJoin | src/main/kotlin/Commands.kt:27-30 | splitting a join of space-free tokens gives back those tokens |
| Text.FirstToken | src/main/kotlin/CommandManager.kt:34-35 | the first token is the text before the first space, or all of it, and has no space |
| Text.FirstTokenOfPrefixed | src/main/kotlin/CommandManager.kt:34-35 | the first token of `t + rest` is `t` when `t` has no space and `rest` is empty or starts with one |
| Text.LowerIdempotent | configurator/src/main/kotlin/Others.kt:30-34 | lowercasing twice is lowercasing once |
| CommandRegistry.MatchesNameRegex | src/main/kotlin/CommandManager.kt:15 | a full match of `[a-z0-9_]+` holds exactly for non-empty names made only of lowercase letters, digits and underscores |
| CommandRegistry.MatchesClassStar | src/main/kotlin/CommandManager.kt:15 | `[a-z0-9_]*` matches exactly the strings made only of that class |
| CommandRegistry.ValidNameHasNoSpace | src/main/kotlin/CommandManager.kt:15 | a valid name has no space |
| CommandRegistry.ValidMenuExactlyValid | src/main/kotlin/LongPollingBot.kt:59-64 | every menu entry comes from a registered command with a valid name, and every such command has its entry |
| CommandRegistry.ValidMenuAppend | src/main/kotlin/LongPollingBot.kt:60-64 | the menu of a concatenation is the concatenation of the menus, so registration order is kept |
| CommandRegistry.MenuAndDiagnosticsPartition | src/main/kotlin/CommandManager.kt:22-29 | every command is either in the menu or diagnosed, never both |
| CommandRegistry.NoDiagnosticsIffAllValid | src/main/kotlin/CommandManager.kt:22-29 | no error is logged if and only if every added name is valid |
| CommandRegistry.DiagnosticsExactlyInvalid | src/main/kotlin/CommandManager.kt:22-29 | each logged error names an invalid command, and each invalid command gets its error |
| CommandRegistry.CommandsToSend | src/main/kotlin/LongPollingBot.kt:59-64 | the loop builds exactly the menu of valid commands, in order |
| CommandRegistry.FindByToken | src/main/kotlin/CommandManager.kt:35 | returns the first command whose `"/" + name` equals the token, or nothing when none does |
| CommandRegistry.LookupFindsRegistered | src/main/kotlin/CommandManager.kt:34-35 | a registered space-free name is found by `"/" + name`, alone or followed by arguments; the earliest duplicate wins |
| CommandRegistry.NameWithSpaceNeverMatches | src/main/kotlin/CommandManager.kt:34-35 | a command whose name contains a space is never found |
| CommandRegistry.ResolveRunsFirstMatch | src/main/kotlin/CommandManager.kt:33-37 | the handler of the first matching command runs with the message, and nothing runs when none matches |
| CommandRegistry.Handle.OnMessage | src/main/kotlin/CommandManager.kt:33-37 | `onMessage` runs exactly what the lookup resolves |
| CommandRegistry.CommandManager.constructor | src/main/kotlin/CommandManager.kt:13-14 | the manager's handle reads the shared command list |
| CommandRegistry.CommandManager.AddCommand | src/main/kotlin/CommandManager.kt:20-30 | all commands are appended, valid or not, and one error is logged per invalid name, in order |
| CommandRegistry.SharedAcrossManagers | src/main/kotlin/CommandManager.kt:39-41 | for any shared list, commands added through one manager, valid or not, are resolved by another manager's handle against the whole list |
| LegacyCommandRegistry.RemoveFirst | src/main/kotlin/Commands.kt:23 | removing shortens the list by one when the command is present and leaves it unchanged otherwise |
| LegacyCommandRegistry.RemoveFirstRemovesOne | src/main/kotlin/Commands.kt:23 | removing takes away exactly one copy of the command, if there is one |
| LegacyCommandRegistry.RemoveFirstAt | src/main/kotlin/Commands.kt:23 | removing cuts out exactly the first occurrence and keeps the rest in order |
| LegacyCommandRegistry.FindByToken | src/main/kotlin/Commands.kt:28 | returns the first command whose `"/" + name` equals the token, or nothing |
| LegacyCommandRegistry.CommandAndArgsRebuildText | src/main/kotlin/Commands.kt:27-30 | the command token and the arguments, joined by spaces, give back the text |
| LegacyCommandRegistry.NoSpaceNoArgs | src/main/kotlin/Commands.kt:30 | text without a space gives no arguments |
| LegacyCommandRegistry.ArgsCountSpaces | src/main/kotlin/Commands.kt:30 | there are as many arguments as spaces in the text, empty ones included |
| LegacyCommandRegistry.Resolve | src/main/kotlin/Commands.kt:26-33 | the first matching command runs once with the remaining tokens as arguments; nothing runs when none matches |
| LegacyCommandRegistry.Handle.OnMessage | src/main/kotlin/Commands.kt:26-33 | `onMessage` runs exactly what `Resolve` names |
| LegacyCommandRegistry.CommandManager.AddCommand | src/main/kotlin/Commands.kt:16 | appends the command, whatever its name, and answers true |
| LegacyCommandRegistry.CommandManager.RemoveCommand | src/main/kotlin/Commands.kt:23 | answers whether the command was present and removes its first occurrence |
| LongPolling.ClassifyIsFirstCarried | src/main/kotlin/LongPollingBot.kt:115-189 | the branch taken is a kind the update carries, and no kind tested before it is carried; with no kind carried, no branch is taken |
| LongPolling.FirstCarriedAt | src/main/kotlin/LongPollingBot.kt:116-188 | the first-match scan over the `when` order finds a carried kind with none carried before it, or reports that none is carried |
| LongPolling.FanOutShape | src/main/kotlin/LongPollingBot.kt:115-190 | every event of the listener loop concerns a listener from index 1, for the chosen kind and the update's id |
| LongPolling.FanOutLength | src/main/kotlin/LongPollingBot.kt:115 | the loop over `subList(1, size)` makes two events per listener |
| LongPolling.FanOutAt | src/main/kotlin/LongPollingBot.kt:115-190 | listener `i`'s callback sits at position `2(i-1)` of the loop's events, and its `afterUpdate` right after |
| LongPolling.FanOutOmits | src/main/kotlin/LongPollingBot.kt:115 | the loop never concerns a listener beyond the list |
| LongPolling.FanOutCalledOnce | src/main/kotlin/LongPollingBot.kt:115-190 | in the loop each listener gets exactly one callback, and only for the chosen kind |
| LongPolling.FanOutAfterUpdateOnce | src/main/kotlin/LongPollingBot.kt:115-190 | in the loop each listener's `afterUpdate` fires exactly once |
| LongPolling.BroadcastOnlyListeners | src/main/kotlin/LongPollingBot.kt:115 | the listener loop never concerns the command handle at index 0 |
| LongPolling.CommandHandleOnce | src/main/kotlin/LongPollingBot.kt:108-110 | on the command path the handle is called once and its `afterUpdate` fires once, match or no match |
| LongPolling.CommandRunsOnlyAsResolved | src/main/kotlin/LongPollingBot.kt:108-110 | a command handler runs only as the handle's lookup resolves it |
| LongPolling.ResolvedCommandRunsOnce | src/main/kotlin/LongPollingBot.kt:108-110 | the resolved handler runs exactly once |
| LongPolling.CommandStopsWithoutRunThrough | src/main/kotlin/LongPollingBot.kt:108-113 | without run-through a command update reaches no listener but the handle, whether or not a command matched |
| LongPolling.EachListenerCalledOnce | src/main/kotlin/LongPollingBot.kt:111-190 | when routed to listeners, each listener from index 1 is called exactly once, for the first carried kind and no other |
| LongPolling.EachListenerAfterUpdateOnce | src/main/kotlin/LongPollingBot.kt:111-190 | when routed to listeners, each listener's `afterUpdate` fires exactly once with that kind's label |
| LongPolling.ListenersInOrder | src/main/kotlin/LongPollingBot.kt:115-190 | listeners are called in list order, each callback followed by its own `afterUpdate` |
| LongPolling.NoKindNoListener | src/main/kotlin/LongPollingBot.kt:116-189 | an update carrying no known kind reaches no listener but the handle |
| LongPolling.RouteAllAppend | src/main/kotlin/LongPollingBot.kt:99-105 | on the single worker, routing a batch in two parts is routing the first part, then the second |
| LongPolling.CommandEventsLog | src/main/kotlin/LongPollingBot.kt:110 | the command path logs exactly one line, typed "Command" |
| LongPolling.CallbackLog | src/main/kotlin/LongPollingBot.kt:193-198 | a callback and its `afterUpdate` log exactly one line, `"<updateId> - <type>"` |
| LongPolling.StartPlanOrder | src/main/kotlin/LongPollingBot.kt:57-76 | `start` registers first, always sends the menu, sends each metadata field exactly when it is configured, and starts the session last |
| LongPolling.MetadataCallsOnlySet | src/main/kotlin/LongPollingBot.kt:66-74 | the metadata calls only set the name, the description or the short description |
| LongPolling.StartThenStopReleasesOnce | src/main/kotlin/LongPollingBot.kt:55-96 | a completed `start` then `stop` starts and stops the session once, clears the menu once and unregisters the token once |
| LongPolling.LongPollingBot.constructor | src/main/kotlin/LongPollingBot.kt:24-39 | the listener list starts as the command handle alone; no session and no call yet |
| LongPolling.LongPollingBot.AddListener | src/main/kotlin/LongPollingBot.kt:46 | appends the given listeners in order and keeps the handle first |
| LongPolling.LongPollingBot.GetListeners | src/main/kotlin/LongPollingBot.kt:47-50 | returns a fresh copy of the listener list |
| LongPolling.LongPollingBot.SendMetadata | src/main/kotlin/LongPollingBot.kt:66-74 | sends each configured name and description in order, stopping at the call that raises |
| LongPolling.LongPollingBot.PublishAndStartSession | src/main/kotlin/LongPollingBot.kt:59-76 | after registration: menu, metadata, session start, cut at the call that raises |
| LongPolling.LongPollingBot.Finish | src/main/kotlin/LongPollingBot.kt:77-79 | logs the success line when every call went through, and otherwise the error line with the exception's message |
| LongPolling.LongPollingBot.Start | src/main/kotlin/LongPollingBot.kt:55-81 | the calls made are the start plan cut after the call that raises; the outcome and the one log line say which; the session exists once registration succeeded |
| LongPolling.LongPollingBot.Stop | src/main/kotlin/LongPollingBot.kt:86-96 | stop, delete the menu and unregister, cut at the call that raises; before any session nothing is called |
| LongPolling.Consumer.Consume | src/main/kotlin/LongPollingBot.kt:101-105 | every update of the batch is queued, in order |
| LongPolling.Consumer.AfterUpdateHook | src/main/kotlin/LongPollingBot.kt:193-198 | the hook fires, then one line is logged exactly when `logUpdates` is set |
| LongPolling.Consumer.CommandPath | src/main/kotlin/LongPollingBot.kt:108-110 | the handle's `onMessage`, the handler it resolves, then `afterUpdate` with the null listener |
| LongPolling.Consumer.ListenerLoop | src/main/kotlin/LongPollingBot.kt:115-190 | each listener from index 1, in order, gets the callback of the first carried kind and its `afterUpdate` |
| LongPolling.Consumer.ConsumeUpdate | src/main/kotlin/LongPollingBot.kt:107-191 | routing one update records exactly the events and log lines of the routing specification |
| LongPolling.Consumer.RunQueued | src/main/kotlin/LongPollingBot.kt:99-105 | the single worker routes the queued updates one at a time, in arrival order |
| CommonBot.NameWrittenIffDiffers | tgbotter/src/main/kotlin/common/Bot.kt:44-57 | the name is written exactly when one is configured, its read succeeded and returned something else; a failed read writes nothing; the write carries the configured name |
| CommonBot.DescriptionWrittenIffDiffers | tgbotter/src/main/kotlin/common/Bot.kt:48-64 | the description is written exactly when one is configured, its read succeeded and returned something else |
| CommonBot.ShortDescriptionComparedWithNameOnFailedRead | tgbotter/src/main/kotlin/common/Bot.kt:52-70 | a failed short-description read is compared with the configured name; a successful one is compared as read |
| CommonBot.UnreadableShortDescriptionWritten | tgbotter/src/main/kotlin/common/Bot.kt:52-70 | when the short-description read fails, a configured short description that differs from the configured name is written, whatever the profile holds |
| CommonBot.WritesCarryConfiguredValues | tgbotter/src/main/kotlin/common/Bot.kt:56-70 | every write carries a configured value, in its own field |
| CommonBot.InSyncNoWrites | tgbotter/src/main/kotlin/common/Bot.kt:44-70 | when the profile already holds every configured value, nothing is written, unless the short-description read fails and its name fallback differs |
| CommonBot.ApplyAppend | tgbotter/src/main/kotlin/common/Bot.kt:56-70 | applying calls in two parts is applying the first part, then the second |
| CommonBot.SyncIdempotent | tgbotter/src/main/kotlin/common/Bot.kt:44-70 | after a sync whose reads all succeeded, a second sync whose short-description read succeeds writes nothing |
| CommonBot.SyncRepeatsWritesAfterFailedReads | tgbotter/src/main/kotlin/common/Bot.kt:44-70 | with failing reads the sync is not idempotent: a failed short-description read rewrites a value the profile holds, and a failed first name read leaves a stale name the next sync writes |
| CommonBot.MenuSentIffSomeValid | tgbotter/src/main/kotlin/common/Bot.kt:35-42 | the menu is pushed exactly when automatic commands are on and some command has a valid name; it holds the valid commands |
| CommonBot.DefaultStartSendsMenuWithoutHook | tgbotter/src/main/kotlin/common/Bot.kt:93 | with the default `start` parameters the menu is pushed whenever some name is valid, no hook is added and errors exit |
| CommonBot.Bot.constructor | tgbotter/src/main/kotlin/common/Bot.kt:17-32 | the listener list starts as the command handle alone |
| CommonBot.Bot.AddListener | tgbotter/src/main/kotlin/common/Bot.kt:84 | appends the given listeners in order and keeps the handle first |
| CommonBot.Bot.GetListeners | tgbotter/src/main/kotlin/common/Bot.kt:85-88 | returns a fresh copy of the listener list |
| CommonBot.Bot.ReadProfile | tgbotter/src/main/kotlin/common/Bot.kt:44-54 | makes the three reads and returns each value held, or its `catch` fallback for each read that raises |
| CommonBot.Bot.WriteDifferences | tgbotter/src/main/kotlin/common/Bot.kt:56-70 | makes exactly the writes of the values that differ, in order, and the profile takes them |
| CommonBot.Bot.SetNameAndCommands | tgbotter/src/main/kotlin/common/Bot.kt:34-77 | the menu call if any, the three reads and the writes of what differs from what was read, in order; the profile is updated; one hook is added when asked for |
| CommonBot.SecondSyncWritesNothing | tgbotter/src/main/kotlin/common/Bot.kt:34-77 | after a sync whose reads succeed, a second sync whose short-description read succeeds makes only the menu call and the reads |
| Configurator.LowerAll | configurator/src/main/kotlin/Others.kt:34 | the new list has every key already lowercase, key by key the lowercase of the given one |
| Configurator.FirstHolding | configurator/src/main/kotlin/Others.kt:30-31 | finds nothing exactly when no entry holds the extension, and otherwise the loader of the first entry that does |
| Configurator.DefaultsWellFormed | configurator/src/main/kotlin/Others.kt:18-24 | the defaults hold each key once and only lowercase extensions |
| Configurator.DefaultsResolve | configurator/src/main/kotlin/Others.kt:18-31 | "json", "yaml", "conf", "hocon", "properties" and "toml" resolve to their loaders, "conf" and "hocon" to the same one |
| Configurator.DefaultsMiss | configurator/src/main/kotlin/Others.kt:18-31 | any other extension resolves to nothing |
| Configurator.YmlAndNbtMiss | configurator/src/main/kotlin/Others.kt:18-31 | "yml" and "nbt" resolve to nothing in the defaults |
| Configurator.FindIgnoresCase | configurator/src/main/kotlin/Others.kt:30-31 | an extension and its lowercase form find the same loader |
| Configurator.PutNewKeyAppends | configurator/src/main/kotlin/Others.kt:33-34 | a new key goes at the end of the map |
| Configurator.PutExistingKeyReplaces | configurator/src/main/kotlin/Others.kt:33-34 | a key already present keeps its position, and only its loader changes |
| Configurator.PutKeepsOthers | configurator/src/main/kotlin/Others.kt:33-34 | no entry is lost or moved, and every other key keeps its loader |
| Configurator.PutOnlyAddsItsKey | configurator/src/main/kotlin/Others.kt:33-34 | after a put, every entry is an old one or the one written |
| Configurator.PutKeepsWellFormed | configurator/src/main/kotlin/Others.kt:33-34 | `addFormat` keeps each key once and every extension lowercase |
| Configurator.PutPosition | configurator/src/main/kotlin/Others.kt:33-34 | the position a put writes is the entry stored under the key, before which no entry has it, or the end exactly when the key is new |
| Configurator.FirstHoldingAfterPut | configurator/src/main/kotlin/Others.kt:30-34 | after a put, an extension of the written key finds the first entry before the written position that holds it, and otherwise the new loader |
| Configurator.FindAfterPut | configurator/src/main/kotlin/Others.kt:30-34 | after `addFormat(keys, x)`, an extension of `keys` in any case finds the first earlier entry holding it, and otherwise `x` |
| Configurator.ReplacedKeyFound | configurator/src/main/kotlin/Others.kt:30-34 | overwriting an existing key makes its extensions find the new loader unless an entry before it holds them, whatever later entries hold |
| Configurator.FileFormats.constructor | configurator/src/main/kotlin/Others.kt:26-28 | the map starts as the defaults and is well formed |
| Configurator.FileFormats.FindFormat | configurator/src/main/kotlin/Others.kt:30-31 | finds a loader exactly when some entry holds the lowercased extension |
| Configurator.FileFormats.AddFormat | configurator/src/main/kotlin/Others.kt:33-34 | stores the loader under the lowercased list and keeps the map well formed |

## Left out

- The Telegram client, the long-polling application and the network. The outbound calls are recorded in order, and a `TelegramApiException` is a parameter naming the position of the call that raises.
- What listeners and command handlers do. A listener is an id, a handler is an id, and their runs are recorded as trace events.
- Concurrency beyond the single-thread executor. The batch callback thread and the worker are modelled as a queue that `RunQueued` drains.
- Exceptions thrown by listener or handler code. The source does not catch them, and the model has no such exceptions.
- The interleaving of log lines with the event trace. Log lines and events are kept in two separate ordered records.
- `LongPolling.LongPollingBot.Stop` before any `start`: the uninitialised `lateinit` session throws before any call is made. This is modelled as the outcome `UninitializedSession`, not as an exception.
- `CommonBot.Bot.SetNameAndCommands`: a failure of the menu push or of a write is not modelled. Which reads raise is a parameter of each sync.
- CommonBot.SyncIdempotent: holds only when the first sync's reads and the second sync's short-description read succeed, since the source falls back to configured values on a failed read; SyncRepeatsWritesAfterFailedReads shows the writes repeated otherwise.
- The JVM shutdown hook is only counted (`shutdownHooks`). `start`, `stop` and `exitOnError` of the abstract `Bot` have no body in the source. Only their defaults are stated.
- `Loader.kt` and `ConfigLoaders.kt` (the loaders, serialisation and parsing) are not part of this model. Loaders are opaque values.
- `formats` is a public mutable map in the source, so callers can break its invariant. The model reaches it only through the constructor and `AddFormat`.
- Lowercasing covers ASCII letters only. Kotlin's Unicode case mapping is not modelled.
- The root `DataClasses.kt` declares a non-null bot name. The model uses the nullable options of `common/DataClasses.kt`.
