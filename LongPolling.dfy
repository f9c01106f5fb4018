/**
 * The long-polling bot of `LongPollingBot.kt`: its listener list (the command handle
 * first), the start and stop sequences of outbound calls, and the consumer that
 * queues each batch of updates on a single worker and routes one update at a time.
 */
module LongPolling {
  import opened Wrappers
  import opened Text
  import opened Logging
  import opened TelegramApi
  import opened CommandRegistry
  import opened Counting

  // ---------------------------------------------------------------------------
  // Classifying an update

  /** Position of a kind in the order the router tests the update's fields. */
  function Rank(k: Kind): nat {
    match k
    case BusinessConnection => 0
    case BusinessMessage => 1
    case CallbackQuery => 2
    case ChannelPost => 3
    case ChatJoinRequest => 4
    case ChatMember => 5
    case ChosenInlineQuery => 6
    case DeletedBusinessMessage => 7
    case EditedBusinessMessage => 8
    case EditedChannelPost => 9
    case EditedMessage => 10
    case InlineQuery => 11
    case MessageKind => 12
    case MyChatMember => 13
    case Poll => 14
    case PollAnswer => 15
    case PreCheckoutQuery => 16
    case ShippingQuery => 17
  }

  /** The `type` string `afterUpdate` receives for a kind. */
  function Label(k: Kind): string {
    match k
    case BusinessConnection => "BusinessConnection"
    case BusinessMessage => "BusinessMessage"
    case CallbackQuery => "CallbackQuery"
    case ChannelPost => "ChannelPost"
    case ChatJoinRequest => "ChatJoinRequest"
    case ChatMember => "ChatMember"
    case ChosenInlineQuery => "ChosenInlineQuery"
    case DeletedBusinessMessage => "DeletedBusinessMessage"
    case EditedBusinessMessage => "EditedBusinessMessage"
    case EditedChannelPost => "EditedChannelPost"
    case EditedMessage => "EditedMessage"
    case InlineQuery => "InlineQuery"
    case MessageKind => "Message"
    case MyChatMember => "MyChatMember"
    case Poll => "Poll"
    case PollAnswer => "PollAnswer"
    case PreCheckoutQuery => "PreCheckoutQuery"
    case ShippingQuery => "ShippingQuery"
  }

  /**
   * Which branch of `consume` fired: the command path (`type` "Command") or the
   * listener callback for one kind (`type` its label).
   */
  datatype Route = CommandRoute | KindRoute(kind: Kind)

  function TypeLabel(r: Route): string {
    match r
    case CommandRoute => "Command"
    case KindRoute(k) => Label(k)
  }

  /** The order in which the `when` inside the listener loop tests the update's fields. */
  const Priority: seq<Kind> := [
    BusinessConnection, BusinessMessage, CallbackQuery, ChannelPost, ChatJoinRequest, ChatMember,
    ChosenInlineQuery, DeletedBusinessMessage, EditedBusinessMessage, EditedChannelPost, EditedMessage,
    InlineQuery, MessageKind, MyChatMember, Poll, PollAnswer, PreCheckoutQuery, ShippingQuery]

  /** Every kind sits in the priority order at its rank. */
  lemma PriorityRanks(k: Kind)
    ensures |Priority| == 18 && Rank(k) < 18 && Priority[Rank(k)] == k
  {
  }

  /** ... and the kind at each position has that position as its rank. */
  lemma RankOfPriority(i: nat)
    requires i < |Priority|
    ensures Rank(Priority[i]) == i
  {
  }

  /** The first kind of `ks` whose field the update carries. */
  function FirstCarried(u: Update, ks: seq<Kind>): Option<Kind>
  {
    if ks == [] then None
    else if Has(u, ks[0]) then Some(ks[0])
    else FirstCarried(u, ks[1..])
  }

  /** The branch of the `when`: the first kind, in priority order, the update carries. */
  function Classify(u: Update): Option<Kind>
  {
    FirstCarried(u, Priority)
  }

  /** `FirstCarried` finds a carried kind at some position, with no carried kind before it. */
  lemma {:induction false} FirstCarriedAt(u: Update, ks: seq<Kind>)
    ensures var r := FirstCarried(u, ks);
      && (r.Some? ==> exists i :: 0 <= i < |ks| && ks[i] == r.value && Has(u, ks[i])
                                  && forall j :: 0 <= j < i ==> !Has(u, ks[j]))
      && (r.None? ==> forall j :: 0 <= j < |ks| ==> !Has(u, ks[j]))
  {
    if ks != [] && !Has(u, ks[0]) {
      FirstCarriedAt(u, ks[1..]);
      var r := FirstCarried(u, ks);
      if r.Some? {
        var i :| 0 <= i < |ks[1..]| && ks[1..][i] == r.value && Has(u, ks[1..][i])
          && forall j :: 0 <= j < i ==> !Has(u, ks[1..][j]);
        assert ks[i + 1] == r.value && forall j :: 0 <= j < i + 1 ==> !Has(u, ks[j]);
      }
    }
  }

  /** The kind chosen is one the update carries, and no kind tested before it is carried. */
  lemma ClassifyIsFirstCarried(u: Update)
    ensures var r := Classify(u);
      && (r.Some? ==> Has(u, r.value) && forall k :: Rank(k) < Rank(r.value) ==> !Has(u, k))
      && (r.None? ==> forall k :: !Has(u, k))
  {
    FirstCarriedAt(u, Priority);
    var r := Classify(u);
    if r.Some? {
      var i :| 0 <= i < |Priority| && Priority[i] == r.value && Has(u, Priority[i])
        && forall j :: 0 <= j < i ==> !Has(u, Priority[j]);
      RankOfPriority(i);
    }
    forall k
      ensures r.None? ==> !Has(u, k)
      ensures r.Some? && Rank(k) < Rank(r.value) ==> !Has(u, k)
    {
      PriorityRanks(k);
    }
  }

  /** A message with text starting with `/` takes the command path first. */
  predicate IsCommandUpdate(u: Update) {
    u.message.Some? && u.message.value.text.Some? && |u.message.value.text.value| >= 1 && u.message.value.text.value[0] == '/'
  }

  // ---------------------------------------------------------------------------
  // What routing one update makes observable

  /**
   * `Called(k, i)`: `listeners[i].on<k>(...)` ran (index 0 is the command handle's
   * `onMessage`); `CommandRan`: the handle ran a command handler; `AfterUpdate`: the
   * `afterUpdate` hook fired with the update's id, the branch and the listener
   * index (`None` for the null listener of the command path).
   */
  datatype Event =
    | Called(kind: Kind, index: nat)
    | CommandRan(invocation: Invocation)
    | AfterUpdate(updateId: int, route: Route, listener: Option<nat>)

  /** The command path: the handle's `onMessage`, the handler it may run, then `afterUpdate`. */
  function CommandEvents(u: Update, cmds: seq<Command>): seq<Event>
    requires IsCommandUpdate(u)
  {
    var ran := Resolve(cmds, u.message.value);
    [Called(MessageKind, 0)]
    + (if ran.Some? then [CommandRan(ran.value)] else [])
    + [AfterUpdate(u.updateId, CommandRoute, None)]
  }

  /** Listeners 1 to n - 1, in order, each called for kind `k` and followed by its `afterUpdate`. */
  function FanOut(u: Update, k: Kind, n: nat): seq<Event>
    decreases n
  {
    if n <= 1 then []
    else FanOut(u, k, n - 1) + [Called(k, n - 1), AfterUpdate(u.updateId, KindRoute(k), Some(n - 1))]
  }

  /** The listener loop for `n` listeners: nothing when the update carries no known kind. */
  function Broadcast(u: Update, n: nat): seq<Event>
  {
    match Classify(u)
    case None => []
    case Some(k) => FanOut(u, k, n)
  }

  /** `consume(update)` with `n` listeners, the registered commands and the run-through option. */
  function RouteEvents(u: Update, n: nat, cmds: seq<Command>, runThrough: bool): seq<Event>
  {
    if IsCommandUpdate(u) then
      if runThrough then CommandEvents(u, cmds) + Broadcast(u, n) else CommandEvents(u, cmds)
    else Broadcast(u, n)
  }

  /** A batch routed update after update, in order. */
  function RouteAll(us: seq<Update>, n: nat, cmds: seq<Command>, runThrough: bool): seq<Event>
  {
    if us == [] then []
    else RouteAll(us[..|us| - 1], n, cmds, runThrough) + RouteEvents(us[|us| - 1], n, cmds, runThrough)
  }

  /** The line `"<updateId> - <type>"`. */
  function UpdateLogLine(updateId: int, typeLabel: string): string {
    IntToString(updateId) + " - " + typeLabel
  }

  /** One info line per `afterUpdate` in the events, in order. */
  function LogLines(events: seq<Event>): seq<LogLine>
  {
    if events == [] then []
    else
      var e := events[|events| - 1];
      LogLines(events[..|events| - 1])
      + (if e.AfterUpdate? then [InfoLine(UpdateLogLine(e.updateId, TypeLabel(e.route)))] else [])
  }

  lemma {:induction false} LogLinesAppend(a: seq<Event>, b: seq<Event>)
    ensures LogLines(a + b) == LogLines(a) + LogLines(b)
    decreases |b|
  {
    if b == [] {
      assert a + b == a;
    } else {
      assert (a + b)[..|a + b| - 1] == a + b[..|b| - 1];
      LogLinesAppend(a, b[..|b| - 1]);
    }
  }

  /** Every event of the listener loop concerns a listener at index 1 or more, for kind `k`. */
  lemma {:induction false} FanOutShape(u: Update, k: Kind, n: nat)
    ensures forall e :: e in FanOut(u, k, n) ==>
      || (e.Called? && e.kind == k && 1 <= e.index < n)
      || (e.AfterUpdate? && e.updateId == u.updateId && e.route == KindRoute(k)
          && e.listener.Some? && 1 <= e.listener.value < n)
    decreases n
  {
    if n > 1 {
      FanOutShape(u, k, n - 1);
    }
  }

  /** The loop over listeners below `n` makes two events per listener from index 1. */
  lemma {:induction false} FanOutLength(u: Update, k: Kind, n: nat)
    ensures |FanOut(u, k, n)| == if n <= 1 then 0 else 2 * (n - 1)
    decreases n
  {
    if n > 1 {
      FanOutLength(u, k, n - 1);
    }
  }

  /** Listener `i` is called at position 2(i-1) of the loop's events and its `afterUpdate` right after. */
  lemma {:induction false} FanOutAt(u: Update, k: Kind, n: nat, i: nat)
    requires 1 <= i < n
    ensures |FanOut(u, k, n)| == 2 * (n - 1)
    ensures FanOut(u, k, n)[2 * (i - 1)] == Called(k, i)
    ensures FanOut(u, k, n)[2 * (i - 1) + 1] == AfterUpdate(u.updateId, KindRoute(k), Some(i))
    decreases n
  {
    FanOutLength(u, k, n - 1);
    if i < n - 1 {
      FanOutAt(u, k, n - 1, i);
    }
  }

  /** No event of the loop over listeners below `n` concerns listener `j >= n`. */
  lemma {:induction false} FanOutOmits(u: Update, k: Kind, n: nat, k': Kind, j: nat)
    requires j >= n
    ensures Called(k', j) !in FanOut(u, k, n)
    ensures AfterUpdate(u.updateId, KindRoute(k), Some(j)) !in FanOut(u, k, n)
    decreases n
  {
    if n > 1 {
      FanOutOmits(u, k, n - 1, k', j);
    }
  }

  /** In the listener loop listener `i` (1..n-1) gets exactly one callback, and only for kind `k`. */
  lemma {:induction false} FanOutCalledOnce(u: Update, k: Kind, n: nat, k': Kind, i: nat)
    requires 1 <= i < n
    ensures Count(FanOut(u, k, n), Called(k', i)) == if k' == k then 1 else 0
    decreases n
  {
    var prev := FanOut(u, k, n - 1);
    var step := [Called(k, n - 1), AfterUpdate(u.updateId, KindRoute(k), Some(n - 1))];
    CountAppend(prev, step, Called(k', i));
    CountPair(step[0], step[1], Called(k', i));
    if i < n - 1 {
      FanOutCalledOnce(u, k, n - 1, k', i);
      assert step[0] != Called(k', i);
    } else {
      FanOutOmits(u, k, n - 1, k', i);
    }
  }

  /** In the listener loop the `afterUpdate` of listener `i` (1..n-1) fires exactly once. */
  lemma {:induction false} FanOutAfterUpdateOnce(u: Update, k: Kind, n: nat, i: nat)
    requires 1 <= i < n
    ensures Count(FanOut(u, k, n), AfterUpdate(u.updateId, KindRoute(k), Some(i))) == 1
    decreases n
  {
    var prev := FanOut(u, k, n - 1);
    var step := [Called(k, n - 1), AfterUpdate(u.updateId, KindRoute(k), Some(n - 1))];
    var x := AfterUpdate(u.updateId, KindRoute(k), Some(i));
    CountAppend(prev, step, x);
    CountPair(step[0], step[1], x);
    if i < n - 1 {
      FanOutAfterUpdateOnce(u, k, n - 1, i);
    } else {
      FanOutOmits(u, k, n - 1, k, i);
    }
  }

  /** The listener loop only ever concerns listeners at index 1 or more. */
  lemma BroadcastOnlyListeners(u: Update, n: nat)
    ensures forall e :: e in Broadcast(u, n) ==>
      (e.Called? && e.index >= 1) || (e.AfterUpdate? && e.listener.Some? && e.route.KindRoute?)
  {
    match Classify(u)
    case None =>
    case Some(k) => FanOutShape(u, k, n);
  }

  /** On the command path the handle is called once and its `afterUpdate` fires once, match or no match. */
  lemma CommandHandleOnce(u: Update, n: nat, cmds: seq<Command>, runThrough: bool)
    requires IsCommandUpdate(u)
    ensures Count(RouteEvents(u, n, cmds, runThrough), Called(MessageKind, 0)) == 1
    ensures Count(RouteEvents(u, n, cmds, runThrough), AfterUpdate(u.updateId, CommandRoute, None)) == 1
  {
    var ran := Resolve(cmds, u.message.value);
    var mid := if ran.Some? then [CommandRan(ran.value)] else [];
    var first := [Called(MessageKind, 0)];
    var last := [AfterUpdate(u.updateId, CommandRoute, None)];
    var tail := if runThrough then Broadcast(u, n) else [];
    assert RouteEvents(u, n, cmds, runThrough) == first + mid + last + tail;
    BroadcastOnlyListeners(u, n);
    forall x | x == first[0] || x == last[0]
      ensures Count(first + mid + last + tail, x) == 1
    {
      CountAppend(first + mid + last, tail, x);
      CountAppend(first + mid, last, x);
      CountAppend(first, mid, x);
      CountSingle(first[0], x);
      CountSingle(last[0], x);
    }
  }

  /** An element absent from the two ends and from the tail is counted in the middle only. */
  lemma CountInMiddle<T>(first: T, mid: seq<T>, last: T, tail: seq<T>, x: T)
    requires first != x && last != x && x !in tail
    ensures Count([first] + mid + [last] + tail, x) == Count(mid, x)
  {
    CountAppend([first] + mid + [last], tail, x);
    CountAppend([first] + mid, [last], x);
    CountAppend([first], mid, x);
    CountSingle(first, x);
    CountSingle(last, x);
  }

  /** On the command path a handler runs only as the command lookup resolves it. */
  lemma CommandRunsOnlyAsResolved(u: Update, n: nat, cmds: seq<Command>, runThrough: bool)
    requires IsCommandUpdate(u)
    ensures forall e :: e in RouteEvents(u, n, cmds, runThrough) && e.CommandRan? ==>
      Resolve(cmds, u.message.value) == Some(e.invocation)
  {
    var ran := Resolve(cmds, u.message.value);
    var mid := if ran.Some? then [CommandRan(ran.value)] else [];
    var tail := if runThrough then Broadcast(u, n) else [];
    assert RouteEvents(u, n, cmds, runThrough)
      == [Called(MessageKind, 0)] + mid + [AfterUpdate(u.updateId, CommandRoute, None)] + tail;
    BroadcastOnlyListeners(u, n);
  }

  /** ... and the handler it resolves runs exactly once. */
  lemma ResolvedCommandRunsOnce(u: Update, n: nat, cmds: seq<Command>, runThrough: bool)
    requires IsCommandUpdate(u)
    requires Resolve(cmds, u.message.value).Some?
    ensures Count(RouteEvents(u, n, cmds, runThrough), CommandRan(Resolve(cmds, u.message.value).value)) == 1
  {
    var x := CommandRan(Resolve(cmds, u.message.value).value);
    var tail := if runThrough then Broadcast(u, n) else [];
    assert RouteEvents(u, n, cmds, runThrough)
      == [Called(MessageKind, 0)] + [x] + [AfterUpdate(u.updateId, CommandRoute, None)] + tail;
    BroadcastOnlyListeners(u, n);
    CountInMiddle(Called(MessageKind, 0), [x], AfterUpdate(u.updateId, CommandRoute, None), tail, x);
    CountSingle(x, x);
  }

  /** Without run-through, a command update reaches no listener at index 1 or more. */
  lemma CommandStopsWithoutRunThrough(u: Update, n: nat, cmds: seq<Command>)
    requires IsCommandUpdate(u)
    ensures forall e :: e in RouteEvents(u, n, cmds, false) ==>
      (e.Called? ==> e.index == 0) && (e.AfterUpdate? ==> e.listener.None?)
  {
  }

  /**
   * When the update is routed to listeners, each listener 1..n-1 is called exactly once,
   * for the update's first kind by priority and for no other.
   */
  lemma EachListenerCalledOnce(u: Update, n: nat, cmds: seq<Command>, runThrough: bool, k: Kind, k': Kind, i: nat)
    requires !IsCommandUpdate(u) || runThrough
    requires Classify(u) == Some(k)
    requires 1 <= i < n
    ensures Count(RouteEvents(u, n, cmds, runThrough), Called(k', i)) == if k' == k then 1 else 0
  {
    var head := if IsCommandUpdate(u) then CommandEvents(u, cmds) else [];
    assert RouteEvents(u, n, cmds, runThrough) == head + FanOut(u, k, n);
    CountAppend(head, FanOut(u, k, n), Called(k', i));
    FanOutCalledOnce(u, k, n, k', i);
  }

  /** ... and each such listener's `afterUpdate` fires exactly once, with that kind's route. */
  lemma EachListenerAfterUpdateOnce(u: Update, n: nat, cmds: seq<Command>, runThrough: bool, k: Kind, i: nat)
    requires !IsCommandUpdate(u) || runThrough
    requires Classify(u) == Some(k)
    requires 1 <= i < n
    ensures Count(RouteEvents(u, n, cmds, runThrough), AfterUpdate(u.updateId, KindRoute(k), Some(i))) == 1
  {
    var head := if IsCommandUpdate(u) then CommandEvents(u, cmds) else [];
    assert RouteEvents(u, n, cmds, runThrough) == head + FanOut(u, k, n);
    CountAppend(head, FanOut(u, k, n), AfterUpdate(u.updateId, KindRoute(k), Some(i)));
    FanOutAfterUpdateOnce(u, k, n, i);
  }

  /**
   * The listeners are called in list order: the routed events end with listener 1's
   * callback and `afterUpdate`, then listener 2's, and so on.
   */
  lemma ListenersInOrder(u: Update, n: nat, cmds: seq<Command>, runThrough: bool, k: Kind, i: nat)
    requires !IsCommandUpdate(u) || runThrough
    requires Classify(u) == Some(k)
    requires 1 <= i < n
    ensures var ev := RouteEvents(u, n, cmds, runThrough);
      var start := |ev| - 2 * (n - 1);
      && 0 <= start
      && ev[start + 2 * (i - 1)] == Called(k, i)
      && ev[start + 2 * (i - 1) + 1] == AfterUpdate(u.updateId, KindRoute(k), Some(i))
  {
    var head := if IsCommandUpdate(u) then CommandEvents(u, cmds) else [];
    assert RouteEvents(u, n, cmds, runThrough) == head + FanOut(u, k, n);
    FanOutAt(u, k, n, i);
  }

  /** An update carrying none of the eighteen kinds reaches no listener at index 1 or more. */
  lemma NoKindNoListener(u: Update, n: nat, cmds: seq<Command>, runThrough: bool)
    requires forall k :: !Has(u, k)
    ensures forall e :: e in RouteEvents(u, n, cmds, runThrough) ==>
      (e.Called? ==> e.index == 0) && (e.AfterUpdate? ==> e.listener.None?)
  {
    ClassifyIsFirstCarried(u);
    assert Classify(u).None?;
  }

  lemma AppendAssoc<T>(x: seq<T>, y: seq<T>, z: seq<T>)
    ensures x + y + z == x + (y + z)
  {
  }

  /** Routing a batch with one more update appends that update's events. */
  lemma RouteAllSnoc(us: seq<Update>, u: Update, n: nat, cmds: seq<Command>, runThrough: bool)
    ensures RouteAll(us + [u], n, cmds, runThrough) == RouteAll(us, n, cmds, runThrough) + RouteEvents(u, n, cmds, runThrough)
  {
    assert (us + [u])[..|us|] == us;
  }

  /** Routing a batch in two parts is routing the first part, then the second. */
  lemma {:induction false} RouteAllAppend(a: seq<Update>, b: seq<Update>, n: nat, cmds: seq<Command>, runThrough: bool)
    ensures RouteAll(a + b, n, cmds, runThrough) == RouteAll(a, n, cmds, runThrough) + RouteAll(b, n, cmds, runThrough)
    decreases |b|
  {
    if b == [] {
      assert a + b == a;
    } else {
      var front, u := b[..|b| - 1], b[|b| - 1];
      assert b == front + [u];
      assert a + b == (a + front) + [u];
      RouteAllSnoc(a + front, u, n, cmds, runThrough);
      RouteAllSnoc(front, u, n, cmds, runThrough);
      RouteAllAppend(a, front, n, cmds, runThrough);
      AppendAssoc(RouteAll(a, n, cmds, runThrough), RouteAll(front, n, cmds, runThrough), RouteEvents(u, n, cmds, runThrough));
    }
  }

  /** Routing the first `i + 1` updates is routing the first `i`, then update `i`. */
  lemma RouteAllStep(us: seq<Update>, i: nat, n: nat, cmds: seq<Command>, runThrough: bool)
    requires i < |us|
    ensures RouteAll(us[..i + 1], n, cmds, runThrough)
      == RouteAll(us[..i], n, cmds, runThrough) + RouteEvents(us[i], n, cmds, runThrough)
  {
    assert us[..i + 1][..i] == us[..i];
  }

  /**
   * A trace that has recorded `done` and then `more`, with a log that has recorded the
   * lines of each, has recorded `done + more` and its lines.
   */
  lemma RecordedInTurn(done: seq<Event>, more: seq<Event>, logUpdates: bool,
                       t0: seq<Event>, l0: seq<LogLine>, t1: seq<Event>, l1: seq<LogLine>, t2: seq<Event>, l2: seq<LogLine>)
    requires t1 == t0 + done && l1 == l0 + (if logUpdates then LogLines(done) else [])
    requires t2 == t1 + more && l2 == l1 + (if logUpdates then LogLines(more) else [])
    ensures t2 == t0 + (done + more)
    ensures l2 == l0 + (if logUpdates then LogLines(done + more) else [])
  {
    LogLinesAppend(done, more);
  }

  /** The command path logs one line, typed "Command". */
  lemma CommandEventsLog(u: Update, cmds: seq<Command>)
    requires IsCommandUpdate(u)
    ensures LogLines(CommandEvents(u, cmds)) == [InfoLine(UpdateLogLine(u.updateId, TypeLabel(CommandRoute)))]
  {
    var ran := Resolve(cmds, u.message.value);
    var front := [Called(MessageKind, 0)] + (if ran.Some? then [CommandRan(ran.value)] else []);
    var last := AfterUpdate(u.updateId, CommandRoute, None);
    assert CommandEvents(u, cmds) == front + [last];
    LogLinesAppend(front, [last]);
    assert [last][..0] == [];
    if ran.Some? {
      assert front == [Called(MessageKind, 0), CommandRan(ran.value)];
      assert front[..1] == [Called(MessageKind, 0)];
      assert front[..1][..0] == [];
    } else {
      assert front[..0] == [];
    }
  }

  /** One more listener in the loop adds its callback and its `afterUpdate`. */
  lemma BroadcastStep(u: Update, k: Kind, i: nat)
    requires Classify(u) == Some(k) && i >= 1
    ensures Broadcast(u, i + 1) == Broadcast(u, i) + [Called(k, i), AfterUpdate(u.updateId, KindRoute(k), Some(i))]
  {
  }

  /** A callback followed by its `afterUpdate` logs one line. */
  lemma CallbackLog(c: Event, u: Update, r: Route, listener: Option<nat>)
    requires !c.AfterUpdate?
    ensures LogLines([c, AfterUpdate(u.updateId, r, listener)]) == [InfoLine(UpdateLogLine(u.updateId, TypeLabel(r)))]
  {
    assert [c, AfterUpdate(u.updateId, r, listener)][..1] == [c];
    assert [c][..0] == [];
    assert LogLines([c]) == [];
  }

  /** Routing splits into the command path, when taken, and the listener loop, unless the command path returned. */
  lemma RouteEventsParts(u: Update, n: nat, cmds: seq<Command>, runThrough: bool)
    ensures RouteEvents(u, n, cmds, runThrough)
      == (if IsCommandUpdate(u) then CommandEvents(u, cmds) else [])
       + (if IsCommandUpdate(u) && !runThrough then [] else Broadcast(u, n))
  {
  }

  // ---------------------------------------------------------------------------
  // Start and stop

  /** The outbound call at position `at` of one `start`/`stop` raises `TelegramApiException`. */
  datatype ApiFailure = ApiFailure(at: nat, message: string)

  datatype Outcome = Completed | ApiErrorLogged(message: string) | UninitializedSession

  predicate Aborts(plan: seq<ApiCall>, failure: Option<ApiFailure>) {
    failure.Some? && failure.value.at < |plan|
  }

  /** The calls actually made: the plan, cut after the call that raised. */
  function Attempted(plan: seq<ApiCall>, failure: Option<ApiFailure>): seq<ApiCall> {
    if Aborts(plan, failure) then plan[..failure.value.at + 1] else plan
  }

  /** `setMyName`, sent only when a name is configured. */
  function NameCall(options: BotCreationOptions): seq<ApiCall> {
    if options.botName.Some? then [SetMyName(options.botName.value)] else []
  }

  /** `setMyDescription`, sent only when a description is configured. */
  function DescriptionCall(options: BotCreationOptions): seq<ApiCall> {
    if options.botDescription.Some? then [SetMyDescription(options.botDescription.value)] else []
  }

  /** `setMyShortDescription`, sent only when a short description is configured. */
  function ShortDescriptionCall(options: BotCreationOptions): seq<ApiCall> {
    if options.botShortDescription.Some? then [SetMyShortDescription(options.botShortDescription.value)] else []
  }

  /** The name, description and short description calls, each only when configured. */
  function MetadataCalls(options: BotCreationOptions): seq<ApiCall> {
    NameCall(options) + DescriptionCall(options) + ShortDescriptionCall(options)
  }

  /**
   * Part way through a plan: `done` has been called and `rest` is still due; `ok` says
   * that no call so far raised, and otherwise the last call made is the one that did.
   */
  ghost predicate Progressed(plan: seq<ApiCall>, failure: Option<ApiFailure>, done: seq<ApiCall>, rest: seq<ApiCall>, ok: bool) {
    && plan == done + rest
    && (ok <==> !(failure.Some? && failure.value.at < |done|))
    && (!ok ==> failure.Some? && failure.value.at + 1 == |done|)
  }

  /** Making the next due call, which raises exactly when the failure names its position. */
  lemma Proceed(plan: seq<ApiCall>, failure: Option<ApiFailure>, done: seq<ApiCall>, rest: seq<ApiCall>, c: ApiCall, tail: seq<ApiCall>)
    requires Progressed(plan, failure, done, rest, true) && rest == [c] + tail
    ensures Progressed(plan, failure, done + [c], tail, !(failure.Some? && failure.value.at == |done|))
  {
    assert done + [c] + tail == done + rest;
  }

  /** The start plan, with the calls still due after each step spelled out. */
  lemma StartPlanSteps(options: BotCreationOptions, menu: seq<BotCommand>, session: nat)
    ensures StartPlan(options, menu, session)
      == [RegisterBot(options.token)] + ([SetMyCommands(menu)]
        + (NameCall(options) + (DescriptionCall(options) + (ShortDescriptionCall(options) + [SessionStart(session)]))))
  {
  }

  /** Once a call raised, or nothing is due any more, what was called is the attempted plan. */
  lemma Settled(plan: seq<ApiCall>, failure: Option<ApiFailure>, done: seq<ApiCall>, rest: seq<ApiCall>, ok: bool)
    requires Progressed(plan, failure, done, rest, ok) && (ok ==> rest == [])
    ensures Attempted(plan, failure) == done
    ensures Aborts(plan, failure) <==> !ok
  {
    if ok {
      assert plan == done;
    } else {
      assert plan[..failure.value.at + 1] == done;
    }
  }

  /** What `start` calls when nothing fails. */
  function StartPlan(options: BotCreationOptions, menu: seq<BotCommand>, session: nat): seq<ApiCall> {
    [RegisterBot(options.token), SetMyCommands(menu)] + MetadataCalls(options) + [SessionStart(session)]
  }

  /** What `stop` calls when nothing fails. */
  function StopPlan(session: nat, token: string): seq<ApiCall> {
    [SessionStop(session), DeleteMyCommands, UnregisterBot(token)]
  }

  /**
   * `start` registers first, then always sends the menu, then each configured metadata
   * field, and starts the session last; a field is sent exactly when it is configured.
   */
  lemma StartPlanOrder(options: BotCreationOptions, menu: seq<BotCommand>, session: nat)
    ensures var plan := StartPlan(options, menu, session);
      && plan[0] == RegisterBot(options.token)
      && plan[1] == SetMyCommands(menu)
      && plan[|plan| - 1] == SessionStart(session)
      && (forall n :: SetMyName(n) in plan <==> options.botName == Some(n))
      && (forall d :: SetMyDescription(d) in plan <==> options.botDescription == Some(d))
      && (forall d :: SetMyShortDescription(d) in plan <==> options.botShortDescription == Some(d))
  {
    var plan := StartPlan(options, menu, session);
    var meta := MetadataCalls(options);
    assert plan == [RegisterBot(options.token), SetMyCommands(menu)] + meta + [SessionStart(session)];
    forall n ensures SetMyName(n) in plan <==> options.botName == Some(n) {
      if SetMyName(n) in plan {
        assert SetMyName(n) in meta;
        assert SetMyName(n) in NameCall(options);
      }
    }
    forall d ensures SetMyDescription(d) in plan <==> options.botDescription == Some(d) {
      if SetMyDescription(d) in plan {
        assert SetMyDescription(d) in meta;
        assert SetMyDescription(d) in DescriptionCall(options);
      }
    }
    forall d ensures SetMyShortDescription(d) in plan <==> options.botShortDescription == Some(d) {
      if SetMyShortDescription(d) in plan {
        assert SetMyShortDescription(d) in meta;
        assert SetMyShortDescription(d) in ShortDescriptionCall(options);
      }
    }
  }

  /** The metadata calls only ever set the name, the description or the short description. */
  lemma MetadataCallsOnlySet(options: BotCreationOptions)
    ensures forall c :: c in MetadataCalls(options) ==> c.SetMyName? || c.SetMyDescription? || c.SetMyShortDescription?
  {
  }

  /** Below a prefix without the element, only the last four entries count. */
  lemma CountLastFour<T>(prefix: seq<T>, a: T, b: T, c: T, d: T, x: T)
    requires x !in prefix
    ensures Count(prefix + [a, b, c, d], x)
      == (if a == x then 1 else 0) + (if b == x then 1 else 0) + (if c == x then 1 else 0) + (if d == x then 1 else 0)
  {
    assert [a, b, c, d] == [a, b] + [c, d];
    CountAppend(prefix, [a, b, c, d], x);
    CountAppend([a, b], [c, d], x);
    CountPair(a, b, x);
    CountPair(c, d, x);
  }

  /**
   * A completed `start` followed by `stop` starts and stops the session once, clears the
   * menu once and unregisters the token once.
   */
  lemma StartThenStopReleasesOnce(options: BotCreationOptions, menu: seq<BotCommand>, session: nat)
    ensures var calls := StartPlan(options, menu, session) + StopPlan(session, options.token);
      && Count(calls, SessionStart(session)) == 1
      && Count(calls, SessionStop(session)) == 1
      && Count(calls, DeleteMyCommands) == 1
      && Count(calls, UnregisterBot(options.token)) == 1
  {
    var prefix := [RegisterBot(options.token), SetMyCommands(menu)] + MetadataCalls(options);
    var a, b, c, d := SessionStart(session), SessionStop(session), DeleteMyCommands, UnregisterBot(options.token);
    var calls := StartPlan(options, menu, session) + StopPlan(session, options.token);
    assert calls == prefix + [a, b, c, d];
    MetadataCallsOnlySet(options);
    assert a !in prefix && b !in prefix && c !in prefix && d !in prefix;
    assert Count(calls, a) == 1 by { CountLastFour(prefix, a, b, c, d, a); }
    assert Count(calls, b) == 1 by { CountLastFour(prefix, a, b, c, d, b); }
    assert Count(calls, c) == 1 by { CountLastFour(prefix, a, b, c, d, c); }
    assert Count(calls, d) == 1 by { CountLastFour(prefix, a, b, c, d, d); }
  }

  const StartedMessage: string := "Bot started successfully!"
  const StoppedMessage: string := "Bot stopped successfully!"
  const StartErrorPrefix: string := "There was an error starting the bot: "
  const StopErrorPrefix: string := "There was an error stopping the bot: "

  // ---------------------------------------------------------------------------
  // The bot

  class LongPollingBot {
    const options: BotCreationOptions
    const logger: Logger
    /** The companion command list the command handle reads. */
    const commands: CommandList
    const commandManager: CommandManager
    var listeners: seq<Listener>
    /** `lateinit botSession`: `None` until a registration succeeds. */
    var session: Option<nat>
    /** Sessions handed out so far; the next registration yields this number. */
    var sessionsCreated: nat
    /** Every outbound call made so far, in order. */
    var calls: seq<ApiCall>

    /** Listener 0 is the command handle over the shared list; every other one is user code. */
    ghost predicate Valid()
      reads this`listeners
    {
      && |listeners| >= 1
      && listeners[0] == CommandHandle
      && (forall i :: 1 <= i < |listeners| ==> listeners[i].UserListener?)
      && commandManager.list == commands
      && commandManager.handle.list == commands
      && commandManager.logger == logger
    }

    constructor (options: BotCreationOptions, commands: CommandList)
      ensures Valid()
      ensures this.options == options && this.commands == commands
      ensures listeners == [CommandHandle]
      ensures session.None? && sessionsCreated == 0 && calls == []
      ensures fresh(logger) && logger.lines == []
    {
      this.options := options;
      this.commands := commands;
      var logger := new Logger(options.loggerName);
      this.logger := logger;
      commandManager := new CommandManager(commands, logger);
      listeners := [CommandHandle];
      session := None;
      sessionsCreated := 0;
      calls := [];
    }

    /** `addListener(vararg listener)`: appends the given listeners in order. */
    method AddListener(ids: seq<nat>)
      requires Valid()
      modifies this`listeners
      ensures Valid()
      ensures |listeners| == |old(listeners)| + |ids|
      ensures listeners[..|old(listeners)|] == old(listeners)
      ensures forall j :: 0 <= j < |ids| ==> listeners[|old(listeners)| + j] == UserListener(ids[j])
    {
      var added := seq(|ids|, j requires 0 <= j < |ids| => UserListener(ids[j]));
      listeners := listeners + added;
      assert listeners[..|old(listeners)|] == old(listeners);
    }

    /** `getListeners()`: a fresh copy, so changing it leaves the bot's list as it was. */
    method GetListeners() returns (copy: array<Listener>)
      ensures fresh(copy) && copy[..] == listeners
    {
      copy := new Listener[|listeners|];
      for i := 0 to |listeners|
        invariant copy[..i] == listeners[..i]
      {
        copy[i] := listeners[i];
      }
    }

    /** One outbound call that raises when it is the `k`th call and `failure` names position `k`. */
    method Execute(c: ApiCall, k: nat, failure: Option<ApiFailure>) returns (ok: bool)
      modifies this`calls
      ensures calls == old(calls) + [c]
      ensures ok <==> !(failure.Some? && failure.value.at == k)
    {
      calls := calls + [c];
      ok := !(failure.Some? && failure.value.at == k);
    }

    /** Makes the next due call of a plan; it raises when the failure names its position `k`. */
    method Send(c: ApiCall, k: nat, failure: Option<ApiFailure>, ghost plan: seq<ApiCall>, ghost done: seq<ApiCall>, ghost tail: seq<ApiCall>)
      returns (ok: bool)
      requires Progressed(plan, failure, done, [c] + tail, true) && k == |done|
      modifies this`calls
      ensures calls == old(calls) + [c]
      ensures Progressed(plan, failure, done + [c], tail, ok)
    {
      ok := Execute(c, k, failure);
      Proceed(plan, failure, done, [c] + tail, c, tail);
    }

    /**
     * `if (value != null) execute(...)`: the optional call `cs` (none or one) is made when
     * present, after `done + sent` of the plan.
     */
    method SendConfigured(cs: seq<ApiCall>, k: nat, failure: Option<ApiFailure>,
                          ghost plan: seq<ApiCall>, ghost done: seq<ApiCall>, ghost sent: seq<ApiCall>, ghost tail: seq<ApiCall>)
      returns (ok: bool)
      requires |cs| <= 1 && Progressed(plan, failure, done + sent, cs + tail, true) && k == |done + sent|
      modifies this`calls
      ensures calls == old(calls) + cs
      ensures Progressed(plan, failure, done + (sent + cs), tail, ok)
    {
      assert done + sent + cs == done + (sent + cs);
      if cs == [] {
        ok := true;
        assert cs + tail == tail && done + sent + cs == done + sent;
      } else {
        assert cs == [cs[0]];
        ok := Send(cs[0], k, failure, plan, done + sent, tail);
      }
    }

    /**
     * The end of `start` and `stop`: the success line when every call went through, or, in
     * the `catch (TelegramApiException)`, the error line with the exception's message.
     */
    method Finish(ok: bool, successMessage: string, errorPrefix: string, failure: Option<ApiFailure>,
                  ghost plan: seq<ApiCall>, ghost done: seq<ApiCall>, ghost rest: seq<ApiCall>)
      returns (outcome: Outcome)
      requires Progressed(plan, failure, done, rest, ok) && (ok ==> rest == [])
      modifies logger
      ensures Attempted(plan, failure) == done
      ensures outcome == (if Aborts(plan, failure) then ApiErrorLogged(failure.value.message) else Completed)
      ensures logger.lines == old(logger.lines)
        + [if Aborts(plan, failure) then ErrorLine(errorPrefix + failure.value.message) else InfoLine(successMessage)]
    {
      Settled(plan, failure, done, rest, ok);
      if ok {
        logger.Info(successMessage);
        outcome := Completed;
      } else {
        logger.Error(errorPrefix + failure.value.message);
        outcome := ApiErrorLogged(failure.value.message);
      }
    }

    /**
     * The three `if (value != null) execute(...)` of `start()`: the configured name,
     * description and short description, in that order. Stops at the call that raises.
     */
    method SendMetadata(k: nat, failure: Option<ApiFailure>, ghost plan: seq<ApiCall>, ghost done: seq<ApiCall>, ghost tail: seq<ApiCall>)
      returns (ok: bool, ghost sent: seq<ApiCall>, ghost rest: seq<ApiCall>)
      requires Progressed(plan, failure, done,
        NameCall(options) + (DescriptionCall(options) + (ShortDescriptionCall(options) + tail)), true)
      requires k == |done|
      modifies this`calls
      ensures calls == old(calls) + sent
      ensures Progressed(plan, failure, done + sent, rest, ok) && (ok ==> sent == MetadataCalls(options) && rest == tail)
    {
      ghost var afterDescription := ShortDescriptionCall(options) + tail;
      ghost var afterName := DescriptionCall(options) + afterDescription;
      assert done + [] == done;
      sent := [];
      var j := k;
      ok := SendConfigured(NameCall(options), j, failure, plan, done, sent, afterName);
      sent, rest, j := sent + NameCall(options), afterName, j + |NameCall(options)|;
      if !ok {
        return;
      }
      ok := SendConfigured(DescriptionCall(options), j, failure, plan, done, sent, afterDescription);
      sent, rest, j := sent + DescriptionCall(options), afterDescription, j + |DescriptionCall(options)|;
      if !ok {
        return;
      }
      ok := SendConfigured(ShortDescriptionCall(options), j, failure, plan, done, sent, tail);
      sent, rest := sent + ShortDescriptionCall(options), tail;
    }

    /**
     * The part of `start()`'s `try` after the registration: the menu, then each configured
     * name and description, then the session start.
     */
    method PublishAndStartSession(menu: seq<BotCommand>, id: nat, failure: Option<ApiFailure>, ghost plan: seq<ApiCall>, ghost done: seq<ApiCall>)
      returns (ok: bool, ghost sent: seq<ApiCall>, ghost rest: seq<ApiCall>)
      requires Progressed(plan, failure, done, [SetMyCommands(menu)]
        + (NameCall(options) + (DescriptionCall(options) + (ShortDescriptionCall(options) + [SessionStart(id)]))), true)
      requires |done| == 1
      modifies this`calls
      ensures calls == old(calls) + sent
      ensures Progressed(plan, failure, done + sent, rest, ok) && (ok ==> rest == [])
    {
      ghost var afterMenu := NameCall(options) + (DescriptionCall(options) + (ShortDescriptionCall(options) + [SessionStart(id)]));
      ok := Send(SetMyCommands(menu), 1, failure, plan, done, afterMenu);
      sent, rest := [SetMyCommands(menu)], afterMenu;
      if !ok {
        return;
      }
      ghost var meta;
      ok, meta, rest := SendMetadata(2, failure, plan, done + sent, [SessionStart(id)]);
      assert done + sent + meta == done + (sent + meta);
      sent := sent + meta;
      if !ok {
        return;
      }
      ok := Send(SessionStart(id), 2 + |MetadataCalls(options)|, failure, plan, done + sent, []);
      assert done + sent + [SessionStart(id)] == done + (sent + [SessionStart(id)]);
      sent, rest := sent + [SessionStart(id)], [];
    }

    /**
     * `start()`: registers the bot, sends the menu of valid commands, sends each configured
     * name and description, starts the session and logs success. A `TelegramApiException`
     * stops the sequence where it is raised and is only logged.
     */
    method Start(failure: Option<ApiFailure>) returns (outcome: Outcome)
      requires Valid()
      modifies this`calls, this`session, this`sessionsCreated, logger
      ensures Valid()
      ensures var plan := StartPlan(options, ValidMenu(commands.commands), old(sessionsCreated));
        && calls == old(calls) + Attempted(plan, failure)
        && outcome == (if Aborts(plan, failure) then ApiErrorLogged(failure.value.message) else Completed)
        && logger.lines == old(logger.lines)
          + [if Aborts(plan, failure) then ErrorLine(StartErrorPrefix + failure.value.message) else InfoLine(StartedMessage)]
      ensures failure.Some? && failure.value.at == 0 ==> session == old(session) && sessionsCreated == old(sessionsCreated)
      ensures !(failure.Some? && failure.value.at == 0) ==> session == Some(old(sessionsCreated)) && sessionsCreated == old(sessionsCreated) + 1
    {
      var id := sessionsCreated;
      ghost var plan := StartPlan(options, ValidMenu(commands.commands), id);
      ghost var afterRegister := [SetMyCommands(ValidMenu(commands.commands))]
        + (NameCall(options) + (DescriptionCall(options) + (ShortDescriptionCall(options) + [SessionStart(id)])));
      StartPlanSteps(options, ValidMenu(commands.commands), id);

      var ok := Send(RegisterBot(options.token), 0, failure, plan, [], afterRegister);
      ghost var done := [RegisterBot(options.token)];
      ghost var rest := afterRegister;
      assert calls == old(calls) + done;
      if ok {
        session := Some(id);
        sessionsCreated := id + 1;
        var menu := CommandsToSend(commands.commands);
        ghost var sent;
        ok, sent, rest := PublishAndStartSession(menu, id, failure, plan, done);
        assert calls == old(calls) + done + sent == old(calls) + (done + sent);
        done := done + sent;
      }
      assert calls == old(calls) + done;
      outcome := Finish(ok, StartedMessage, StartErrorPrefix, failure, plan, done, rest);
    }

    /**
     * `stop()`: stops the session, deletes the command menu, unregisters the token and logs
     * success; a `TelegramApiException` stops the sequence and is only logged. Without a
     * prior successful registration the `lateinit` session is unset and the access throws
     * before any call is made.
     */
    method Stop(failure: Option<ApiFailure>) returns (outcome: Outcome)
      requires Valid()
      modifies this`calls, logger
      ensures Valid()
      ensures old(session).None? ==>
        calls == old(calls) && logger.lines == old(logger.lines) && outcome == UninitializedSession
      ensures old(session).Some? ==>
        var plan := StopPlan(old(session).value, options.token);
        && calls == old(calls) + Attempted(plan, failure)
        && outcome == (if Aborts(plan, failure) then ApiErrorLogged(failure.value.message) else Completed)
        && logger.lines == old(logger.lines)
          + [if Aborts(plan, failure) then ErrorLine(StopErrorPrefix + failure.value.message) else InfoLine(StoppedMessage)]
    {
      if session.None? {
        return UninitializedSession;
      }
      ghost var plan := StopPlan(session.value, options.token);
      var ok := Execute(SessionStop(session.value), 0, failure);
      if ok {
        ok := Execute(DeleteMyCommands, 1, failure);
        if ok {
          ok := Execute(UnregisterBot(options.token), 2, failure);
        }
      }
      if !ok {
        assert Attempted(plan, failure) == plan[..failure.value.at + 1];
        logger.Error(StopErrorPrefix + failure.value.message);
        return ApiErrorLogged(failure.value.message);
      }
      logger.Info(StoppedMessage);
      outcome := Completed;
    }
  }

  // ---------------------------------------------------------------------------
  // The consumer

  /** `Consumer`: receives batches and routes their updates one at a time on its single worker. */
  class Consumer {
    const bot: LongPollingBot
    /** Updates handed to the single-thread executor and not yet routed, oldest first. */
    var queue: seq<Update>
    /** Everything routing has made observable so far. */
    var trace: seq<Event>

    constructor (bot: LongPollingBot)
      ensures this.bot == bot && queue == [] && trace == []
    {
      this.bot := bot;
      queue := [];
      trace := [];
    }

    /** `consume(updates)`: hands every update of the batch to the executor, in order. */
    method Consume(updates: seq<Update>)
      modifies this`queue
      ensures queue == old(queue) + updates
    {
      for i := 0 to |updates|
        invariant queue == old(queue) + updates[..i]
      {
        queue := queue + [updates[i]];
        assert updates[..i + 1] == updates[..i] + [updates[i]];
      }
      assert updates[..|updates|] == updates;
    }

    /** `afterUpdate(update, type, listener)`: the hook fires, then the line is logged if enabled. */
    method AfterUpdateHook(u: Update, route: Route, listener: Option<nat>)
      modifies this`trace, bot.logger
      ensures trace == old(trace) + [AfterUpdate(u.updateId, route, listener)]
      ensures bot.logger.lines == old(bot.logger.lines)
        + (if bot.options.logUpdates then [InfoLine(UpdateLogLine(u.updateId, TypeLabel(route)))] else [])
    {
      trace := trace + [AfterUpdate(u.updateId, route, listener)];
      if bot.options.logUpdates {
        bot.logger.Info(UpdateLogLine(u.updateId, TypeLabel(route)));
      }
    }

    /** The command path of `consume(update)`: the handle's `onMessage`, then `afterUpdate` with the null listener. */
    method CommandPath(u: Update)
      requires bot.Valid() && IsCommandUpdate(u)
      modifies this`trace, bot.logger
      ensures var ev := CommandEvents(u, bot.commands.commands);
        && trace == old(trace) + ev
        && bot.logger.lines == old(bot.logger.lines) + (if bot.options.logUpdates then LogLines(ev) else [])
    {
      trace := trace + [Called(MessageKind, 0)];
      var invoked := bot.commandManager.handle.OnMessage(u.message.value);
      if invoked.Some? {
        trace := trace + [CommandRan(invoked.value)];
      }
      AfterUpdateHook(u, CommandRoute, None);
      CommandEventsLog(u, bot.commands.commands);
    }

    /** The listener loop of `consume(update)`: listeners 1.. in order, each for the update's first kind. */
    method ListenerLoop(u: Update)
      requires bot.Valid()
      modifies this`trace, bot.logger
      ensures var ev := Broadcast(u, |bot.listeners|);
        && trace == old(trace) + ev
        && bot.logger.lines == old(bot.logger.lines) + (if bot.options.logUpdates then LogLines(ev) else [])
    {
      var listeners := bot.listeners;
      for i := 1 to |listeners|
        invariant trace == old(trace) + Broadcast(u, i)
        invariant bot.logger.lines == old(bot.logger.lines)
          + (if bot.options.logUpdates then LogLines(Broadcast(u, i)) else [])
      {
        match Classify(u)
        case None =>
        case Some(k) =>
          ghost var t1, l1 := trace, bot.logger.lines;
          trace := trace + [Called(k, i)];
          AfterUpdateHook(u, KindRoute(k), Some(i));
          ghost var step := [Called(k, i), AfterUpdate(u.updateId, KindRoute(k), Some(i))];
          CallbackLog(step[0], u, KindRoute(k), Some(i));
          RecordedInTurn(Broadcast(u, i), step, bot.options.logUpdates,
            old(trace), old(bot.logger.lines), t1, l1, trace, bot.logger.lines);
          BroadcastStep(u, k, i);
      }
    }

    /**
     * `consume(update)`: the command path when the update is a `/` message, then, unless
     * the command path returned, the listener loop.
     */
    method ConsumeUpdate(u: Update)
      requires bot.Valid()
      modifies this`trace, bot.logger
      ensures var ev := RouteEvents(u, |bot.listeners|, bot.commands.commands, bot.options.runCommandsThroughOnMessage);
        && trace == old(trace) + ev
        && bot.logger.lines == old(bot.logger.lines) + (if bot.options.logUpdates then LogLines(ev) else [])
    {
      ghost var n, cmds, log := |bot.listeners|, bot.commands.commands, bot.options.logUpdates;
      ghost var head: seq<Event> := [];
      RouteEventsParts(u, n, cmds, bot.options.runCommandsThroughOnMessage);
      if IsCommandUpdate(u) {
        CommandPath(u);
        head := CommandEvents(u, cmds);
        if !bot.options.runCommandsThroughOnMessage {
          assert head + [] == head;
          return;
        }
      }
      assert trace == old(trace) + head;
      ghost var t1, l1 := trace, bot.logger.lines;
      ListenerLoop(u);
      RecordedInTurn(head, Broadcast(u, n), log,
        old(trace), old(bot.logger.lines), t1, l1, trace, bot.logger.lines);
    }

    /** The single worker drains the queue, routing one update at a time in arrival order. */
    method RunQueued()
      requires bot.Valid()
      modifies this`queue, this`trace, bot.logger
      ensures queue == []
      ensures var ev := RouteAll(old(queue), |bot.listeners|, bot.commands.commands, bot.options.runCommandsThroughOnMessage);
        && trace == old(trace) + ev
        && bot.logger.lines == old(bot.logger.lines) + (if bot.options.logUpdates then LogLines(ev) else [])
    {
      ghost var all := queue;
      ghost var n := |bot.listeners|;
      ghost var cmds := bot.commands.commands;
      ghost var run := bot.options.runCommandsThroughOnMessage;
      var done := 0;
      while queue != []
        invariant done <= |all| && queue == all[done..]
        invariant trace == old(trace) + RouteAll(all[..done], n, cmds, run)
        invariant bot.logger.lines == old(bot.logger.lines)
          + (if bot.options.logUpdates then LogLines(RouteAll(all[..done], n, cmds, run)) else [])
        decreases |queue|
      {
        ghost var t1, l1 := trace, bot.logger.lines;
        var u := queue[0];
        queue := queue[1..];
        ConsumeUpdate(u);
        RouteAllStep(all, done, n, cmds, run);
        RecordedInTurn(RouteAll(all[..done], n, cmds, run), RouteEvents(u, n, cmds, run), bot.options.logUpdates,
          old(trace), old(bot.logger.lines), t1, l1, trace, bot.logger.lines);
        done := done + 1;
      }
      assert all[..done] == all;
    }
  }
}
