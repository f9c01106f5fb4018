/**
 * The values the bot core exchanges with the Telegram library: inbound updates,
 * the eighteen update kinds a listener can react to, the listener list entries,
 * the bot's creation options and the outbound API calls it issues.
 */
module TelegramApi {
  import opened Wrappers

  /** Opaque payloads (callback queries, polls, ...): only their identity matters here. */
  type Payload = nat

  datatype Message = Message(messageId: nat, text: Option<string>)

  /**
   * An inbound update: one optional field per kind. Nothing forces exactly one of
   * them to be present; the router picks the first present one by priority.
   */
  datatype Update = Update(
    updateId: int,
    businessConnection: Option<Payload>,
    businessMessage: Option<Message>,
    callbackQuery: Option<Payload>,
    channelPost: Option<Message>,
    chatJoinRequest: Option<Payload>,
    chatMember: Option<Payload>,
    chosenInlineQuery: Option<Payload>,
    deletedBusinessMessages: Option<Payload>,
    editedBusinessMessage: Option<Message>,
    editedChannelPost: Option<Message>,
    editedMessage: Option<Message>,
    inlineQuery: Option<Payload>,
    message: Option<Message>,
    myChatMember: Option<Payload>,
    poll: Option<Payload>,
    pollAnswer: Option<Payload>,
    preCheckoutQuery: Option<Payload>,
    shippingQuery: Option<Payload>)

  /** The eighteen callbacks of a listener, in the order the router tests them. */
  datatype Kind =
    | BusinessConnection | BusinessMessage | CallbackQuery | ChannelPost | ChatJoinRequest | ChatMember
    | ChosenInlineQuery | DeletedBusinessMessage | EditedBusinessMessage | EditedChannelPost | EditedMessage
    | InlineQuery | MessageKind | MyChatMember | Poll | PollAnswer | PreCheckoutQuery | ShippingQuery

  /** Whether the update carries the field of kind `k` (the library's `hasX()`). */
  predicate Has(u: Update, k: Kind) {
    match k
    case BusinessConnection => u.businessConnection.Some?
    case BusinessMessage => u.businessMessage.Some?
    case CallbackQuery => u.callbackQuery.Some?
    case ChannelPost => u.channelPost.Some?
    case ChatJoinRequest => u.chatJoinRequest.Some?
    case ChatMember => u.chatMember.Some?
    case ChosenInlineQuery => u.chosenInlineQuery.Some?
    case DeletedBusinessMessage => u.deletedBusinessMessages.Some?
    case EditedBusinessMessage => u.editedBusinessMessage.Some?
    case EditedChannelPost => u.editedChannelPost.Some?
    case EditedMessage => u.editedMessage.Some?
    case InlineQuery => u.inlineQuery.Some?
    case MessageKind => u.message.Some?
    case MyChatMember => u.myChatMember.Some?
    case Poll => u.poll.Some?
    case PollAnswer => u.pollAnswer.Some?
    case PreCheckoutQuery => u.preCheckoutQuery.Some?
    case ShippingQuery => u.shippingQuery.Some?
  }

  /** A registered listener: the internal command handle, or user code identified by an id. */
  datatype Listener = CommandHandle | UserListener(id: nat)

  /** An entry of the command menu pushed to Telegram. */
  datatype BotCommand = BotCommand(name: string, description: string)

  /** Immutable configuration of a bot; `None` stands for a null name or description. */
  datatype BotCreationOptions = BotCreationOptions(
    token: string,
    botName: Option<string>,
    botDescription: Option<string>,
    botShortDescription: Option<string>,
    runCommandsThroughOnMessage: bool,
    logUpdates: bool,
    loggerName: string)

  /** Calls the bot makes outward: to the long-polling application, its session, or the API client. */
  datatype ApiCall =
    | RegisterBot(token: string)
    | UnregisterBot(token: string)
    | SessionStart(session: nat)
    | SessionStop(session: nat)
    | SetMyCommands(commands: seq<BotCommand>)
    | DeleteMyCommands
    | SetMyName(name: string)
    | SetMyDescription(description: string)
    | SetMyShortDescription(shortDescription: string)
    | GetMyName
    | GetMyDescription
    | GetMyShortDescription
}
