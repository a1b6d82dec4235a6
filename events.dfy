/**
 * The vocabulary of a dispatch: configuration, the inbound message and the
 * platform objects it resolves, the per-dispatch context, the error
 * classification, and the observable calls a dispatch makes.
 */
module Events {
  import opened Wrappers
  import opened Registry

  /** The error classification handed to the error callback, in declaration order. */
  datatype ErrorType =
    | ErrTypGuildPrefixGetter
    | ErrTypGetChannel
    | ErrTypGetGuild
    | ErrTypCommandNotFound
    | ErrTypNotExecutableInDM
    | ErrTypMiddleware
    | ErrTypCommandExec
    | ErrTypDeleteCommandMessage

  /** An error value: one of the handler's own two sentinels, or one passed on from a collaborator. */
  datatype Error = ErrCommandNotFound | ErrCommandNotExecutableInDMs | Reported(message: string)

  /** The settings the handler was created with (the two callbacks are modelled apart). */
  datatype Config = Config(
    generalPrefix: string,
    spaceAfterPrefix: bool,
    invokeToLower: bool,
    allowDM: bool,
    allowBots: bool,
    executeOnEdit: bool,
    useDefaultHelpCommand: bool,
    deleteMessageAfter: bool)

  datatype User = User(id: string, bot: bool)

  /** An inbound message; a missing author is a nil pointer in the source. */
  datatype Message = Message(id: string, channelID: string, guildID: string, content: string, author: Option<User>)

  /** The platform's channel type codes for direct and group direct messages. */
  const ChannelTypeDM: int := 1
  const ChannelTypeGroupDM: int := 3

  datatype Channel = Channel(id: string, channelType: int)

  datatype Guild = Guild(id: string)

  predicate IsDMChannel(ch: Channel) {
    ch.channelType == ChannelTypeDM || ch.channelType == ChannelTypeGroupDM
  }

  /**
   * The per-dispatch context as far as it has been filled in; fields the
   * dispatch has not reached yet are absent (nil in the source).
   */
  datatype Context = Context(
    message: Message,
    isEdit: bool,
    channel: Option<Channel>,
    isDM: bool,
    guild: Option<Guild>,
    args: Option<seq<string>>)

  /** The type of middleware layer masks. */
  type MiddlewareLayer = bv64

  /**
   * The observable calls of one dispatch, in order: the guild prefix getter,
   * the channel and guild lookups, each middleware handler, the command, the
   * message deletion and the error callback. Panicked marks a run-time panic.
   */
  datatype Event =
    | GuildPrefixRequested(guildID: string)
    | ChannelRequested(channelID: string)
    | GuildRequested(guildID: string)
    | MiddlewareHandled(index: nat, layer: MiddlewareLayer, cmd: Command, ctx: Context)
    | CommandExecuted(cmd: Command, ctx: Context)
    | MessageDeleted(channelID: string, messageID: string)
    | ErrorReported(ctx: Context, kind: ErrorType, err: Error)
    | Panicked
}
