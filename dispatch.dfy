/**
 * The processing of one inbound message, as the sequence of observable
 * calls it makes. The collaborators (the session's state cache and REST
 * client, the guild prefix getter, each middleware, the command and the
 * message deletion) are oracles: their answers for this message are given
 * up front in a Platform value.
 */
module Dispatch {
  import opened Wrappers
  import opened Registry
  import opened Events
  import opened Tokenizer
  import opened Invocation
  import opened Pipeline

  /** What the collaborators answer while this message is processed. */
  datatype Platform = Platform(
    selfID: string,                   // the bot's own user ID
    guildPrefix: Result<string, Error>,  // the guild prefix getter, for the message's guild
    stateChannel: Option<Channel>,    // the state cache's channel, if cached
    restChannel: Result<Channel, Error>, // the REST channel lookup
    stateGuild: Option<Guild>,
    restGuild: Result<Guild, Error>,
    before: nat -> HandleResult,      // middleware k's answer on the before layer
    after: nat -> HandleResult,       // middleware k's answer on the after layer
    exec: Option<Error>,              // the command's result
    delete: Option<Error>)            // the message deletion's result

  /** The state cache first, the REST client when the cache has nothing. */
  function Lookup<T>(cached: Option<T>, fetched: Result<T, Error>): (r: Result<T, Error>)
    ensures r.Success? <==> cached.Some? || fetched.Success?
    ensures cached.Some? ==> r.Success? && r.value == cached.value
    ensures cached.None? && fetched.Failure? ==> r.error == fetched.error
    ensures cached.None? ==> r == fetched
  {
    if cached.Some? then Success(cached.value) else fetched
  }

  /** The early filters: no author, the bot itself, fewer than two characters, a disallowed bot. */
  predicate Filtered(cfg: Config, selfID: string, msg: Message) {
    || msg.author.None?
    || msg.author.value.id == selfID
    || |msg.content| < 2
    || (!cfg.allowBots && msg.author.value.bot)
  }

  /**
   * The prefix the message is taken to use: the general prefix when the
   * content starts with it; otherwise the guild prefix when the getter
   * answers a non-empty one that the content starts with; otherwise none ("").
   */
  function SelectPrefix(cfg: Config, content: string, guildPrefix: Result<string, Error>): (r: Result<string, Error>)
    ensures r.Failure? <==> !StartsWith(content, cfg.generalPrefix) && guildPrefix.Failure?
    ensures r.Success? && r.value != "" ==> StartsWith(content, r.value)
    ensures r.Success? && r.value != cfg.generalPrefix ==> guildPrefix.Success? && (r.value == "" || r.value == guildPrefix.value)
    ensures StartsWith(content, cfg.generalPrefix) ==> r == Success(cfg.generalPrefix)
    ensures (!StartsWith(content, cfg.generalPrefix) && guildPrefix.Success? &&
             guildPrefix.value != "" && StartsWith(content, guildPrefix.value)) ==> r == guildPrefix
    ensures (!StartsWith(content, cfg.generalPrefix) && guildPrefix.Success? &&
             (guildPrefix.value == "" || !StartsWith(content, guildPrefix.value))) ==> r == Success("")
  {
    if StartsWith(content, cfg.generalPrefix) then Success(cfg.generalPrefix)
    else if guildPrefix.Failure? then Failure(guildPrefix.error)
    else if guildPrefix.value != "" && StartsWith(content, guildPrefix.value) then Success(guildPrefix.value)
    else Success("")
  }

  /** The context as it is when processing starts. */
  function InitialContext(msg: Message, isEdit: bool): Context {
    Context(msg, isEdit, None, false, None, None)
  }

  /** The message handler: the calls made for message msg. */
  function HandleMessage(cfg: Config, cmdMap: map<string, Command>, mws: seq<Middleware>, p: Platform, msg: Message, isEdit: bool): seq<Event> {
    if Filtered(cfg, p.selfID, msg) then []
    else
      var ctx := InitialContext(msg, isEdit);
      var asked := if StartsWith(msg.content, cfg.generalPrefix) then [] else [GuildPrefixRequested(msg.guildID)];
      match SelectPrefix(cfg, msg.content, p.guildPrefix)
      case Failure(e) => asked + [ErrorReported(ctx, ErrTypGuildPrefixGetter, e)]
      case Success(usedPrefix) => asked + Resolve(cfg, cmdMap, mws, p, ctx, usedPrefix)
  }

  /** With a prefix in use: look up the channel and classify it. */
  function Resolve(cfg: Config, cmdMap: map<string, Command>, mws: seq<Middleware>, p: Platform, ctx: Context, usedPrefix: string): seq<Event> {
    if usedPrefix == "" then []
    else
      [ChannelRequested(ctx.message.channelID)] +
      match Lookup(p.stateChannel, p.restChannel)
      case Failure(e) => [ErrorReported(ctx, ErrTypGetChannel, e)]
      case Success(ch) => Locate(cfg, cmdMap, mws, p, ctx.(channel := Some(ch), isDM := IsDMChannel(ch)), usedPrefix)
  }

  /** Drop disallowed direct messages; outside direct messages, look up the guild. */
  function Locate(cfg: Config, cmdMap: map<string, Command>, mws: seq<Middleware>, p: Platform, ctx: Context, usedPrefix: string): seq<Event> {
    if !cfg.allowDM && ctx.isDM then []
    else if ctx.isDM then Run(cfg, cmdMap, mws, p, ctx, usedPrefix)
    else
      [GuildRequested(ctx.message.guildID)] +
      match Lookup(p.stateGuild, p.restGuild)
      case Failure(e) => [ErrorReported(ctx, ErrTypGetGuild, e)]
      case Success(g) => Run(cfg, cmdMap, mws, p, ctx.(guild := Some(g)), usedPrefix)
  }

  /** Tokenize and split off the invoke and the arguments. */
  function Run(cfg: Config, cmdMap: map<string, Command>, mws: seq<Middleware>, p: Platform, ctx: Context, usedPrefix: string): seq<Event> {
    match SplitInvocation(Tokenize(ctx.message.content), usedPrefix, cfg.spaceAfterPrefix)
    case None => [Panicked]
    case Some(inv) =>
      FindAndExecute(cfg, cmdMap, mws, p, ctx.(args := Some(inv.args)), inv.invoke)
  }

  /** Find the command for the invoke and check that it may run in this channel. */
  function FindAndExecute(cfg: Config, cmdMap: map<string, Command>, mws: seq<Middleware>, p: Platform, ctx: Context, invoke: string): seq<Event> {
    match GetCommand(cmdMap, cfg.invokeToLower, invoke)
    case None => [ErrorReported(ctx, ErrTypCommandNotFound, ErrCommandNotFound)]
    case Some(cmd) =>
      if ctx.isDM && !cmd.executableInDM then [ErrorReported(ctx, ErrTypNotExecutableInDM, ErrCommandNotExecutableInDMs)]
      else Execute(cfg, mws, p, cmd, ctx)
  }

  /** The before layer, the command, the after layer and the deletion of the message. */
  function Execute(cfg: Config, mws: seq<Middleware>, p: Platform, cmd: Command, ctx: Context): seq<Event> {
    var b := RunLayer(mws, LayerBeforeCommand, p.before, cmd, ctx);
    if !b.ok then b.events
    else
      b.events + [CommandExecuted(cmd, ctx)] + AfterCommand(cfg, mws, p, cmd, ctx)
  }

  /** After the command: its error, or the after layer followed by the cleanup. */
  function AfterCommand(cfg: Config, mws: seq<Middleware>, p: Platform, cmd: Command, ctx: Context): seq<Event> {
    match p.exec
    case Some(e) => [ErrorReported(ctx, ErrTypCommandExec, e)]
    case None =>
      var a := RunLayer(mws, LayerAfterCommand, p.after, cmd, ctx);
      if !a.ok then a.events
      else a.events + Cleanup(cfg, p, ctx)
  }

  function Cleanup(cfg: Config, p: Platform, ctx: Context): seq<Event> {
    if !cfg.deleteMessageAfter then []
    else
      [MessageDeleted(ctx.message.channelID, ctx.message.id)] +
      match p.delete
      case Some(e) => [ErrorReported(ctx, ErrTypDeleteCommandMessage, e)]
      case None => []
  }
}
