/**
 * What each call of a dispatch implies about the message, the configuration
 * and the collaborators' earlier answers: the conditions under which the
 * message handler makes it, and how far the context handed along has been
 * filled in (the error callback may receive an incompletely initialised
 * context).
 */
module Guards {
  import opened Wrappers
  import opened Registry
  import opened Events
  import opened Tokenizer
  import opened Invocation
  import opened Pipeline
  import opened Dispatch

  /** The prefix selection settled on a non-empty prefix. */
  predicate PrefixFound(cfg: Config, p: Platform, msg: Message) {
    var s := SelectPrefix(cfg, msg.content, p.guildPrefix);
    s.Success? && s.value != ""
  }

  /** The invoke and arguments of the message under the selected prefix; None when there is no prefix or the split panics. */
  function Invoked(cfg: Config, p: Platform, msg: Message): Option<Invocation> {
    if PrefixFound(cfg, p, msg) then
      SplitInvocation(Tokenize(msg.content), SelectPrefix(cfg, msg.content, p.guildPrefix).value, cfg.spaceAfterPrefix)
    else None
  }

  /** The context once channel and guild are resolved. */
  predicate Located(cfg: Config, p: Platform, msg: Message, isEdit: bool, ctx: Context) {
    && ctx.message == msg && ctx.isEdit == isEdit
    && ctx.channel.Some? && Lookup(p.stateChannel, p.restChannel) == Success(ctx.channel.value)
    && ctx.isDM == IsDMChannel(ctx.channel.value)
    && (ctx.isDM ==> cfg.allowDM && ctx.guild.None?)
    && (!ctx.isDM ==> ctx.guild.Some? && Lookup(p.stateGuild, p.restGuild) == Success(ctx.guild.value))
  }

  /** The context once the arguments are split off too. */
  predicate Prepared(cfg: Config, p: Platform, msg: Message, isEdit: bool, ctx: Context) {
    && Located(cfg, p, msg, isEdit, ctx)
    && Invoked(cfg, p, msg).Some? && ctx.args == Some(Invoked(cfg, p, msg).value.args)
  }

  /** A prepared context and the command its invoke finds, allowed to run in it. */
  predicate Ready(cfg: Config, cmdMap: map<string, Command>, p: Platform, msg: Message, isEdit: bool, cmd: Command, ctx: Context) {
    && Prepared(cfg, p, msg, isEdit, ctx)
    && GetCommand(cmdMap, cfg.invokeToLower, Invoked(cfg, p, msg).value.invoke) == Some(cmd)
    && (ctx.isDM ==> cmd.executableInDM)
  }

  /** Every middleware subscribed to the layer lets the dispatch go on (see Pipeline.RunLayerOk). */
  predicate LayerPasses(mws: seq<Middleware>, layer: MiddlewareLayer, answers: nat -> HandleResult) {
    forall k :: 0 <= k < |mws| && Subscribed(mws[k], layer) ==> Continues(answers(k))
  }

  /**
   * The layer stopped at a subscribed middleware that answered with err: the
   * error the handler passes to the callback is that middleware's own.
   */
  predicate StoppedWith(mws: seq<Middleware>, layer: MiddlewareLayer, answers: nat -> HandleResult, err: Error) {
    && FirstStop(mws, layer, answers, 0) < |mws|
    && answers(FirstStop(mws, layer, answers, 0)).err == Some(err)
  }

  /**
   * The channel resolves and is accepted: a direct message only when those
   * are allowed, any other channel only with its guild resolved too.
   */
  predicate ChannelAccepted(cfg: Config, p: Platform) {
    && Lookup(p.stateChannel, p.restChannel).Success?
    && var dm := IsDMChannel(Lookup(p.stateChannel, p.restChannel).value);
       && (dm ==> cfg.allowDM)
       && (!dm ==> Lookup(p.stateGuild, p.restGuild).Success?)
  }

  /**
   * The message gets as far as its command: a prefix is found, the channel
   * is accepted, the split does not panic, the invoke finds a command, and
   * in a direct message that command may run there.
   */
  predicate Runnable(cfg: Config, cmdMap: map<string, Command>, p: Platform, msg: Message) {
    && PrefixFound(cfg, p, msg) && ChannelAccepted(cfg, p)
    && Invoked(cfg, p, msg).Some?
    && var found := GetCommand(cmdMap, cfg.invokeToLower, Invoked(cfg, p, msg).value.invoke);
       && found.Some?
       && (IsDMChannel(Lookup(p.stateChannel, p.restChannel).value) ==> found.value.executableInDM)
  }

  /** The command ran and returned no error: it was runnable and the before layer let it through. */
  predicate Succeeded(cfg: Config, cmdMap: map<string, Command>, mws: seq<Middleware>, p: Platform, msg: Message) {
    Runnable(cfg, cmdMap, p, msg) && LayerPasses(mws, LayerBeforeCommand, p.before) && p.exec.None?
  }

  /** A prepared context and the command its invoke finds, ready to run. */
  predicate CommandReady(cfg: Config, cmdMap: map<string, Command>, p: Platform, msg: Message, isEdit: bool, ctx: Context) {
    && Prepared(cfg, p, msg, isEdit, ctx)
    && GetCommand(cmdMap, cfg.invokeToLower, Invoked(cfg, p, msg).value.invoke).Some?
    && Ready(cfg, cmdMap, p, msg, isEdit, GetCommand(cmdMap, cfg.invokeToLower, Invoked(cfg, p, msg).value.invoke).value, ctx)
  }

  /** What an error report implies, by its error type. */
  predicate ReportGuarded(cfg: Config, cmdMap: map<string, Command>, mws: seq<Middleware>, p: Platform, msg: Message, isEdit: bool,
                          ctx: Context, kind: ErrorType, err: Error) {
    match kind
    case ErrTypGuildPrefixGetter =>
      p.guildPrefix == Failure(err) && !StartsWith(msg.content, cfg.generalPrefix) && ctx == InitialContext(msg, isEdit)
    case ErrTypGetChannel =>
      PrefixFound(cfg, p, msg) && Lookup(p.stateChannel, p.restChannel) == Failure(err) && ctx == InitialContext(msg, isEdit)
    case ErrTypGetGuild =>
      && PrefixFound(cfg, p, msg) && Lookup(p.stateGuild, p.restGuild) == Failure(err)
      && ctx.message == msg && ctx.isEdit == isEdit
      && ctx.channel.Some? && Lookup(p.stateChannel, p.restChannel) == Success(ctx.channel.value)
      && ctx.isDM == IsDMChannel(ctx.channel.value)
      && !ctx.isDM && ctx.guild.None? && ctx.args.None?
    case ErrTypCommandNotFound =>
      && PrefixFound(cfg, p, msg) && err == ErrCommandNotFound && Prepared(cfg, p, msg, isEdit, ctx)
      && GetCommand(cmdMap, cfg.invokeToLower, Invoked(cfg, p, msg).value.invoke).None?
    case ErrTypNotExecutableInDM =>
      && PrefixFound(cfg, p, msg) && err == ErrCommandNotExecutableInDMs && Prepared(cfg, p, msg, isEdit, ctx) && ctx.isDM
      && GetCommand(cmdMap, cfg.invokeToLower, Invoked(cfg, p, msg).value.invoke).Some?
      && !GetCommand(cmdMap, cfg.invokeToLower, Invoked(cfg, p, msg).value.invoke).value.executableInDM
    case ErrTypMiddleware =>
      && PrefixFound(cfg, p, msg) && CommandReady(cfg, cmdMap, p, msg, isEdit, ctx) && Runnable(cfg, cmdMap, p, msg)
      && (|| (!LayerPasses(mws, LayerBeforeCommand, p.before) && StoppedWith(mws, LayerBeforeCommand, p.before, err))
          || (&& Succeeded(cfg, cmdMap, mws, p, msg) && !LayerPasses(mws, LayerAfterCommand, p.after)
              && StoppedWith(mws, LayerAfterCommand, p.after, err)))
    case ErrTypCommandExec =>
      && PrefixFound(cfg, p, msg) && p.exec == Some(err) && CommandReady(cfg, cmdMap, p, msg, isEdit, ctx)
      && Runnable(cfg, cmdMap, p, msg) && LayerPasses(mws, LayerBeforeCommand, p.before)
    case ErrTypDeleteCommandMessage =>
      && PrefixFound(cfg, p, msg) && cfg.deleteMessageAfter && p.delete == Some(err) && CommandReady(cfg, cmdMap, p, msg, isEdit, ctx)
      && Succeeded(cfg, cmdMap, mws, p, msg) && LayerPasses(mws, LayerAfterCommand, p.after)
  }

  /** What each call implies. */
  predicate EventGuarded(cfg: Config, cmdMap: map<string, Command>, mws: seq<Middleware>, p: Platform, msg: Message, isEdit: bool, e: Event) {
    match e
    case GuildPrefixRequested(g) =>
      g == msg.guildID && !StartsWith(msg.content, cfg.generalPrefix)
    case ChannelRequested(c) =>
      c == msg.channelID && PrefixFound(cfg, p, msg)
    case GuildRequested(g) =>
      && g == msg.guildID && PrefixFound(cfg, p, msg)
      && Lookup(p.stateChannel, p.restChannel).Success? && !IsDMChannel(Lookup(p.stateChannel, p.restChannel).value)
    case MiddlewareHandled(_, layer, cmd, ctx) =>
      && PrefixFound(cfg, p, msg) && Ready(cfg, cmdMap, p, msg, isEdit, cmd, ctx)
      && (layer == LayerBeforeCommand || layer == LayerAfterCommand)
      && (layer == LayerAfterCommand ==> RunLayer(mws, LayerBeforeCommand, p.before, cmd, ctx).ok && p.exec.None?)
    case CommandExecuted(cmd, ctx) =>
      && PrefixFound(cfg, p, msg) && Ready(cfg, cmdMap, p, msg, isEdit, cmd, ctx)
      && RunLayer(mws, LayerBeforeCommand, p.before, cmd, ctx).ok
    case MessageDeleted(c, id) =>
      && c == msg.channelID && id == msg.id && cfg.deleteMessageAfter
      && Succeeded(cfg, cmdMap, mws, p, msg) && LayerPasses(mws, LayerAfterCommand, p.after)
    case ErrorReported(ctx, kind, err) =>
      ReportGuarded(cfg, cmdMap, mws, p, msg, isEdit, ctx, kind, err)
    case Panicked =>
      PrefixFound(cfg, p, msg) && ChannelAccepted(cfg, p) && Invoked(cfg, p, msg).None?
  }

  predicate Guarded(cfg: Config, cmdMap: map<string, Command>, mws: seq<Middleware>, p: Platform, msg: Message, isEdit: bool, tr: seq<Event>) {
    forall e :: e in tr ==> EventGuarded(cfg, cmdMap, mws, p, msg, isEdit, e)
  }

  // ---------------------------------------------------------------------
  // Properties

  /** A ready command whose before layer passed, which returned no error and whose after layer passed. */
  lemma CleanupGuarded(cfg: Config, cmdMap: map<string, Command>, mws: seq<Middleware>, p: Platform, msg: Message, isEdit: bool,
                       cmd: Command, ctx: Context)
    requires PrefixFound(cfg, p, msg) && Ready(cfg, cmdMap, p, msg, isEdit, cmd, ctx) && p.exec.None?
    requires RunLayer(mws, LayerBeforeCommand, p.before, cmd, ctx).ok && RunLayer(mws, LayerAfterCommand, p.after, cmd, ctx).ok
    ensures Guarded(cfg, cmdMap, mws, p, msg, isEdit, Cleanup(cfg, p, ctx))
  {
    RunLayerOk(mws, LayerBeforeCommand, p.before, cmd, ctx);
    RunLayerOk(mws, LayerAfterCommand, p.after, cmd, ctx);
    assert Runnable(cfg, cmdMap, p, msg);
  }

  /** A layer's error report carries the error of the middleware that stopped it. */
  lemma LayerReportIsStop(mws: seq<Middleware>, layer: MiddlewareLayer, answers: nat -> HandleResult, cmd: Command, ctx: Context, e: Event)
    requires e in RunLayer(mws, layer, answers, cmd, ctx).events && e.ErrorReported?
    ensures !RunLayer(mws, layer, answers, cmd, ctx).ok && StoppedWith(mws, layer, answers, e.err)
  {
    RunLayerEvents(mws, layer, answers, cmd, ctx);
    RunLayerStop(mws, layer, answers, cmd, ctx);
    var s := FirstStop(mws, layer, answers, 0);
    CallsBetweenSubscribed(mws, layer, cmd, ctx, 0, s + 1);
  }

  lemma LayerGuarded(cfg: Config, cmdMap: map<string, Command>, mws: seq<Middleware>, p: Platform, msg: Message, isEdit: bool,
                     layer: MiddlewareLayer, answers: nat -> HandleResult, cmd: Command, ctx: Context)
    requires PrefixFound(cfg, p, msg) && Ready(cfg, cmdMap, p, msg, isEdit, cmd, ctx)
    requires || (layer == LayerBeforeCommand && answers == p.before)
             || (layer == LayerAfterCommand && answers == p.after && RunLayer(mws, LayerBeforeCommand, p.before, cmd, ctx).ok && p.exec.None?)
    ensures Guarded(cfg, cmdMap, mws, p, msg, isEdit, RunLayer(mws, layer, answers, cmd, ctx).events)
  {
    var ev := RunLayer(mws, layer, answers, cmd, ctx).events;
    RunLayerEvents(mws, layer, answers, cmd, ctx);
    RunLayerOk(mws, LayerBeforeCommand, p.before, cmd, ctx);
    RunLayerOk(mws, layer, answers, cmd, ctx);
    assert Runnable(cfg, cmdMap, p, msg);
    forall e | e in ev
      ensures EventGuarded(cfg, cmdMap, mws, p, msg, isEdit, e)
    {
      var k :| 0 <= k < |ev| && ev[k] == e;
      if e.ErrorReported? {
        LayerReportIsStop(mws, layer, answers, cmd, ctx, e);
      }
    }
  }

  lemma AfterCommandGuarded(cfg: Config, cmdMap: map<string, Command>, mws: seq<Middleware>, p: Platform, msg: Message, isEdit: bool, cmd: Command, ctx: Context)
    requires PrefixFound(cfg, p, msg) && Ready(cfg, cmdMap, p, msg, isEdit, cmd, ctx)
    requires RunLayer(mws, LayerBeforeCommand, p.before, cmd, ctx).ok
    ensures Guarded(cfg, cmdMap, mws, p, msg, isEdit, AfterCommand(cfg, mws, p, cmd, ctx))
  {
    RunLayerOk(mws, LayerBeforeCommand, p.before, cmd, ctx);
    assert Runnable(cfg, cmdMap, p, msg);
    if p.exec.None? {
      LayerGuarded(cfg, cmdMap, mws, p, msg, isEdit, LayerAfterCommand, p.after, cmd, ctx);
      if RunLayer(mws, LayerAfterCommand, p.after, cmd, ctx).ok {
        CleanupGuarded(cfg, cmdMap, mws, p, msg, isEdit, cmd, ctx);
      }
    }
  }

  lemma ExecuteGuarded(cfg: Config, cmdMap: map<string, Command>, mws: seq<Middleware>, p: Platform, msg: Message, isEdit: bool, cmd: Command, ctx: Context)
    requires PrefixFound(cfg, p, msg) && Ready(cfg, cmdMap, p, msg, isEdit, cmd, ctx)
    ensures Guarded(cfg, cmdMap, mws, p, msg, isEdit, Execute(cfg, mws, p, cmd, ctx))
  {
    LayerGuarded(cfg, cmdMap, mws, p, msg, isEdit, LayerBeforeCommand, p.before, cmd, ctx);
    if RunLayer(mws, LayerBeforeCommand, p.before, cmd, ctx).ok {
      AfterCommandGuarded(cfg, cmdMap, mws, p, msg, isEdit, cmd, ctx);
    }
  }

  lemma FindAndExecuteGuarded(cfg: Config, cmdMap: map<string, Command>, mws: seq<Middleware>, p: Platform, msg: Message, isEdit: bool, ctx: Context, invoke: string)
    requires PrefixFound(cfg, p, msg) && Prepared(cfg, p, msg, isEdit, ctx) && invoke == Invoked(cfg, p, msg).value.invoke
    ensures Guarded(cfg, cmdMap, mws, p, msg, isEdit, FindAndExecute(cfg, cmdMap, mws, p, ctx, invoke))
  {
    match GetCommand(cmdMap, cfg.invokeToLower, invoke)
    case None =>
    case Some(cmd) =>
      if !(ctx.isDM && !cmd.executableInDM) {
        ExecuteGuarded(cfg, cmdMap, mws, p, msg, isEdit, cmd, ctx);
      }
  }

  lemma RunGuarded(cfg: Config, cmdMap: map<string, Command>, mws: seq<Middleware>, p: Platform, msg: Message, isEdit: bool, ctx: Context, usedPrefix: string)
    requires SelectPrefix(cfg, msg.content, p.guildPrefix) == Success(usedPrefix) && usedPrefix != ""
    requires Located(cfg, p, msg, isEdit, ctx)
    ensures Guarded(cfg, cmdMap, mws, p, msg, isEdit, Run(cfg, cmdMap, mws, p, ctx, usedPrefix))
  {
    match SplitInvocation(Tokenize(ctx.message.content), usedPrefix, cfg.spaceAfterPrefix)
    case None =>
    case Some(inv) =>
      var c := ctx.(args := Some(inv.args));
      assert Prepared(cfg, p, msg, isEdit, c);
      FindAndExecuteGuarded(cfg, cmdMap, mws, p, msg, isEdit, c, inv.invoke);
  }

  lemma LocateGuarded(cfg: Config, cmdMap: map<string, Command>, mws: seq<Middleware>, p: Platform, msg: Message, isEdit: bool, ctx: Context, usedPrefix: string)
    requires SelectPrefix(cfg, msg.content, p.guildPrefix) == Success(usedPrefix) && usedPrefix != ""
    requires ctx.message == msg && ctx.isEdit == isEdit && ctx.guild.None? && ctx.args.None?
    requires ctx.channel.Some? && Lookup(p.stateChannel, p.restChannel) == Success(ctx.channel.value)
    requires ctx.isDM == IsDMChannel(ctx.channel.value)
    ensures Guarded(cfg, cmdMap, mws, p, msg, isEdit, Locate(cfg, cmdMap, mws, p, ctx, usedPrefix))
  {
    if !cfg.allowDM && ctx.isDM {
    } else if ctx.isDM {
      RunGuarded(cfg, cmdMap, mws, p, msg, isEdit, ctx, usedPrefix);
    } else {
      match Lookup(p.stateGuild, p.restGuild)
      case Failure(e) =>
      case Success(g) =>
        RunGuarded(cfg, cmdMap, mws, p, msg, isEdit, ctx.(guild := Some(g)), usedPrefix);
    }
  }

  lemma ResolveGuarded(cfg: Config, cmdMap: map<string, Command>, mws: seq<Middleware>, p: Platform, msg: Message, isEdit: bool, usedPrefix: string)
    requires SelectPrefix(cfg, msg.content, p.guildPrefix) == Success(usedPrefix)
    ensures Guarded(cfg, cmdMap, mws, p, msg, isEdit, Resolve(cfg, cmdMap, mws, p, InitialContext(msg, isEdit), usedPrefix))
  {
    var ctx := InitialContext(msg, isEdit);
    if usedPrefix != "" {
      match Lookup(p.stateChannel, p.restChannel)
      case Failure(e) =>
      case Success(ch) =>
        LocateGuarded(cfg, cmdMap, mws, p, msg, isEdit, ctx.(channel := Some(ch), isDM := IsDMChannel(ch)), usedPrefix);
    }
  }

  /** Every call the message handler makes happens only under its conditions. */
  lemma HandleMessageGuarded(cfg: Config, cmdMap: map<string, Command>, mws: seq<Middleware>, p: Platform, msg: Message, isEdit: bool)
    ensures Guarded(cfg, cmdMap, mws, p, msg, isEdit, HandleMessage(cfg, cmdMap, mws, p, msg, isEdit))
  {
    if !Filtered(cfg, p.selfID, msg) {
      match SelectPrefix(cfg, msg.content, p.guildPrefix)
      case Failure(e) =>
      case Success(u) =>
        ResolveGuarded(cfg, cmdMap, mws, p, msg, isEdit, u);
    }
  }
}
