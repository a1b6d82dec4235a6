/**
 * The message handler's promises, stated on whole traces: when it stays
 * silent, when it consults the guild prefix getter, when a command runs,
 * and a worked example.
 */
module Behaviour {
  import opened Wrappers
  import opened Registry
  import opened Events
  import opened Tokenizer
  import opened Invocation
  import opened Pipeline
  import opened Dispatch
  import opened Order
  import opened Guards

  lemma EmptyPrefixStarts(s: string)
    ensures StartsWith(s, "")
  {
    assert s[..0] == "";
  }

  /**
   * The handler makes no call at all exactly when the message is filtered
   * out or the general prefix is empty: an empty general prefix matches
   * every message, is then the prefix in use, and an empty prefix in use
   * ends processing, so guild prefixes are never consulted either.
   */
  lemma SilentIff(cfg: Config, cmdMap: map<string, Command>, mws: seq<Middleware>, p: Platform, msg: Message, isEdit: bool)
    ensures HandleMessage(cfg, cmdMap, mws, p, msg, isEdit) == [] <==> Filtered(cfg, p.selfID, msg) || cfg.generalPrefix == ""
  {
    EmptyPrefixStarts(msg.content);
  }

  /** The guild prefix getter is consulted exactly when the message passes the filters and does not start with the general prefix. */
  lemma GuildPrefixAsked(cfg: Config, cmdMap: map<string, Command>, mws: seq<Middleware>, p: Platform, msg: Message, isEdit: bool)
    ensures GuildPrefixRequested(msg.guildID) in HandleMessage(cfg, cmdMap, mws, p, msg, isEdit) <==>
            !Filtered(cfg, p.selfID, msg) && !StartsWith(msg.content, cfg.generalPrefix)
  {
    var tr := HandleMessage(cfg, cmdMap, mws, p, msg, isEdit);
    HandleMessageGuarded(cfg, cmdMap, mws, p, msg, isEdit);
    if !Filtered(cfg, p.selfID, msg) && !StartsWith(msg.content, cfg.generalPrefix) {
      assert tr[0] == GuildPrefixRequested(msg.guildID);
    }
  }

  /**
   * A command runs only for a message that passed the filters, with the
   * command its invoke finds under the selected prefix, the arguments split
   * off that message, in a direct message only when those are allowed and
   * the command may run there, and only after every middleware subscribed
   * to the before layer let it through.
   */
  lemma CommandRunsOnlyWhenAllowed(cfg: Config, cmdMap: map<string, Command>, mws: seq<Middleware>, p: Platform, msg: Message, isEdit: bool,
                                   cmd: Command, ctx: Context)
    requires CommandExecuted(cmd, ctx) in HandleMessage(cfg, cmdMap, mws, p, msg, isEdit)
    ensures !Filtered(cfg, p.selfID, msg)
    ensures Invoked(cfg, p, msg).Some? && ctx.args == Some(Invoked(cfg, p, msg).value.args)
    ensures GetCommand(cmdMap, cfg.invokeToLower, Invoked(cfg, p, msg).value.invoke) == Some(cmd)
    ensures ctx.message == msg && ctx.channel.Some? && ctx.isDM == IsDMChannel(ctx.channel.value)
    ensures ctx.isDM ==> cfg.allowDM && cmd.executableInDM
    ensures forall k :: 0 <= k < |mws| && Subscribed(mws[k], LayerBeforeCommand) ==> Continues(p.before(k))
  {
    HandleMessageGuarded(cfg, cmdMap, mws, p, msg, isEdit);
    assert EventGuarded(cfg, cmdMap, mws, p, msg, isEdit, CommandExecuted(cmd, ctx));
    RunLayerOk(mws, LayerBeforeCommand, p.before, cmd, ctx);
  }

  /** The after layer runs only once the before layer passed and the command returned no error. */
  lemma AfterLayerOnlyAfterSuccess(cfg: Config, cmdMap: map<string, Command>, mws: seq<Middleware>, p: Platform, msg: Message, isEdit: bool,
                                   k: nat, cmd: Command, ctx: Context)
    requires MiddlewareHandled(k, LayerAfterCommand, cmd, ctx) in HandleMessage(cfg, cmdMap, mws, p, msg, isEdit)
    ensures p.exec.None?
    ensures forall j :: 0 <= j < |mws| && Subscribed(mws[j], LayerBeforeCommand) ==> Continues(p.before(j))
  {
    HandleMessageGuarded(cfg, cmdMap, mws, p, msg, isEdit);
    assert EventGuarded(cfg, cmdMap, mws, p, msg, isEdit, MiddlewareHandled(k, LayerAfterCommand, cmd, ctx));
    RunLayerOk(mws, LayerBeforeCommand, p.before, cmd, ctx);
  }

  /**
   * A middleware error reaches the callback only from the layer that failed,
   * and it is the error answered by the first subscribed middleware that
   * stopped that layer: a middleware that merely declines is never reported.
   */
  lemma MiddlewareReportIsStoppersError(cfg: Config, cmdMap: map<string, Command>, mws: seq<Middleware>, p: Platform, msg: Message, isEdit: bool,
                                        ctx: Context, err: Error)
    requires ErrorReported(ctx, ErrTypMiddleware, err) in HandleMessage(cfg, cmdMap, mws, p, msg, isEdit)
    ensures || StoppedWith(mws, LayerBeforeCommand, p.before, err)
            || (Succeeded(cfg, cmdMap, mws, p, msg) && StoppedWith(mws, LayerAfterCommand, p.after, err))
  {
    HandleMessageGuarded(cfg, cmdMap, mws, p, msg, isEdit);
    assert EventGuarded(cfg, cmdMap, mws, p, msg, isEdit, ErrorReported(ctx, ErrTypMiddleware, err));
  }

  /**
   * The command message is deleted only when so configured, after its
   * command was found, let through by every before-layer middleware, ran
   * without error and was let through by every after-layer middleware; and
   * it is the message itself that is deleted.
   */
  lemma DeleteOnlyAfterSuccess(cfg: Config, cmdMap: map<string, Command>, mws: seq<Middleware>, p: Platform, msg: Message, isEdit: bool,
                               channelID: string, messageID: string)
    requires MessageDeleted(channelID, messageID) in HandleMessage(cfg, cmdMap, mws, p, msg, isEdit)
    ensures cfg.deleteMessageAfter && !Filtered(cfg, p.selfID, msg)
    ensures Runnable(cfg, cmdMap, p, msg)
    ensures forall k :: 0 <= k < |mws| && Subscribed(mws[k], LayerBeforeCommand) ==> Continues(p.before(k))
    ensures p.exec.None?
    ensures forall k :: 0 <= k < |mws| && Subscribed(mws[k], LayerAfterCommand) ==> Continues(p.after(k))
    ensures channelID == msg.channelID && messageID == msg.id
  {
    HandleMessageGuarded(cfg, cmdMap, mws, p, msg, isEdit);
    assert EventGuarded(cfg, cmdMap, mws, p, msg, isEdit, MessageDeleted(channelID, messageID));
  }

  /**
   * Conversely, when so configured, a message whose command is found, let
   * through by every before-layer middleware, runs without error and is let
   * through by every after-layer middleware gets deleted.
   */
  lemma DeletedWhenAllPass(cfg: Config, cmdMap: map<string, Command>, mws: seq<Middleware>, p: Platform, msg: Message, isEdit: bool)
    requires cfg.deleteMessageAfter && !Filtered(cfg, p.selfID, msg)
    requires Succeeded(cfg, cmdMap, mws, p, msg) && LayerPasses(mws, LayerAfterCommand, p.after)
    ensures MessageDeleted(msg.channelID, msg.id) in HandleMessage(cfg, cmdMap, mws, p, msg, isEdit)
  {
    var u := SelectPrefix(cfg, msg.content, p.guildPrefix).value;
    var ctx0 := InitialContext(msg, isEdit);
    var ch := Lookup(p.stateChannel, p.restChannel).value;
    var ctx1 := ctx0.(channel := Some(ch), isDM := IsDMChannel(ch));
    var ctx2 := if ctx1.isDM then ctx1 else ctx1.(guild := Some(Lookup(p.stateGuild, p.restGuild).value));
    RunDeletes(cfg, cmdMap, mws, p, msg, ctx2, u);
    assert Locate(cfg, cmdMap, mws, p, ctx1, u) == (if ctx1.isDM then [] else [GuildRequested(msg.guildID)]) + Run(cfg, cmdMap, mws, p, ctx2, u);
    assert Resolve(cfg, cmdMap, mws, p, ctx0, u) == [ChannelRequested(msg.channelID)] + Locate(cfg, cmdMap, mws, p, ctx1, u);
  }

  lemma RunDeletes(cfg: Config, cmdMap: map<string, Command>, mws: seq<Middleware>, p: Platform, msg: Message, ctx: Context, u: string)
    requires cfg.deleteMessageAfter && Succeeded(cfg, cmdMap, mws, p, msg) && LayerPasses(mws, LayerAfterCommand, p.after)
    requires u == SelectPrefix(cfg, msg.content, p.guildPrefix).value
    requires ctx.message == msg && ctx.channel == Some(Lookup(p.stateChannel, p.restChannel).value)
    requires ctx.isDM == IsDMChannel(ctx.channel.value)
    ensures MessageDeleted(msg.channelID, msg.id) in Run(cfg, cmdMap, mws, p, ctx, u)
  {
    var inv := Invoked(cfg, p, msg).value;
    var c := ctx.(args := Some(inv.args));
    var cmd := GetCommand(cmdMap, cfg.invokeToLower, inv.invoke).value;
    RunLayerOk(mws, LayerBeforeCommand, p.before, cmd, c);
    RunLayerOk(mws, LayerAfterCommand, p.after, cmd, c);
    assert MessageDeleted(msg.channelID, msg.id) in Cleanup(cfg, p, c);
    assert Run(cfg, cmdMap, mws, p, ctx, u) == Execute(cfg, mws, p, cmd, c);
  }

  /** A failing guild prefix getter is reported, with the context as it was at the start, and ends processing. */
  lemma GetterFailure(cfg: Config, cmdMap: map<string, Command>, mws: seq<Middleware>, p: Platform, msg: Message, isEdit: bool, e: Error)
    requires !Filtered(cfg, p.selfID, msg) && !StartsWith(msg.content, cfg.generalPrefix)
    requires p.guildPrefix == Failure(e)
    ensures HandleMessage(cfg, cmdMap, mws, p, msg, isEdit) ==
            [GuildPrefixRequested(msg.guildID), ErrorReported(InitialContext(msg, isEdit), ErrTypGuildPrefixGetter, e)]
  {
  }

  /** Without the general prefix, a guild prefix that is empty or that the message does not start with ends processing silently. */
  lemma GuildPrefixMisses(cfg: Config, cmdMap: map<string, Command>, mws: seq<Middleware>, p: Platform, msg: Message, isEdit: bool, gp: string)
    requires !Filtered(cfg, p.selfID, msg) && !StartsWith(msg.content, cfg.generalPrefix)
    requires p.guildPrefix == Success(gp) && (gp == "" || !StartsWith(msg.content, gp))
    ensures HandleMessage(cfg, cmdMap, mws, p, msg, isEdit) == [GuildPrefixRequested(msg.guildID)]
  {
  }

  /**
   * Without the general prefix, a non-empty guild prefix that the message
   * starts with is the prefix used: after asking the getter, processing goes
   * on to the channel lookup under that prefix.
   */
  lemma GuildPrefixUsed(cfg: Config, cmdMap: map<string, Command>, mws: seq<Middleware>, p: Platform, msg: Message, isEdit: bool, gp: string)
    requires !Filtered(cfg, p.selfID, msg) && !StartsWith(msg.content, cfg.generalPrefix)
    requires p.guildPrefix == Success(gp) && gp != "" && StartsWith(msg.content, gp)
    ensures PrefixFound(cfg, p, msg) && SelectPrefix(cfg, msg.content, p.guildPrefix) == Success(gp)
    ensures HandleMessage(cfg, cmdMap, mws, p, msg, isEdit) ==
            [GuildPrefixRequested(msg.guildID)] + Resolve(cfg, cmdMap, mws, p, InitialContext(msg, isEdit), gp)
    ensures var tr := HandleMessage(cfg, cmdMap, mws, p, msg, isEdit);
            |tr| >= 2 && tr[0] == GuildPrefixRequested(msg.guildID) && tr[1] == ChannelRequested(msg.channelID)
  {
  }

  /** A direct or group direct message, when those are not allowed, ends processing silently once its channel is known. */
  lemma DMDisallowedSilent(cfg: Config, cmdMap: map<string, Command>, mws: seq<Middleware>, p: Platform, msg: Message, isEdit: bool, ch: Channel)
    requires !Filtered(cfg, p.selfID, msg) && PrefixFound(cfg, p, msg) && !cfg.allowDM
    requires Lookup(p.stateChannel, p.restChannel) == Success(ch) && IsDMChannel(ch)
    ensures HandleMessage(cfg, cmdMap, mws, p, msg, isEdit) ==
            (if StartsWith(msg.content, cfg.generalPrefix) then [] else [GuildPrefixRequested(msg.guildID)]) + [ChannelRequested(msg.channelID)]
  {
  }

  /** The guild is looked up only for a channel that resolved and is not a direct message. */
  lemma NoGuildLookupInDM(cfg: Config, cmdMap: map<string, Command>, mws: seq<Middleware>, p: Platform, msg: Message, isEdit: bool, g: string)
    requires GuildRequested(g) in HandleMessage(cfg, cmdMap, mws, p, msg, isEdit)
    ensures Lookup(p.stateChannel, p.restChannel).Success?
    ensures !IsDMChannel(Lookup(p.stateChannel, p.restChannel).value)
  {
    HandleMessageGuarded(cfg, cmdMap, mws, p, msg, isEdit);
    assert EventGuarded(cfg, cmdMap, mws, p, msg, isEdit, GuildRequested(g));
  }

  /**
   * A command refused in a direct message is refused before any middleware
   * is called, and it does not run.
   */
  lemma DMRefusalRunsNothing(cfg: Config, cmdMap: map<string, Command>, mws: seq<Middleware>, p: Platform, msg: Message, isEdit: bool,
                             ctx: Context, err: Error)
    requires ErrorReported(ctx, ErrTypNotExecutableInDM, err) in HandleMessage(cfg, cmdMap, mws, p, msg, isEdit)
    ensures err == ErrCommandNotExecutableInDMs && ctx.isDM && cfg.allowDM
    ensures forall e :: e in HandleMessage(cfg, cmdMap, mws, p, msg, isEdit) ==> !e.MiddlewareHandled? && !e.CommandExecuted?
  {
    var tr := HandleMessage(cfg, cmdMap, mws, p, msg, isEdit);
    HandleMessageGuarded(cfg, cmdMap, mws, p, msg, isEdit);
    assert EventGuarded(cfg, cmdMap, mws, p, msg, isEdit, ErrorReported(ctx, ErrTypNotExecutableInDM, err));
    forall e | e in tr
      ensures !e.MiddlewareHandled? && !e.CommandExecuted?
    {
      assert EventGuarded(cfg, cmdMap, mws, p, msg, isEdit, e);
    }
  }

  // ---------------------------------------------------------------------
  // A worked example: "!echo hello" in a guild channel runs the echo
  // command with the single argument "hello".

  lemma ExampleTokens(content: string)
    requires content == "!echo hello"
    ensures Tokenize(content) == ["!echo", "hello"]
  {
    var ts := ["!echo", "hello"];
    WordInRegex("!echo");
    WordInRegex("hello");
    assert JoinSpaces(ts) == content by {
      assert JoinSpaces(["hello"]) == "hello";
    }
    TokenizeJoinSpaces(ts);
  }

  /**
   * With one middleware subscribed to both layers and letting the command
   * through on each, `!echo hello` in a guild channel resolves the channel
   * and the guild from the cache, calls the middleware before the command,
   * runs echo with the single argument `hello`, and calls the middleware
   * again after it.
   */
  lemma EchoExample(cfg: Config, cmd: Command, cmdMap: map<string, Command>, mws: seq<Middleware>, p: Platform, msg: Message)
    requires cfg == Config("!", false, false, false, false, false, false, false)
    requires cmd == Command(1, ["echo"], false) && cmdMap == map["echo" := cmd]
    requires mws == [Middleware(7, LayerBeforeCommand | LayerAfterCommand)]
    requires p.before(0) == HandleResult(true, None) && p.after(0) == HandleResult(true, None)
    requires p.selfID == "bot" && p.stateChannel == Some(Channel("c1", 0)) && p.stateGuild == Some(Guild("g1"))
    requires p.exec.None?
    requires msg == Message("m1", "c1", "g1", "!echo hello", Some(User("u1", false)))
    ensures var ctx := Context(msg, false, Some(Channel("c1", 0)), false, Some(Guild("g1")), Some(["hello"]));
            HandleMessage(cfg, cmdMap, mws, p, msg, false) ==
            [ ChannelRequested("c1"), GuildRequested("g1"),
              MiddlewareHandled(0, LayerBeforeCommand, cmd, ctx),
              CommandExecuted(cmd, ctx),
              MiddlewareHandled(0, LayerAfterCommand, cmd, ctx) ]
  {
    var c := Context(msg, false, Some(Channel("c1", 0)), false, Some(Guild("g1")), Some(["hello"]));
    EchoTrace(cfg, cmd, cmdMap, mws, p, msg, c);
    var run := [MiddlewareHandled(0, LayerBeforeCommand, cmd, c), CommandExecuted(cmd, c), MiddlewareHandled(0, LayerAfterCommand, cmd, c)];
    EchoLookupsThenRun(run);
  }

  /** The example's two lookups followed by its three-call run, written as one flat trace. */
  lemma EchoLookupsThenRun(run: seq<Event>)
    requires |run| == 3
    ensures [ChannelRequested("c1")] + ([GuildRequested("g1")] + run) == [ChannelRequested("c1"), GuildRequested("g1"), run[0], run[1], run[2]]
  {
  }

  /** The example's trace, stage by stage. */
  lemma EchoTrace(cfg: Config, cmd: Command, cmdMap: map<string, Command>, mws: seq<Middleware>, p: Platform, msg: Message, c: Context)
    requires cfg == Config("!", false, false, false, false, false, false, false)
    requires cmd == Command(1, ["echo"], false) && cmdMap == map["echo" := cmd]
    requires mws == [Middleware(7, LayerBeforeCommand | LayerAfterCommand)]
    requires p.before(0) == HandleResult(true, None) && p.after(0) == HandleResult(true, None)
    requires p.selfID == "bot" && p.stateChannel == Some(Channel("c1", 0)) && p.stateGuild == Some(Guild("g1"))
    requires p.exec.None?
    requires msg == Message("m1", "c1", "g1", "!echo hello", Some(User("u1", false)))
    requires c == Context(msg, false, Some(Channel("c1", 0)), false, Some(Guild("g1")), Some(["hello"]))
    ensures HandleMessage(cfg, cmdMap, mws, p, msg, false) ==
            [ChannelRequested("c1")] + ([GuildRequested("g1")] +
            [MiddlewareHandled(0, LayerBeforeCommand, cmd, c), CommandExecuted(cmd, c), MiddlewareHandled(0, LayerAfterCommand, cmd, c)])
  {
    var ctx0 := InitialContext(msg, false);
    var ctx1 := ctx0.(channel := Some(Channel("c1", 0)), isDM := false);
    var ctx2 := ctx1.(guild := Some(Guild("g1")));
    assert ctx2.(args := Some(["hello"])) == c;
    EchoRun(cfg, cmd, cmdMap, mws, p, ctx2);
    EchoLocate(cfg, cmdMap, mws, p, ctx1, ctx2);
    EchoResolve(cfg, cmdMap, mws, p, ctx0, ctx1);
    EchoPrefix(cfg, cmdMap, mws, p, msg);
  }

  /** A single middleware subscribed to the layer and letting the command through is called once. */
  lemma EchoLayer(mws: seq<Middleware>, layer: MiddlewareLayer, answers: nat -> HandleResult, cmd: Command, ctx: Context)
    requires |mws| == 1 && Subscribed(mws[0], layer) && answers(0) == HandleResult(true, None)
    ensures RunLayer(mws, layer, answers, cmd, ctx) == LayerRun(true, [MiddlewareHandled(0, layer, cmd, ctx)])
  {
    assert RunLayerFrom(mws, layer, answers, cmd, ctx, 1) == LayerRun(true, []);
  }

  /** The example's command runs with the argument after its invoke, between the two middleware calls. */
  lemma EchoRun(cfg: Config, cmd: Command, cmdMap: map<string, Command>, mws: seq<Middleware>, p: Platform, ctx: Context)
    requires !cfg.spaceAfterPrefix && !cfg.invokeToLower && !cfg.deleteMessageAfter
    requires cmd == Command(1, ["echo"], false) && cmdMap == map["echo" := cmd]
    requires mws == [Middleware(7, LayerBeforeCommand | LayerAfterCommand)]
    requires p.before(0) == HandleResult(true, None) && p.after(0) == HandleResult(true, None)
    requires p.exec.None? && ctx.message.content == "!echo hello" && !ctx.isDM
    ensures var c := ctx.(args := Some(["hello"]));
            Run(cfg, cmdMap, mws, p, ctx, "!") ==
            [MiddlewareHandled(0, LayerBeforeCommand, cmd, c), CommandExecuted(cmd, c), MiddlewareHandled(0, LayerAfterCommand, cmd, c)]
  {
    ExampleTokens(ctx.message.content);
    var tokens := ["!echo", "hello"];
    assert tokens[0][1..] == "echo" && tokens[1..] == ["hello"];
    assert GetCommand(cmdMap, false, "echo") == Some(cmd);
    var c := ctx.(args := Some(["hello"]));
    assert Subscribed(mws[0], LayerBeforeCommand) && Subscribed(mws[0], LayerAfterCommand);
    EchoLayer(mws, LayerBeforeCommand, p.before, cmd, c);
    EchoLayer(mws, LayerAfterCommand, p.after, cmd, c);
  }

  lemma EchoLocate(cfg: Config, cmdMap: map<string, Command>, mws: seq<Middleware>, p: Platform, ctx1: Context, ctx2: Context)
    requires !cfg.allowDM && !ctx1.isDM && p.stateGuild == Some(Guild("g1")) && ctx1.message.guildID == "g1"
    requires ctx2 == ctx1.(guild := Some(Guild("g1")))
    ensures Locate(cfg, cmdMap, mws, p, ctx1, "!") == [GuildRequested("g1")] + Run(cfg, cmdMap, mws, p, ctx2, "!")
  {
  }

  lemma EchoResolve(cfg: Config, cmdMap: map<string, Command>, mws: seq<Middleware>, p: Platform, ctx0: Context, ctx1: Context)
    requires p.stateChannel == Some(Channel("c1", 0)) && ctx0.message.channelID == "c1"
    requires ctx1 == ctx0.(channel := Some(Channel("c1", 0)), isDM := false)
    ensures Resolve(cfg, cmdMap, mws, p, ctx0, "!") == [ChannelRequested("c1")] + Locate(cfg, cmdMap, mws, p, ctx1, "!")
  {
    assert !IsDMChannel(Channel("c1", 0));
  }

  lemma EchoPrefix(cfg: Config, cmdMap: map<string, Command>, mws: seq<Middleware>, p: Platform, msg: Message)
    requires cfg.generalPrefix == "!" && msg.content == "!echo hello"
    requires msg.author == Some(User("u1", false)) && p.selfID == "bot"
    ensures HandleMessage(cfg, cmdMap, mws, p, msg, false) == Resolve(cfg, cmdMap, mws, p, InitialContext(msg, false), "!")
  {
    EmptyPrefixStarts(msg.content);
    assert StartsWith(msg.content, "!");
  }
}
