/**
 * The handler object: its configuration, command map, command instances and
 * middleware list, the registration methods that update them in place, and
 * the message handler and middleware runner as the step-by-step procedures
 * they are, each proved to make exactly the calls its specification function
 * describes.
 */
module Handlers {
  import opened Wrappers
  import opened Registry
  import opened Events
  import opened Tokenizer
  import opened Invocation
  import opened Pipeline
  import opened Dispatch

  class Handler {
    const config: Config
    var cmdMap: map<string, Command>
    var cmdInstances: seq<Command>
    var middlewares: seq<Middleware>

    /** A handler with no commands and no middleware yet. */
    constructor (cfg: Config)
      ensures config == cfg
      ensures cmdMap == map[] && cmdInstances == [] && middlewares == []
    {
      config := cfg;
      cmdMap := map[];
      cmdInstances := [];
      middlewares := [];
    }

    /**
     * Appends the command to the instances, then files each of its invokes
     * (lower-cased when so configured). A key already present is a conflict:
     * it is returned, and the map keeps the keys of the earlier invokes.
     */
    method RegisterCommand(cmd: Command) returns (conflict: Option<string>)
      modifies this
      ensures cmdInstances == old(cmdInstances) + [cmd]
      ensures middlewares == old(middlewares)
      ensures var r := RegisterInvokes(old(cmdMap), cmd.invokes, config.invokeToLower, cmd);
              && cmdMap == r.cmdMap
              && conflict == (if r.Conflict? then Some(r.key) else None)
    {
      cmdInstances := cmdInstances + [cmd];
      var i := 0;
      while i < |cmd.invokes|
        invariant 0 <= i <= |cmd.invokes|
        invariant cmdInstances == old(cmdInstances) + [cmd] && middlewares == old(middlewares)
        invariant RegisterInvokes(old(cmdMap), cmd.invokes, config.invokeToLower, cmd) ==
                  RegisterInvokes(cmdMap, cmd.invokes[i..], config.invokeToLower, cmd)
      {
        var invoke := cmd.invokes[i];
        if config.invokeToLower {
          invoke := ToLower(invoke);
        }
        if invoke in cmdMap {
          return Some(invoke);
        }
        cmdMap := cmdMap[invoke := cmd];
        assert cmd.invokes[i..][1..] == cmd.invokes[i + 1..];
        i := i + 1;
      }
      return None;
    }

    /** Appends the middleware to the list. */
    method RegisterMiddleware(mw: Middleware)
      modifies this
      ensures middlewares == old(middlewares) + [mw]
      ensures cmdMap == old(cmdMap) && cmdInstances == old(cmdInstances)
    {
      middlewares := middlewares + [mw];
    }

    /**
     * Runs the middleware subscribed to the layer in order, stopping at the
     * first error (reported) or refusal; answers(k) is what middleware k
     * answers when called.
     */
    method ExecuteMiddlewares(cmd: Command, ctx: Context, layer: MiddlewareLayer, answers: nat -> HandleResult)
      returns (ok: bool, events: seq<Event>)
      ensures LayerRun(ok, events) == RunLayer(middlewares, layer, answers, cmd, ctx)
    {
      var mws := middlewares;
      events := [];
      for i := 0 to |mws|
        invariant RunLayer(mws, layer, answers, cmd, ctx) ==
                  LayerRun(RunLayerFrom(mws, layer, answers, cmd, ctx, i).ok, events + RunLayerFrom(mws, layer, answers, cmd, ctx, i).events)
      {
        ScanStep(mws, layer, answers, cmd, ctx, i);
        if mws[i].layer & layer == 0 {
          continue;
        }
        ghost var rest := RunLayerFrom(mws, layer, answers, cmd, ctx, i + 1);
        var h := answers(i);
        ghost var before := events;
        events := events + [MiddlewareHandled(i, layer, cmd, ctx)];
        if h.err.Some? {
          events := events + [ErrorReported(ctx, ErrTypMiddleware, h.err.value)];
          return false, events;
        }
        if !h.next {
          return false, events;
        }
        assert events + rest.events == before + ([MiddlewareHandled(i, layer, cmd, ctx)] + rest.events);
      }
      return true, events;
    }

    /** Removes the quotes of every argument that holds one, in place. */
    static method StripQuotes(args: array<string>)
      modifies args
      ensures args[..] == StripAll(old(args[..]))
    {
      for i := 0 to args.Length
        invariant forall k :: 0 <= k < i ==> args[k] == RemoveQuotes(old(args[k]))
        invariant forall k :: i <= k < args.Length ==> args[k] == old(args[k])
      {
        if '"' in args[i] {
          args[i] := RemoveQuotes(args[i]);
        }
      }
    }

    /**
     * Processes one inbound message, filling in the context as it goes, and
     * returns the calls it made.
     */
    method MessageHandler(p: Platform, msg: Message, isEdit: bool) returns (trace: seq<Event>)
      ensures trace == HandleMessage(config, cmdMap, middlewares, p, msg, isEdit)
    {
      trace := [];
      if msg.author.None? || msg.author.value.id == p.selfID {
        return;
      }
      if |msg.content| < 2 {
        return;
      }
      if !config.allowBots && msg.author.value.bot {
        return;
      }
      var ctx := InitialContext(msg, isEdit);

      var usedPrefix := "";
      var asked: seq<Event> := [];
      if StartsWith(msg.content, config.generalPrefix) {
        usedPrefix := config.generalPrefix;
      } else {
        asked := [GuildPrefixRequested(msg.guildID)];
        if p.guildPrefix.Failure? {
          return asked + [ErrorReported(ctx, ErrTypGuildPrefixGetter, p.guildPrefix.error)];
        }
        var guildPrefix := p.guildPrefix.value;
        if guildPrefix != "" && StartsWith(msg.content, guildPrefix) {
          usedPrefix := guildPrefix;
        }
      }
      var events := ResolveChannel(p, ctx, usedPrefix);
      trace := asked + events;
    }

    /** With the prefix chosen: stop when there is none, else look up the channel and, outside direct messages, the guild. */
    method ResolveChannel(p: Platform, ctx0: Context, usedPrefix: string) returns (trace: seq<Event>)
      ensures trace == Resolve(config, cmdMap, middlewares, p, ctx0, usedPrefix)
    {
      var ctx := ctx0;
      if usedPrefix == "" {
        return [];
      }
      var asked := [ChannelRequested(ctx.message.channelID)];
      var channel := Lookup(p.stateChannel, p.restChannel);
      if channel.Failure? {
        return asked + [ErrorReported(ctx, ErrTypGetChannel, channel.error)];
      }
      ctx := ctx.(channel := Some(channel.value), isDM := IsDMChannel(channel.value));
      var events := LocateGuild(p, ctx, usedPrefix);
      trace := asked + events;
    }

    /** With the channel known: drop disallowed direct messages; outside direct messages, look up the guild. */
    method LocateGuild(p: Platform, ctx0: Context, usedPrefix: string) returns (trace: seq<Event>)
      ensures trace == Locate(config, cmdMap, middlewares, p, ctx0, usedPrefix)
    {
      var ctx := ctx0;
      if !config.allowDM && ctx.isDM {
        return [];
      }
      if ctx.isDM {
        trace := Invoke(p, ctx, usedPrefix);
        return;
      }
      var asked := [GuildRequested(ctx.message.guildID)];
      var guild := Lookup(p.stateGuild, p.restGuild);
      if guild.Failure? {
        return asked + [ErrorReported(ctx, ErrTypGetGuild, guild.error)];
      }
      ctx := ctx.(guild := Some(guild.value));
      var events := Invoke(p, ctx, usedPrefix);
      trace := asked + events;
    }

    /** The rest of the message handler once a channel (and outside direct messages a guild) is known: split, look up, check, execute. */
    method Invoke(p: Platform, ctx: Context, usedPrefix: string) returns (trace: seq<Event>)
      ensures trace == Run(config, cmdMap, middlewares, p, ctx, usedPrefix)
    {
      var raw := RawTokens(ctx.message.content);
      var args := new string[|raw|](k requires 0 <= k < |raw| => raw[k]);
      assert args[..] == raw;
      StripQuotes(args);
      assert args[..] == Tokenize(ctx.message.content);

      var invoke: string;
      var rest: seq<string>;
      if config.spaceAfterPrefix {
        if args.Length > 1 {
          invoke := args[1];
          rest := args[2..];
        } else if args.Length == 1 {
          invoke := "";
          rest := [];
        } else {
          return [Panicked];
        }
      } else {
        if args.Length == 0 || |args[0]| < |usedPrefix| {
          return [Panicked];
        }
        invoke := args[0][|usedPrefix|..];
        rest := args[1..];
      }
      assert SplitInvocation(args[..], usedPrefix, config.spaceAfterPrefix) == Some(Invocation(invoke, rest));
      var c := ctx.(args := Some(rest));

      var found := GetCommand(cmdMap, config.invokeToLower, invoke);
      if found.None? {
        return [ErrorReported(c, ErrTypCommandNotFound, ErrCommandNotFound)];
      }
      var cmd := found.value;
      if c.isDM && !cmd.executableInDM {
        return [ErrorReported(c, ErrTypNotExecutableInDM, ErrCommandNotExecutableInDMs)];
      }
      trace := ExecuteCommand(p, cmd, c);
    }

    /** The before layer, the command, the after layer and the deletion of the command message. */
    method ExecuteCommand(p: Platform, cmd: Command, ctx: Context) returns (trace: seq<Event>)
      ensures trace == Execute(config, middlewares, p, cmd, ctx)
    {
      var ok, events := ExecuteMiddlewares(cmd, ctx, LayerBeforeCommand, p.before);
      trace := events;
      if !ok {
        return;
      }
      trace := trace + [CommandExecuted(cmd, ctx)];
      if p.exec.Some? {
        trace := trace + [ErrorReported(ctx, ErrTypCommandExec, p.exec.value)];
        return;
      }
      ok, events := ExecuteMiddlewares(cmd, ctx, LayerAfterCommand, p.after);
      trace := trace + events;
      if !ok {
        return;
      }
      if config.deleteMessageAfter {
        trace := trace + [MessageDeleted(ctx.message.channelID, ctx.message.id)];
        if p.delete.Some? {
          trace := trace + [ErrorReported(ctx, ErrTypDeleteCommandMessage, p.delete.value)];
          return;
        }
      }
    }
  }
}
