/**
 * The order of the calls a dispatch makes: every trace follows the stages
 * of the message handler, each call other than a middleware call happens at
 * most once, and an error report or a panic ends the trace.
 */
module Order {
  import opened Wrappers
  import opened Registry
  import opened Events
  import opened Pipeline
  import opened Invocation
  import opened Dispatch

  /** The stage of the message handler an event belongs to. */
  function Stage(e: Event): nat {
    match e
    case GuildPrefixRequested(_) => 0
    case ChannelRequested(_) => 1
    case GuildRequested(_) => 2
    case MiddlewareHandled(_, layer, _, _) => if layer == LayerBeforeCommand then 3 else 5
    case CommandExecuted(_, _) => 4
    case MessageDeleted(_, _) => 6
    case ErrorReported(_, _, _) => 7
    case Panicked => 7
  }

  /** Stages never go back, and only middleware calls share a stage. */
  predicate Ordered(tr: seq<Event>) {
    forall i, j :: 0 <= i < j < |tr| ==>
      Stage(tr[i]) < Stage(tr[j]) || (Stage(tr[i]) == Stage(tr[j]) && tr[i].MiddlewareHandled?)
  }

  predicate StagesFrom(tr: seq<Event>, m: nat) {
    forall e :: e in tr ==> Stage(e) >= m
  }

  predicate StagesBelow(tr: seq<Event>, m: nat) {
    forall e :: e in tr ==> Stage(e) < m
  }

  // ---------------------------------------------------------------------
  // Properties

  lemma OrderedConcat(a: seq<Event>, b: seq<Event>, m: nat)
    requires Ordered(a) && Ordered(b) && StagesBelow(a, m) && StagesFrom(b, m)
    ensures Ordered(a + b)
  {
    var t := a + b;
    forall i, j | 0 <= i < j < |t|
      ensures Stage(t[i]) < Stage(t[j]) || (Stage(t[i]) == Stage(t[j]) && t[i].MiddlewareHandled?)
    {
      if j < |a| {
        assert t[i] == a[i] && t[j] == a[j];
      } else if i >= |a| {
        assert t[i] == b[i - |a|] && t[j] == b[j - |a|];
      } else {
        assert t[i] == a[i] && a[i] in a;
        assert t[j] == b[j - |a|] && b[j - |a|] in b;
      }
    }
  }

  function LayerStage(layer: MiddlewareLayer): nat {
    if layer == LayerBeforeCommand then 3 else 5
  }

  /** A layer's calls share its stage, and only a failing layer's last event, its error report, is later. */
  lemma LayerOrdered(mws: seq<Middleware>, layer: MiddlewareLayer, answers: nat -> HandleResult, cmd: Command, ctx: Context)
    ensures var r := RunLayer(mws, layer, answers, cmd, ctx);
            && Ordered(r.events)
            && (forall e :: e in r.events ==> Stage(e) == LayerStage(layer) || Stage(e) == 7)
            && (r.ok ==> forall e :: e in r.events ==> Stage(e) == LayerStage(layer))
  {
    var r := RunLayer(mws, layer, answers, cmd, ctx);
    RunLayerEvents(mws, layer, answers, cmd, ctx);
    forall i, j | 0 <= i < j < |r.events|
      ensures Stage(r.events[i]) < Stage(r.events[j]) || (Stage(r.events[i]) == Stage(r.events[j]) && r.events[i].MiddlewareHandled?)
    {
      assert r.events[i].MiddlewareHandled? && r.events[i].layer == layer;
    }
  }

  lemma {:induction false} CleanupOrdered(cfg: Config, p: Platform, ctx: Context)
    ensures Ordered(Cleanup(cfg, p, ctx)) && StagesFrom(Cleanup(cfg, p, ctx), 6)
  {
  }

  lemma AfterCommandOrdered(cfg: Config, mws: seq<Middleware>, p: Platform, cmd: Command, ctx: Context)
    ensures Ordered(AfterCommand(cfg, mws, p, cmd, ctx)) && StagesFrom(AfterCommand(cfg, mws, p, cmd, ctx), 5)
  {
    if p.exec.None? {
      var a := RunLayer(mws, LayerAfterCommand, p.after, cmd, ctx);
      LayerOrdered(mws, LayerAfterCommand, p.after, cmd, ctx);
      if a.ok {
        CleanupOrdered(cfg, p, ctx);
        OrderedConcat(a.events, Cleanup(cfg, p, ctx), 6);
      }
    }
  }

  lemma ExecuteOrdered(cfg: Config, mws: seq<Middleware>, p: Platform, cmd: Command, ctx: Context)
    ensures Ordered(Execute(cfg, mws, p, cmd, ctx)) && StagesFrom(Execute(cfg, mws, p, cmd, ctx), 3)
  {
    var b := RunLayer(mws, LayerBeforeCommand, p.before, cmd, ctx);
    LayerOrdered(mws, LayerBeforeCommand, p.before, cmd, ctx);
    if b.ok {
      var x := AfterCommand(cfg, mws, p, cmd, ctx);
      AfterCommandOrdered(cfg, mws, p, cmd, ctx);
      OrderedConcat(b.events, [CommandExecuted(cmd, ctx)], 4);
      OrderedConcat(b.events + [CommandExecuted(cmd, ctx)], x, 5);
    }
  }

  lemma RunOrdered(cfg: Config, cmdMap: map<string, Command>, mws: seq<Middleware>, p: Platform, ctx: Context, usedPrefix: string)
    ensures Ordered(Run(cfg, cmdMap, mws, p, ctx, usedPrefix)) && StagesFrom(Run(cfg, cmdMap, mws, p, ctx, usedPrefix), 3)
  {
    forall cmd, c { ExecuteOrdered(cfg, mws, p, cmd, c); }
  }

  lemma LocateOrdered(cfg: Config, cmdMap: map<string, Command>, mws: seq<Middleware>, p: Platform, ctx: Context, usedPrefix: string)
    ensures Ordered(Locate(cfg, cmdMap, mws, p, ctx, usedPrefix)) && StagesFrom(Locate(cfg, cmdMap, mws, p, ctx, usedPrefix), 2)
  {
    var head := [GuildRequested(ctx.message.guildID)];
    if !cfg.allowDM && ctx.isDM {
    } else if ctx.isDM {
      RunOrdered(cfg, cmdMap, mws, p, ctx, usedPrefix);
    } else {
      match Lookup(p.stateGuild, p.restGuild)
      case Failure(e) =>
        OrderedConcat(head, [ErrorReported(ctx, ErrTypGetGuild, e)], 3);
      case Success(g) =>
        RunOrdered(cfg, cmdMap, mws, p, ctx.(guild := Some(g)), usedPrefix);
        OrderedConcat(head, Run(cfg, cmdMap, mws, p, ctx.(guild := Some(g)), usedPrefix), 3);
    }
  }

  lemma ResolveOrdered(cfg: Config, cmdMap: map<string, Command>, mws: seq<Middleware>, p: Platform, ctx: Context, usedPrefix: string)
    ensures Ordered(Resolve(cfg, cmdMap, mws, p, ctx, usedPrefix)) && StagesFrom(Resolve(cfg, cmdMap, mws, p, ctx, usedPrefix), 1)
  {
    var head := [ChannelRequested(ctx.message.channelID)];
    match Lookup(p.stateChannel, p.restChannel)
    case Failure(e) =>
      OrderedConcat(head, [ErrorReported(ctx, ErrTypGetChannel, e)], 2);
    case Success(ch) =>
      var c := ctx.(channel := Some(ch), isDM := IsDMChannel(ch));
      LocateOrdered(cfg, cmdMap, mws, p, c, usedPrefix);
      OrderedConcat(head, Locate(cfg, cmdMap, mws, p, c, usedPrefix), 2);
  }

  /** Every trace of the message handler follows its stages. */
  lemma DispatchOrdered(cfg: Config, cmdMap: map<string, Command>, mws: seq<Middleware>, p: Platform, msg: Message, isEdit: bool)
    ensures Ordered(HandleMessage(cfg, cmdMap, mws, p, msg, isEdit))
  {
    if !Filtered(cfg, p.selfID, msg) {
      var ctx := InitialContext(msg, isEdit);
      var asked := if StartsWith(msg.content, cfg.generalPrefix) then [] else [GuildPrefixRequested(msg.guildID)];
      match SelectPrefix(cfg, msg.content, p.guildPrefix)
      case Failure(e) =>
        OrderedConcat(asked, [ErrorReported(ctx, ErrTypGuildPrefixGetter, e)], 1);
      case Success(u) =>
        ResolveOrdered(cfg, cmdMap, mws, p, ctx, u);
        OrderedConcat(asked, Resolve(cfg, cmdMap, mws, p, ctx, u), 1);
    }
  }

  /**
   * In an ordered trace an error report or a panic can only be the last
   * event, and the command, each lookup and the deletion happen at most once.
   */
  lemma OrderedAtMostOnce(tr: seq<Event>)
    requires Ordered(tr)
    ensures forall k :: 0 <= k < |tr| - 1 ==> !tr[k].ErrorReported? && !tr[k].Panicked?
    ensures forall i, j :: 0 <= i < j < |tr| && !tr[i].MiddlewareHandled? ==> Stage(tr[i]) != Stage(tr[j])
    ensures forall i, j :: 0 <= i < j < |tr| && tr[i].CommandExecuted? ==> !tr[j].CommandExecuted?
  {
    forall k | 0 <= k < |tr| - 1
      ensures !tr[k].ErrorReported? && !tr[k].Panicked?
    {
      assert Stage(tr[k]) < Stage(tr[|tr| - 1]) || tr[k].MiddlewareHandled?;
    }
  }

  /**
   * The message handler reports at most one error per message, as its last
   * call, and runs the command at most once.
   */
  lemma DispatchAtMostOnce(cfg: Config, cmdMap: map<string, Command>, mws: seq<Middleware>, p: Platform, msg: Message, isEdit: bool)
    ensures var tr := HandleMessage(cfg, cmdMap, mws, p, msg, isEdit);
            && (forall k :: 0 <= k < |tr| - 1 ==> !tr[k].ErrorReported? && !tr[k].Panicked?)
            && (forall i, j :: 0 <= i < j < |tr| && tr[i].CommandExecuted? ==> !tr[j].CommandExecuted?)
  {
    DispatchOrdered(cfg, cmdMap, mws, p, msg, isEdit);
    OrderedAtMostOnce(HandleMessage(cfg, cmdMap, mws, p, msg, isEdit));
  }
}
