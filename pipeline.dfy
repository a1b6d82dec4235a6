/**
 * The middleware layers: an ordered scan over the registered middleware that
 * skips those not subscribed to the layer and stops at the first one that
 * fails (reported) or declines (silent).
 */
module Pipeline {
  import opened Wrappers
  import opened Registry
  import opened Events

  /** The two layers, as distinct bit flags. */
  const LayerBeforeCommand: MiddlewareLayer := 1
  const LayerAfterCommand: MiddlewareLayer := 2

  /** A registered middleware: an identity and the mask of layers it subscribes to. */
  datatype Middleware = Middleware(id: nat, layer: MiddlewareLayer)

  /** What a middleware's handler answered: go on or not, and an error or nil. */
  datatype HandleResult = HandleResult(next: bool, err: Option<Error>)

  predicate Subscribed(mw: Middleware, layer: MiddlewareLayer) {
    mw.layer & layer != 0
  }

  /** The answer that lets the layer go on: no error and `next`. */
  predicate Continues(h: HandleResult) {
    h.err.None? && h.next
  }

  /** Whether the layer let the dispatch go on, and the calls it made. */
  datatype LayerRun = LayerRun(ok: bool, events: seq<Event>)

  /**
   * The scan from position j on; answers(k) is what middleware k answers on
   * this layer when it is called.
   */
  function RunLayerFrom(mws: seq<Middleware>, layer: MiddlewareLayer, answers: nat -> HandleResult, cmd: Command, ctx: Context, j: nat): LayerRun
    requires j <= |mws|
    decreases |mws| - j
  {
    if j == |mws| then LayerRun(true, [])
    else if !Subscribed(mws[j], layer) then RunLayerFrom(mws, layer, answers, cmd, ctx, j + 1)
    else
      var call := [MiddlewareHandled(j, layer, cmd, ctx)];
      var a := answers(j);
      if a.err.Some? then LayerRun(false, call + [ErrorReported(ctx, ErrTypMiddleware, a.err.value)])
      else if !a.next then LayerRun(false, call)
      else
        var rest := RunLayerFrom(mws, layer, answers, cmd, ctx, j + 1);
        LayerRun(rest.ok, call + rest.events)
  }

  function RunLayer(mws: seq<Middleware>, layer: MiddlewareLayer, answers: nat -> HandleResult, cmd: Command, ctx: Context): LayerRun
  {
    RunLayerFrom(mws, layer, answers, cmd, ctx, 0)
  }

  /** One handler call for each subscribed middleware in [lo, hi), in order. */
  function CallsBetween(mws: seq<Middleware>, layer: MiddlewareLayer, cmd: Command, ctx: Context, lo: nat, hi: nat): seq<Event>
    requires lo <= hi <= |mws|
    decreases hi - lo
  {
    if lo == hi then []
    else if Subscribed(mws[lo], layer) then [MiddlewareHandled(lo, layer, cmd, ctx)] + CallsBetween(mws, layer, cmd, ctx, lo + 1, hi)
    else CallsBetween(mws, layer, cmd, ctx, lo + 1, hi)
  }

  /**
   * The position where the scan from j stops: the first subscribed
   * middleware from j on that does not continue, or |mws| when there is none.
   */
  function FirstStop(mws: seq<Middleware>, layer: MiddlewareLayer, answers: nat -> HandleResult, j: nat): (s: nat)
    requires j <= |mws|
    ensures j <= s <= |mws|
    ensures forall k :: j <= k < s && Subscribed(mws[k], layer) ==> Continues(answers(k))
    ensures s < |mws| ==> Subscribed(mws[s], layer) && !Continues(answers(s))
    decreases |mws| - j
  {
    if j == |mws| then j
    else if Subscribed(mws[j], layer) && !Continues(answers(j)) then j
    else FirstStop(mws, layer, answers, j + 1)
  }

  /** The calls made before and at the stopping middleware, and its error report if it answered with one. */
  function StopEvents(mws: seq<Middleware>, layer: MiddlewareLayer, answers: nat -> HandleResult, cmd: Command, ctx: Context, s: nat, lo: nat): seq<Event>
    requires lo <= s < |mws|
  {
    CallsBetween(mws, layer, cmd, ctx, lo, s + 1) +
      (if answers(s).err.Some? then [ErrorReported(ctx, ErrTypMiddleware, answers(s).err.value)] else [])
  }

  // ---------------------------------------------------------------------
  // Properties

  /**
   * The scan from j passes exactly when it reaches the end without a stop,
   * having called every subscribed middleware once, in order; otherwise it
   * has called the subscribed ones up to and including the stopping one and
   * reported that one's error, if any.
   */
  predicate ScanMeetsSpec(mws: seq<Middleware>, layer: MiddlewareLayer, answers: nat -> HandleResult, cmd: Command, ctx: Context, j: nat)
    requires j <= |mws|
  {
    var r := RunLayerFrom(mws, layer, answers, cmd, ctx, j);
    var s := FirstStop(mws, layer, answers, j);
    && (r.ok <==> s == |mws|)
    && (r.ok ==> r.events == CallsBetween(mws, layer, cmd, ctx, j, |mws|))
    && (!r.ok ==> r.events == StopEvents(mws, layer, answers, cmd, ctx, s, j))
  }

  lemma {:induction false} RunLayerFromSpec(mws: seq<Middleware>, layer: MiddlewareLayer, answers: nat -> HandleResult, cmd: Command, ctx: Context, j: nat)
    requires j <= |mws|
    ensures var r := RunLayerFrom(mws, layer, answers, cmd, ctx, j);
            var s := FirstStop(mws, layer, answers, j);
            && (r.ok <==> s == |mws|)
            && (r.ok ==> r.events == CallsBetween(mws, layer, cmd, ctx, j, |mws|))
            && (!r.ok ==> r.events == StopEvents(mws, layer, answers, cmd, ctx, s, j))
    decreases |mws| - j
  {
    if j < |mws| {
      if !Subscribed(mws[j], layer) {
        RunLayerFromSpec(mws, layer, answers, cmd, ctx, j + 1);
        SkipStep(mws, layer, answers, cmd, ctx, j);
      } else if !Continues(answers(j)) {
        StopStep(mws, layer, answers, cmd, ctx, j);
      } else {
        RunLayerFromSpec(mws, layer, answers, cmd, ctx, j + 1);
        PassStep(mws, layer, answers, cmd, ctx, j);
      }
    }
  }

  /** One step of the scan: skip, stop after the call (and its error), or call and go on. */
  lemma ScanStep(mws: seq<Middleware>, layer: MiddlewareLayer, answers: nat -> HandleResult, cmd: Command, ctx: Context, j: nat)
    requires j < |mws|
    ensures var r := RunLayerFrom(mws, layer, answers, cmd, ctx, j);
            var rest := RunLayerFrom(mws, layer, answers, cmd, ctx, j + 1);
            var call := MiddlewareHandled(j, layer, cmd, ctx);
            && (!Subscribed(mws[j], layer) ==> r == rest)
            && (Subscribed(mws[j], layer) && answers(j).err.Some? ==>
                  r == LayerRun(false, [call, ErrorReported(ctx, ErrTypMiddleware, answers(j).err.value)]))
            && (Subscribed(mws[j], layer) && answers(j).err.None? && !answers(j).next ==> r == LayerRun(false, [call]))
            && (Subscribed(mws[j], layer) && Continues(answers(j)) ==> r == LayerRun(rest.ok, [call] + rest.events))
  {
  }

  /** A middleware not subscribed to the layer changes nothing. */
  lemma SkipStep(mws: seq<Middleware>, layer: MiddlewareLayer, answers: nat -> HandleResult, cmd: Command, ctx: Context, j: nat)
    requires j < |mws| && !Subscribed(mws[j], layer) && ScanMeetsSpec(mws, layer, answers, cmd, ctx, j + 1)
    ensures ScanMeetsSpec(mws, layer, answers, cmd, ctx, j)
  {
    var s := FirstStop(mws, layer, answers, j);
    if s < |mws| {
      assert CallsBetween(mws, layer, cmd, ctx, j, s + 1) == CallsBetween(mws, layer, cmd, ctx, j + 1, s + 1);
    }
  }

  /** The stopping middleware: its call, and its error if it answered one. */
  lemma StopStep(mws: seq<Middleware>, layer: MiddlewareLayer, answers: nat -> HandleResult, cmd: Command, ctx: Context, j: nat)
    requires j < |mws| && Subscribed(mws[j], layer) && !Continues(answers(j))
    ensures ScanMeetsSpec(mws, layer, answers, cmd, ctx, j)
  {
    assert CallsBetween(mws, layer, cmd, ctx, j + 1, j + 1) == [];
  }

  /** A middleware that continues: its call, then the rest of the scan. */
  lemma PassStep(mws: seq<Middleware>, layer: MiddlewareLayer, answers: nat -> HandleResult, cmd: Command, ctx: Context, j: nat)
    requires j < |mws| && Subscribed(mws[j], layer) && Continues(answers(j)) && ScanMeetsSpec(mws, layer, answers, cmd, ctx, j + 1)
    ensures ScanMeetsSpec(mws, layer, answers, cmd, ctx, j)
  {
    var s := FirstStop(mws, layer, answers, j);
    var call := [MiddlewareHandled(j, layer, cmd, ctx)];
    if s < |mws| {
      var tail := if answers(s).err.Some? then [ErrorReported(ctx, ErrTypMiddleware, answers(s).err.value)] else [];
      assert CallsBetween(mws, layer, cmd, ctx, j, s + 1) == call + CallsBetween(mws, layer, cmd, ctx, j + 1, s + 1);
      assert (call + CallsBetween(mws, layer, cmd, ctx, j + 1, s + 1)) + tail == call + (CallsBetween(mws, layer, cmd, ctx, j + 1, s + 1) + tail);
    }
  }

  /** A layer passes exactly when every middleware subscribed to it answers (true, nil). */
  lemma RunLayerOk(mws: seq<Middleware>, layer: MiddlewareLayer, answers: nat -> HandleResult, cmd: Command, ctx: Context)
    ensures RunLayer(mws, layer, answers, cmd, ctx).ok <==>
            forall k :: 0 <= k < |mws| && Subscribed(mws[k], layer) ==> Continues(answers(k))
  {
    RunLayerFromSpec(mws, layer, answers, cmd, ctx, 0);
  }

  /** A passing layer calls every subscribed middleware exactly once, in registration order. */
  lemma RunLayerPassCalls(mws: seq<Middleware>, layer: MiddlewareLayer, answers: nat -> HandleResult, cmd: Command, ctx: Context)
    requires RunLayer(mws, layer, answers, cmd, ctx).ok
    ensures RunLayer(mws, layer, answers, cmd, ctx).events == CallsBetween(mws, layer, cmd, ctx, 0, |mws|)
  {
    RunLayerFromSpec(mws, layer, answers, cmd, ctx, 0);
  }

  /**
   * A failing layer stops at the first subscribed middleware that does not
   * continue: nothing after it is called, and exactly one middleware error
   * is reported when it answered with an error, none when it only declined.
   */
  lemma RunLayerStop(mws: seq<Middleware>, layer: MiddlewareLayer, answers: nat -> HandleResult, cmd: Command, ctx: Context)
    requires !RunLayer(mws, layer, answers, cmd, ctx).ok
    ensures var s := FirstStop(mws, layer, answers, 0);
            && s < |mws|
            && RunLayer(mws, layer, answers, cmd, ctx).events == StopEvents(mws, layer, answers, cmd, ctx, s, 0)
  {
    RunLayerFromSpec(mws, layer, answers, cmd, ctx, 0);
  }

  /** Calls only ever go to subscribed middleware in range, and carry the layer. */
  lemma {:induction false} CallsBetweenSubscribed(mws: seq<Middleware>, layer: MiddlewareLayer, cmd: Command, ctx: Context, lo: nat, hi: nat)
    requires lo <= hi <= |mws|
    ensures forall e :: e in CallsBetween(mws, layer, cmd, ctx, lo, hi) ==>
              e.MiddlewareHandled? && lo <= e.index < hi && e.layer == layer && Subscribed(mws[e.index], layer)
              && e.cmd == cmd && e.ctx == ctx
    decreases hi - lo
  {
    if lo < hi {
      CallsBetweenSubscribed(mws, layer, cmd, ctx, lo + 1, hi);
    }
  }

  /**
   * Every event of a layer is a handler call on that layer to a subscribed
   * middleware, except possibly the last, which is then the layer's single
   * middleware error report and means the layer failed.
   */
  lemma RunLayerEvents(mws: seq<Middleware>, layer: MiddlewareLayer, answers: nat -> HandleResult, cmd: Command, ctx: Context)
    ensures var r := RunLayer(mws, layer, answers, cmd, ctx);
            && (forall k :: 0 <= k < |r.events| - 1 ==> r.events[k].MiddlewareHandled? && r.events[k].layer == layer)
            && (forall k :: 0 <= k < |r.events| ==>
                  (r.events[k].MiddlewareHandled? && r.events[k].layer == layer) || r.events[k].ErrorReported?)
            && (forall k :: 0 <= k < |r.events| ==> r.events[k].ctx == ctx)
            && (forall k :: 0 <= k < |r.events| && r.events[k].MiddlewareHandled? ==> r.events[k].cmd == cmd)
            && (forall k :: 0 <= k < |r.events| && r.events[k].ErrorReported? ==>
                  k == |r.events| - 1 && !r.ok && r.events[k].kind == ErrTypMiddleware)
  {
    var r := RunLayer(mws, layer, answers, cmd, ctx);
    RunLayerFromSpec(mws, layer, answers, cmd, ctx, 0);
    var calls;
    if r.ok {
      calls := CallsBetween(mws, layer, cmd, ctx, 0, |mws|);
      CallsBetweenSubscribed(mws, layer, cmd, ctx, 0, |mws|);
    } else {
      var s := FirstStop(mws, layer, answers, 0);
      calls := CallsBetween(mws, layer, cmd, ctx, 0, s + 1);
      CallsBetweenSubscribed(mws, layer, cmd, ctx, 0, s + 1);
    }
    assert r.events[..|calls|] == calls;
    assert |r.events| <= |calls| + 1;
    forall k | 0 <= k < |calls|
      ensures r.events[k].MiddlewareHandled? && r.events[k].layer == layer
      ensures r.events[k].cmd == cmd && r.events[k].ctx == ctx
    {
      assert r.events[k] == calls[k] && calls[k] in calls;
    }
  }
}
