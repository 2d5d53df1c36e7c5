/**
 * What the render thread does with one message, as a function of whether an
 * EGL context currently exists and whether a renderer is installed, and the
 * discipline the resulting log of EGL and renderer calls keeps: nothing but
 * eglInit and queued Runnables runs without a context, and eglInit never
 * runs with one.
 */
module GLContext {

  import opened Wrappers
  import opened GLMessages

  /** One call the render thread makes into EGLHelper, the Renderer or a queued Runnable. */
  datatype Event =
    | EglInit(width: int, height: int, surface: SurfaceId)  // setSurfaceType + eglInit
    | Created                                               // Renderer.onSurfaceCreated
    | Changed(width: int, height: int)                      // Renderer.onSurfaceChanged
    | Draw                                                  // Renderer.onDrawFrame
    | Swap                                                  // EGLHelper.swap
    | Destroyed                                             // Renderer.onSurfaceDestroyed
    | EglDestroy                                            // EGLHelper.destroy
    | Ran(runnable: RunnableId)                             // Runnable.run

  predicate IsRendererCallback(e: Event) {
    e.Created? || e.Changed? || e.Draw? || e.Destroyed?
  }

  /**
   * The context state after `e`, or None when `e` is not allowed in state
   * `live`: eglInit needs no context, a Runnable runs in either state, every
   * other call needs a context.
   */
  function Transition(live: bool, e: Event): Option<bool> {
    match e
    case EglInit(_, _, _) => if live then None else Some(true)
    case EglDestroy => if live then Some(false) else None
    case Ran(_) => Some(live)
    case _ => if live then Some(true) else None
  }

  /** The context state after a log, starting in `live`; None if the log breaks the discipline. */
  function Replay(live: bool, log: seq<Event>): Option<bool>
    decreases |log|
  {
    if log == [] then Some(live)
    else match Transition(live, log[0])
      case None => None
      case Some(next) => Replay(next, log[1..])
  }

  lemma {:induction false} ReplayAppend(live: bool, a: seq<Event>, b: seq<Event>)
    ensures Replay(live, a + b) == match Replay(live, a)
                                   case None => None
                                   case Some(mid) => Replay(mid, b)
    decreases |a|
  {
    if a == [] {
      assert a + b == b;
    } else {
      assert (a + b)[0] == a[0];
      assert (a + b)[1..] == a[1..] + b;
      match Transition(live, a[0]) {
        case None =>
        case Some(next) => ReplayAppend(next, a[1..], b);
      }
    }
  }

  /** Calls that neither create nor destroy a context are all allowed while one exists, and keep it. */
  lemma {:induction false} ReplayLive(log: seq<Event>)
    requires forall k :: 0 <= k < |log| ==> !log[k].EglInit? && !log[k].EglDestroy?
    ensures Replay(true, log) == Some(true)
    decreases |log|
  {
    if log != [] {
      ReplayLive(log[1..]);
    }
  }

  /** The result of handling messages: the new context state, the calls made, and whether the detach-done runnable was posted. */
  datatype Outcome =
    | Handled(live: bool, events: seq<Event>, postsDetachDone: bool)
    | Fatal  // IllegalStateException out of handleMessage

  /**
   * handleMessage for one message, with `live` the surfaceCreated flag and
   * `hasRenderer` whether the renderer delegate returned a renderer.
   */
  function Handle(live: bool, hasRenderer: bool, m: Msg): (r: Outcome)
    ensures r.Fatal? <==> m.SizeChanged? && !live
    ensures r.Handled? ==> Replay(live, r.events) == Some(r.live)
    ensures r.Handled? ==> (r.postsDetachDone <==> m == DetachDone)
    ensures r.Handled? && !m.Init? && !m.Destroy? ==> r.live == live
  {
    match m
    case Init(w, h, s) =>
      if live then Handled(true, [], false)
      else
        var callbacks := if hasRenderer then [Created, Changed(w, h), Draw] else [];
        ReplayLive(callbacks);
        ReplayAppend(false, [EglInit(w, h, s)], callbacks);
        Handled(true, [EglInit(w, h, s)] + callbacks, false)
    case SizeChanged(w, h) =>
      if !live then Fatal
      else Handled(true, if hasRenderer then [Changed(w, h)] else [], false)
    case DrawFrame =>
      if !live then Handled(false, [], false)
      else
        var events := (if hasRenderer then [Draw] else []) + [Swap];
        ReplayLive(events);
        Handled(true, events, false)
    case Destroy =>
      if !live then Handled(false, [], false)
      else
        var callbacks := if hasRenderer then [Destroyed] else [];
        ReplayLive(callbacks);
        ReplayAppend(true, callbacks, [EglDestroy]);
        Handled(false, callbacks + [EglDestroy], false)
    case DoEvent(run) =>
      Handled(live, [Ran(run)], false)
    case DetachDone =>
      Handled(live, [], true)
  }

  /** `first` followed by `second`: fatal if either is, otherwise both logs and the second's final state. */
  function Join(first: Outcome, second: Outcome): Outcome {
    match first
    case Fatal => Fatal
    case Handled(_, events, p) =>
      match second
      case Fatal => Fatal
      case Handled(last, more, p') => Handled(last, events + more, p || p')
  }

  lemma JoinAssociative(x: Outcome, y: Outcome, z: Outcome)
    ensures Join(Join(x, y), z) == Join(x, Join(y, z))
  {
    if x.Handled? && y.Handled? && z.Handled? {
      assert (x.events + y.events) + z.events == x.events + (y.events + z.events);
    }
  }

  /** A drained queue: its messages handled one after another, each to completion, stopping at a fatal one. */
  function Run(live: bool, hasRenderer: bool, q: seq<Msg>): (r: Outcome)
    ensures r.Handled? ==> Replay(live, r.events) == Some(r.live)
    decreases |q|
  {
    if q == [] then Handled(live, [], false)
    else
      var first := Handle(live, hasRenderer, q[0]);
      if first.Fatal? then Fatal
      else
        var rest := Run(first.live, hasRenderer, q[1..]);
        if rest.Handled? then ReplayAppend(live, first.events, rest.events); Join(first, rest)
        else Fatal
  }

  /** Draining two queues one after the other is draining their concatenation. */
  lemma {:induction false} RunAppend(live: bool, hasRenderer: bool, a: seq<Msg>, b: seq<Msg>)
    ensures Run(live, hasRenderer, a + b) ==
              var first := Run(live, hasRenderer, a);
              if first.Fatal? then Fatal else Join(first, Run(first.live, hasRenderer, b))
    decreases |a|
  {
    if a == [] {
      assert a + b == b;
      var r := Run(live, hasRenderer, b);
      if r.Handled? {
        assert [] + r.events == r.events;
      }
    } else {
      assert (a + b)[0] == a[0];
      assert (a + b)[1..] == a[1..] + b;
      var first := Handle(live, hasRenderer, a[0]);
      if first.Handled? {
        RunAppend(first.live, hasRenderer, a[1..], b);
        var mid := Run(first.live, hasRenderer, a[1..]);
        if mid.Handled? {
          JoinAssociative(first, mid, Run(mid.live, hasRenderer, b));
        }
      }
    }
  }

  /** The renderer calls of a log taken out, leaving EGL calls and Runnables. */
  function WithoutCallbacks(log: seq<Event>): (r: seq<Event>)
    ensures forall e :: e in r ==> e in log && !IsRendererCallback(e)
  {
    if log == [] then []
    else (if IsRendererCallback(log[0]) then [] else [log[0]]) + WithoutCallbacks(log[1..])
  }

  /**
   * Without a renderer, handleMessage makes the same EGL calls and reaches the
   * same context state as with one; only the renderer callbacks are skipped.
   */
  lemma NullRendererSkipsOnlyCallbacks(live: bool, m: Msg)
    ensures Handle(live, false, m) == match Handle(live, true, m)
      case Fatal => Fatal
      case Handled(l, events, p) => Handled(l, WithoutCallbacks(events), p)
  {
    match m {
      case Init(w, h, s) =>
        var tail := [Created, Changed(w, h), Draw];
        assert WithoutCallbacks(tail[2..]) == [];
        assert WithoutCallbacks(tail[1..]) == [];
        assert WithoutCallbacks(tail) == [];
        assert ([EglInit(w, h, s)] + tail)[1..] == tail;
      case DrawFrame =>
        assert ([Draw] + [Swap])[1..] == [Swap];
        assert WithoutCallbacks([Swap]) == [Swap] + WithoutCallbacks([]);
      case Destroy =>
        assert ([Destroyed] + [EglDestroy])[1..] == [EglDestroy];
        assert WithoutCallbacks([EglDestroy]) == [EglDestroy] + WithoutCallbacks([]);
      case _ =>
    }
  }

  /**
   * Resize, draw and destroy requests issued before any Init make no EGL or
   * renderer call: the only thing that can happen is a queued Runnable running.
   */
  lemma {:induction false} NoEglWorkBeforeInit(hasRenderer: bool, q: seq<Msg>)
    requires forall k :: 0 <= k < |q| ==> !q[k].Init?
    ensures Run(false, hasRenderer, q).Handled? ==>
              !Run(false, hasRenderer, q).live &&
              forall e :: e in Run(false, hasRenderer, q).events ==> e.Ran?
    decreases |q|
  {
    if q != [] {
      NoEglWorkBeforeInit(hasRenderer, q[1..]);
    }
  }

  /**
   * The queue a detach leaves behind always ends with the context gone and
   * the detach-done runnable posted, whatever was pending before it, unless a
   * pending message was fatal.
   */
  lemma DetachedQueueDrains(live: bool, hasRenderer: bool, q: seq<Msg>)
    ensures Run(live, hasRenderer, q + [Destroy, DetachDone]).Fatal? ||
            (!Run(live, hasRenderer, q + [Destroy, DetachDone]).live &&
             Run(live, hasRenderer, q + [Destroy, DetachDone]).postsDetachDone)
  {
    RunAppend(live, hasRenderer, q, [Destroy, DetachDone]);
    var first := Run(live, hasRenderer, q);
    if first.Handled? {
      DestroyThenDetachDone(first.live, hasRenderer);
    }
  }

  lemma DestroyThenDetachDone(live: bool, hasRenderer: bool)
    ensures Run(live, hasRenderer, [Destroy, DetachDone]).Handled?
    ensures !Run(live, hasRenderer, [Destroy, DetachDone]).live
    ensures Run(live, hasRenderer, [Destroy, DetachDone]).postsDetachDone
  {
    assert [Destroy, DetachDone][1..] == [DetachDone];
    assert Run(false, hasRenderer, [DetachDone]) == Handled(false, [], true);
  }

  /** A surface becoming available: eglInit, then created, size-changed and one draw, and no swap; a second Init is absorbed. */
  lemma InitRunsSetupOnce(w: int, h: int, s: SurfaceId, w2: int, h2: int, s2: SurfaceId)
    ensures Run(false, true, [Init(w, h, s), Init(w2, h2, s2)])
         == Handled(true, [EglInit(w, h, s), Created, Changed(w, h), Draw], false)
  {
    assert [Init(w, h, s), Init(w2, h2, s2)][1..] == [Init(w2, h2, s2)];
    assert Run(true, true, [Init(w2, h2, s2)]) == Handled(true, [], false);
    assert [EglInit(w, h, s), Created, Changed(w, h), Draw] + [] == [EglInit(w, h, s), Created, Changed(w, h), Draw];
  }

  /** Any number of requestRender calls after an Init, before the thread runs, give one extra draw and swap. */
  lemma RequestsAfterInitDrawOnce(w: int, h: int, s: SurfaceId, n: nat)
    ensures Run(false, true, RequestRenders(n + 1, [Init(w, h, s)]))
         == Handled(true, [EglInit(w, h, s), Created, Changed(w, h), Draw, Draw, Swap], false)
  {
    RequestRendersCoalesce(n, [Init(w, h, s)]);
    var q := Coalesced([Init(w, h, s)]);
    assert RemoveMessages([Init(w, h, s)], MSG_DRAW_FRAME) == [Init(w, h, s)];
    assert q == [Init(w, h, s), DrawFrame];
    assert q[1..] == [DrawFrame];
    assert Run(true, true, [DrawFrame]) == Handled(true, [Draw, Swap], false);
    assert [EglInit(w, h, s), Created, Changed(w, h), Draw] + [Draw, Swap]
        == [EglInit(w, h, s), Created, Changed(w, h), Draw, Draw, Swap];
  }

  /** The queue after `n` back-to-back requestRender calls. */
  function RequestRenders(n: nat, q: seq<Msg>): seq<Msg>
  {
    if n == 0 then q else Coalesced(RequestRenders(n - 1, q))
  }

  lemma {:induction false} RequestRendersCoalesce(n: nat, q: seq<Msg>)
    ensures RequestRenders(n + 1, q) == Coalesced(q)
  {
    if n > 0 {
      RequestRendersCoalesce(n - 1, q);
      CoalescedIdempotent(q);
    }
  }

  /** After a pause's Destroy, a requested draw makes no call: onSurfaceDestroyed and eglDestroy come last. */
  lemma PauseStopsDrawing(w: int, h: int, s: SurfaceId)
    ensures Run(false, true, [Init(w, h, s), Destroy, DrawFrame])
         == Handled(false, [EglInit(w, h, s), Created, Changed(w, h), Draw, Destroyed, EglDestroy], false)
  {
    var q := [Init(w, h, s), Destroy, DrawFrame];
    assert q[1..] == [Destroy, DrawFrame];
    assert q[1..][1..] == [DrawFrame];
    assert Run(false, true, [DrawFrame]) == Handled(false, [], false);
    assert Run(true, true, [Destroy, DrawFrame]) == Handled(false, [Destroyed, EglDestroy], false);
    assert [Destroyed, EglDestroy] + [] == [Destroyed, EglDestroy];
    assert [EglInit(w, h, s), Created, Changed(w, h), Draw] + [Destroyed, EglDestroy]
        == [EglInit(w, h, s), Created, Changed(w, h), Draw, Destroyed, EglDestroy];
  }
}
