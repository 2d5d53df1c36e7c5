/**
 * The host side of GLTextureView: the flags it keeps across the view's
 * attach/detach and pause/resume lifecycle, the messages it sends to the
 * current render thread, and how a detach racing with a re-attach is
 * resolved. Every render thread ever started is kept in `workers`, oldest
 * first: a detached thread keeps draining its queue (quitSafely) after the
 * view has dropped its reference, and its DetachDone message posts the
 * detach-done runnable back to the main thread, where RunPostedDetachDone
 * runs it.
 */
module GLView {

  import opened Wrappers
  import opened GLMessages
  import opened GLContext
  import opened GLHandler

  /** Identity of a GLEnvCallback. */
  type ListenerId = nat

  /** A thread with nothing left to do and no context. */
  predicate Finished(w: Worker)
    reads w
  {
    w.queue == [] && !w.surfaceCreated
  }

  /** A thread just started: nothing queued, nothing done. */
  predicate Pristine(w: Worker)
    reads w
  {
    w.queue == [] && !w.surfaceCreated && w.log == [] && !w.crashed
  }

  ghost predicate Distinct(ws: seq<Worker>) {
    forall i, j :: 0 <= i < j < |ws| ==> ws[i] != ws[j]
  }

  /**
   * The queue of a detached thread that has not yet reached its DetachDone:
   * either Destroy and DetachDone are still the last two messages, or only
   * DetachDone is left and the context is gone.
   */
  predicate Draining(q: seq<Msg>, live: bool) {
    || (|q| >= 2 && q[|q| - 2] == Destroy && q[|q| - 1] == DetachDone && DetachDone !in q[..|q| - 2])
    || (q == [DetachDone] && !live)
  }

  /**
   * Where the last detached thread is while detachDone is false and `posted`
   * detach-done runnables wait on the main thread: still draining, dead, or
   * finished with at most one runnable posted.
   */
  predicate DetachInFlight(w: Worker, posted: nat)
    reads w
  {
    if posted == 0 then Finished(w) || w.crashed || Draining(w.queue, w.surfaceCreated)
    else posted == 1 && Finished(w)
  }

  /** The listeners notified by generateGLThread: gLEnvCallback first, then the queued ones in order. */
  function Notifications(callback: Option<ListenerId>, queued: seq<ListenerId>): seq<ListenerId> {
    (if callback.Some? then [callback.value] else []) + queued
  }

  /** `w`, if there is one, got exactly `msgs` appended to its queue, and nothing else about it changed. */
  twostate predicate SentOnly(w: Worker?, msgs: seq<Msg>)
    reads w
  {
    w != null ==>
      w.queue == old(w.queue) + msgs && w.surfaceCreated == old(w.surfaceCreated) &&
      w.log == old(w.log) && w.crashed == old(w.crashed)
  }

  class GLTextureView {
    var handler: Worker?               // glHandler and glHandlerThread
    var workers: seq<Worker>           // every render thread started so far, oldest first
    var hasRenderer: bool              // renderer != null
    var paused: bool
    var detachDone: bool
    var needDoPendingAttach: bool
    var envCallback: Option<ListenerId>   // gLEnvCallback
    var envCreateListeners: seq<ListenerId>
    var notified: seq<ListenerId>      // onGLEnvCreated calls so far, in order
    var postedDetachDone: nat          // detach-done runnables waiting on the main looper

    /**
     * At most the newest thread is still running or holds a context; the
     * current handler, if any, is the newest thread, exists only while no
     * detach is in flight and never holds DetachDone; a deferred attach is
     * pending only while a detach is in flight.
     */
    ghost predicate Valid()
      reads this, workers
    {
      && Distinct(workers)
      && (forall i :: 0 <= i < |workers| ==> workers[i].Valid())
      && (forall i :: 0 <= i < |workers| - 1 ==> Finished(workers[i]))
      && (detachDone ==> !needDoPendingAttach)
      && (handler != null ==>
            && |workers| > 0 && handler == workers[|workers| - 1]
            && detachDone && postedDetachDone == 0 && DetachDone !in handler.queue)
      && (handler == null && detachDone ==>
            postedDetachDone == 0 && (|workers| > 0 ==> Finished(workers[|workers| - 1])))
      && (handler == null && !detachDone ==>
            if |workers| == 0 then postedDetachDone == 0
            else DetachInFlight(workers[|workers| - 1], postedDetachDone))
    }

    constructor ()
      ensures Valid()
      ensures handler == null && workers == [] && !hasRenderer && !paused
      ensures detachDone && !needDoPendingAttach && postedDetachDone == 0
      ensures envCallback == None && envCreateListeners == [] && notified == []
    {
      handler := null;
      workers := [];
      hasRenderer := false;
      paused := false;
      detachDone := true;
      needDoPendingAttach := false;
      envCallback := None;
      envCreateListeners := [];
      notified := [];
      postedDetachDone := 0;
    }

    /** setRenderer: the render thread sees the renderer from its next message on. */
    method SetRenderer()
      requires Valid()
      modifies this`hasRenderer
      ensures Valid() && hasRenderer
    {
      hasRenderer := true;
    }

    /** Assigning gLEnvCallback. */
    method SetEnvCallback(callback: Option<ListenerId>)
      requires Valid()
      modifies this`envCallback
      ensures Valid() && envCallback == callback
    {
      envCallback := callback;
    }

    method OnSurfaceTextureAvailable(surface: SurfaceId, width: int, height: int)
      requires Valid()
      modifies handler
      ensures Valid()
      ensures SentOnly(handler, if paused then [] else [Init(width, height, surface)])
    {
      InitGL(surface, width, height);
    }

    method OnSurfaceTextureSizeChanged(surface: SurfaceId, width: int, height: int)
      requires Valid()
      modifies handler
      ensures Valid()
      ensures SentOnly(handler, [SizeChanged(width, height)])
    {
      NotifySurfaceSizeChanged(width, height);
    }

    /** The view never releases the SurfaceTexture itself, and sends nothing. */
    method OnSurfaceTextureDestroyed(surface: SurfaceId) returns (release: bool)
      ensures !release
    {
      release := false;
    }

    /** Sends Init unless paused; a no-op without a render thread. */
    method InitGL(surface: SurfaceId, width: int, height: int)
      requires Valid()
      modifies handler
      ensures Valid()
      ensures SentOnly(handler, if paused then [] else [Init(width, height, surface)])
    {
      if paused {
        return;
      }
      if handler != null {
        handler.SendMessage(Init(width, height, surface));
      }
    }

    method NotifySurfaceSizeChanged(width: int, height: int)
      requires Valid()
      modifies handler
      ensures Valid()
      ensures SentOnly(handler, [SizeChanged(width, height)])
    {
      if handler != null {
        handler.SendMessage(SizeChanged(width, height));
      }
    }

    method DestroyGL()
      modifies handler
      ensures SentOnly(handler, [Destroy])
    {
      if handler != null {
        handler.SendMessage(Destroy);
      }
    }

    method MarkDetach()
      modifies handler
      ensures SentOnly(handler, [DetachDone])
    {
      if handler != null {
        handler.SendMessage(DetachDone);
      }
    }

    /** Every pending DrawFrame is dropped and one is sent: draw requests coalesce. */
    method RequestRender()
      requires Valid()
      modifies handler
      ensures Valid()
      ensures handler != null ==>
                handler.queue == Coalesced(old(handler.queue)) &&
                handler.surfaceCreated == old(handler.surfaceCreated) &&
                handler.log == old(handler.log) && handler.crashed == old(handler.crashed)
    {
      if handler != null {
        handler.RemoveMessages(MSG_DRAW_FRAME);
        handler.SendMessage(DrawFrame);
      }
    }

    method QueueEvent(runnable: RunnableId)
      requires Valid()
      modifies handler
      ensures Valid()
      ensures SentOnly(handler, [DoEvent(runnable)])
    {
      if handler != null {
        handler.SendMessage(DoEvent(runnable));
      }
    }

    method OnPause()
      requires Valid()
      modifies this`paused, handler
      ensures Valid() && paused
      ensures SentOnly(handler, [Destroy])
    {
      paused := true;
      DestroyGL();
    }

    /** `width`, `height` and `surface` are the view's size and SurfaceTexture at the time of the call. */
    method OnResume(width: int, height: int, surface: Option<SurfaceId>)
      requires Valid()
      modifies this`paused, handler
      ensures Valid() && !paused
      ensures SentOnly(handler, InitFor(width, height, surface))
    {
      paused := false;
      TryInitGL(width, height, surface);
    }

    /** An Init for the view's current surface, when it has one of nonzero size. */
    static function InitFor(width: int, height: int, surface: Option<SurfaceId>): (msgs: seq<Msg>)
      ensures |msgs| <= 1
      ensures msgs != [] <==> width != 0 && height != 0 && surface.Some?
    {
      if width != 0 && height != 0 && surface.Some? then [Init(width, height, surface.value)] else []
    }

    method TryInitGL(width: int, height: int, surface: Option<SurfaceId>)
      requires Valid()
      modifies handler
      ensures Valid()
      ensures SentOnly(handler, if paused then [] else InitFor(width, height, surface))
    {
      if width != 0 && height != 0 && surface.Some? {
        InitGL(surface.value, width, height);
      }
    }

    /** A render thread exists; then no detach is in flight and every earlier thread has finished. */
    function GlEnvReady(): (ready: bool)
      requires Valid()
      reads this, workers
      ensures ready ==> detachDone && postedDetachDone == 0 && |workers| > 0
      ensures ready ==> forall i :: 0 <= i < |workers| - 1 ==> Finished(workers[i])
    {
      handler != null
    }

    method AddEnvCreateListeners(listener: ListenerId)
      requires Valid()
      modifies this`envCreateListeners
      ensures Valid()
      ensures envCreateListeners == old(envCreateListeners) + [listener]
    {
      envCreateListeners := envCreateListeners + [listener];
    }

    /**
     * Starts a fresh render thread and makes it the current one, then
     * notifies gLEnvCallback and drains envCreateListeners in order.
     */
    method GenerateGLThread()
      requires Distinct(workers) && forall i :: 0 <= i < |workers| ==> workers[i].Valid() && Finished(workers[i])
      modifies this`handler, this`workers, this`envCreateListeners, this`notified
      ensures fresh(handler) && workers == old(workers) + [handler]
      ensures handler.Valid() && Pristine(handler)
      ensures Distinct(workers)
      ensures notified == old(notified) + Notifications(envCallback, old(envCreateListeners))
      ensures envCreateListeners == []
    {
      var w := new Worker();
      workers := workers + [w];
      handler := w;
      if envCallback.Some? {
        notified := notified + [envCallback.value];
      }
      while envCreateListeners != []
        invariant notified + envCreateListeners == old(notified) + Notifications(envCallback, old(envCreateListeners))
        invariant handler == w && workers == old(workers) + [w]
        invariant w.Valid() && w.queue == [] && !w.surfaceCreated && w.log == [] && !w.crashed
        decreases |envCreateListeners|
      {
        var listener := envCreateListeners[0];
        envCreateListeners := envCreateListeners[1..];
        notified := notified + [listener];
      }
    }

    /**
     * onAttachedToWindow: throws if a render thread exists; defers the attach
     * while a detach is in flight; otherwise starts a thread at once.
     */
    method OnAttachedToWindow() returns (ok: bool)
      requires Valid()
      modifies this
      ensures Valid()
      ensures ok <==> old(handler) == null
      ensures !ok ==> unchanged(this)
      ensures ok && !old(detachDone) ==>
                && needDoPendingAttach && handler == null && workers == old(workers)
                && notified == old(notified) && envCreateListeners == old(envCreateListeners)
      ensures ok && old(detachDone) ==>
                && fresh(handler) && workers == old(workers) + [handler] && Pristine(handler)
                && !needDoPendingAttach
                && notified == old(notified) + Notifications(envCallback, old(envCreateListeners))
                && envCreateListeners == []
                && forall i :: 0 <= i < |old(workers)| ==> Finished(old(workers)[i])
      ensures paused == old(paused) && detachDone == old(detachDone) && hasRenderer == old(hasRenderer)
      ensures postedDetachDone == old(postedDetachDone) && envCallback == old(envCallback)
    {
      if handler != null {
        return false;
      }
      ok := true;
      if !detachDone {
        needDoPendingAttach := true;
      } else {
        GenerateGLThread();
        needDoPendingAttach := false;
      }
    }

    /**
     * onDetachedFromWindow: Destroy then DetachDone go to the current thread,
     * which is let go; a deferred attach is cancelled.
     */
    method OnDetachedFromWindow()
      requires Valid()
      modifies this`detachDone, this`handler, this`needDoPendingAttach, handler
      ensures Valid()
      ensures handler == null && !detachDone && !needDoPendingAttach
      ensures SentOnly(old(handler), [Destroy, DetachDone])
    {
      detachDone := false;
      DestroyGL();
      MarkDetach();
      if handler != null {
        assert handler.queue[..|handler.queue| - 2] == old(handler.queue);
      }
      handler := null;
      needDoPendingAttach := false;
    }

    /**
     * The looper of thread `i` dispatching its next message; only the last
     * detached thread ever posts the detach-done runnable.
     */
    method Dispatch(i: nat) returns (result: StepResult)
      requires Valid() && i < |workers|
      modifies this`postedDetachDone, workers[i]
      ensures Valid()
      ensures Stepped(workers[i], hasRenderer, result)
      ensures postedDetachDone == old(postedDetachDone) + (if result == PostedDetachDone then 1 else 0)
      ensures result == PostedDetachDone ==> i == |workers| - 1 && handler == null && !detachDone
    {
      var w := workers[i];
      result := w.Step(hasRenderer);
      if result == PostedDetachDone {
        postedDetachDone := postedDetachDone + 1;
      }
    }

    /**
     * The main looper running a posted detach-done runnable, with `width`,
     * `height` and `surface` the view's state at that time: the detach is
     * complete, and a deferred attach is carried out now.
     */
    method RunPostedDetachDone(width: int, height: int, surface: Option<SurfaceId>) returns (ran: bool)
      requires Valid()
      modifies this
      ensures Valid()
      ensures ran <==> old(postedDetachDone) > 0
      ensures !ran ==> unchanged(this)
      ensures ran ==> detachDone && !needDoPendingAttach && postedDetachDone == old(postedDetachDone) - 1
      ensures paused == old(paused) && hasRenderer == old(hasRenderer) && envCallback == old(envCallback)
      ensures ran && !old(needDoPendingAttach) ==>
                && handler == null && workers == old(workers)
                && notified == old(notified) && envCreateListeners == old(envCreateListeners)
      ensures ran && old(needDoPendingAttach) ==>
                && fresh(handler) && workers == old(workers) + [handler]
                && handler.queue == (if paused then [] else InitFor(width, height, surface))
                && !handler.surfaceCreated && handler.log == [] && !handler.crashed
                && notified == old(notified) + Notifications(envCallback, old(envCreateListeners))
                && envCreateListeners == []
                && forall i :: 0 <= i < |old(workers)| ==> Finished(old(workers)[i])
    {
      if postedDetachDone == 0 {
        return false;
      }
      ran := true;
      postedDetachDone := postedDetachDone - 1;
      detachDone := true;
      if needDoPendingAttach {
        GenerateGLThread();
        needDoPendingAttach := false;
        TryInitGL(width, height, surface);
      }
    }
  }

  /** At most one render thread holds an EGL context, and it is the newest one. */
  lemma SingleContext(v: GLTextureView)
    requires v.Valid()
    ensures forall i :: 0 <= i < |v.workers| && v.workers[i].surfaceCreated ==> i == |v.workers| - 1
  {
  }

  /**
   * While a detach is in flight and nothing has been posted yet, the old
   * thread, unless it has died or has nothing left, ends its queue with no
   * context and the detach-done runnable posted, which is what lets a
   * deferred attach go ahead.
   */
  lemma InFlightDetachCompletes(v: GLTextureView, hasRenderer: bool)
    requires v.Valid() && v.handler == null && !v.detachDone && |v.workers| > 0 && v.postedDetachDone == 0
    ensures var w := v.workers[|v.workers| - 1];
            var r := Run(w.surfaceCreated, hasRenderer, w.queue);
            Finished(w) || w.crashed || r.Fatal? || (!r.live && r.postsDetachDone)
  {
    var w := v.workers[|v.workers| - 1];
    var q := w.queue;
    if |q| >= 2 && q[|q| - 2] == Destroy && q[|q| - 1] == DetachDone {
      assert q == q[..|q| - 2] + [Destroy, DetachDone];
      DetachedQueueDrains(w.surfaceCreated, hasRenderer, q[..|q| - 2]);
    }
  }

  /** The state DetachReattachRace reaches after attach, surface available (s, 100x100), detach, attach. */
  ghost predicate AttachDeferred(v: GLTextureView, s: SurfaceId)
    reads v, v.workers
  {
    && v.Valid() && |v.workers| == 1 && v.handler == null
    && !v.detachDone && v.needDoPendingAttach && v.postedDetachDone == 0
    && !v.paused && !v.hasRenderer
    && v.workers[0].queue == [Init(100, 100, s), Destroy, DetachDone]
    && v.workers[0].log == [] && !v.workers[0].surfaceCreated && !v.workers[0].crashed
  }

  /**
   * attach, surface available, detach, attach again before the old thread has
   * drained: the second attach is deferred.
   */
  method DetachReattachRace(s: SurfaceId) returns (v: GLTextureView)
    ensures fresh(v) && AttachDeferred(v, s)
  {
    v := new GLTextureView();
    var ok := v.OnAttachedToWindow();
    assert ok && v.GlEnvReady();
    v.OnSurfaceTextureAvailable(s, 100, 100);
    v.OnDetachedFromWindow();
    ok := v.OnAttachedToWindow();
    assert ok && !v.GlEnvReady();
  }

  /**
   * The deferred attach of DetachReattachRace: nothing happens until the old
   * thread has run Destroy and DetachDone; then the new thread starts with its Init.
   */
  method DeferredAttachResolves(v: GLTextureView, s: SurfaceId)
    requires AttachDeferred(v, s)
    modifies v, v.workers
  {
    var retired := v.workers[0];
    var ran := v.RunPostedDetachDone(100, 100, Some(s));
    assert !ran && !v.GlEnvReady();
    assert retired.queue[1..] == [Destroy, DetachDone];
    assert Handle(false, false, Init(100, 100, s)) == Handled(true, [EglInit(100, 100, s)], false);
    var r := v.Dispatch(0);
    assert retired.surfaceCreated && retired.queue == [Destroy, DetachDone] && retired.log == [EglInit(100, 100, s)];
    r := v.Dispatch(0);
    assert [Destroy, DetachDone][1..] == [DetachDone];
    assert [EglInit(100, 100, s)] + ([] + [EglDestroy]) == [EglInit(100, 100, s), EglDestroy];
    assert !retired.surfaceCreated && retired.log == [EglInit(100, 100, s), EglDestroy];
    r := v.Dispatch(0);
    assert r == PostedDetachDone && retired.queue == [];
    ran := v.RunPostedDetachDone(100, 100, Some(s));
    assert ran && v.GlEnvReady() && |v.workers| == 2 && v.workers[0] == retired;
    assert v.workers[1].queue == [Init(100, 100, s)];
  }
}
