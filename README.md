# GLTextureView render-thread lifecycle, in Dafny

GLTextureView is an Android `TextureView` that renders with OpenGL ES on a
dedicated `HandlerThread`. The view's lifecycle callbacks (surface available,
resized, attach, detach, pause, resume) run on the main thread and become
typed messages on the current render thread's queue. That thread's
`DCGLHandlerCallback` turns those messages into EGL calls and Renderer
callbacks. Its `surfaceCreated` flag guards them. A detach lets the old thread
drain its queue (`quitSafely`). The last message it handles, DetachDone,
posts a runnable back to the main thread. A re-attach that arrived in the
meantime is carried out only when that runnable runs.

This project models that controller as a sequential state machine. The
verifier is free to interleave its steps in any order:

- `GLMessages`: the six message kinds and their `what` codes.
  `RemoveMessages` is `Handler.removeMessages`. `Coalesced` is the queue that
  `requestRender` leaves behind.
- `GLContext`: the calls the render thread makes, as an event log.
  `Transition`/`Replay` is the discipline that log must keep: nothing but
  eglInit and queued Runnables runs without a context, and eglInit never
  runs with one.
  `Handle` is `handleMessage` for one message, as a function. `Run` drains a
  whole queue.
- `GLHandler`: class `Worker`, a render thread. It holds its queue, its
  `surfaceCreated` flag and its log. `Step` is the imperative
  `handleMessage`, proved equal to `Handle`, and it keeps the log discipline
  as an invariant.
- `GLView`: class `GLTextureView`, the host side. It records every render
  thread ever started, oldest first. `Dispatch(i)` lets thread `i` handle
  one message. `RunPostedDetachDone` runs one posted detach-done runnable.
  `Valid()` is the invariant that resolves the race. Only the newest thread
  may still be running or hold a context. The current handler exists only
  while no detach is in flight. A deferred attach is pending only while a
  detach is in flight. Whenever a new thread is started, every earlier one
  has already run its Destroy and holds no context.
- `GLErrors`: the `GLError` enumeration with its codes and messages.

Some things the code does that a reader might not expect:

- Init makes no buffer swap. It runs eglInit, created, size-changed and one
  draw (`GLContext.InitRunsSetupOnce`).
- `requestRender` removes every pending DrawFrame, not only the repeated
  ones. So Init, DrawFrame, DrawFrame, SizeChanged followed by a
  `requestRender` leaves Init, SizeChanged, DrawFrame
  (`GLMessages.CoalescedExample`).
- `onPause` sends Destroy even when no context exists. The render thread
  ignores it.
- A SizeChanged that arrives with no context throws. The statement after the
  throw is unreachable. The model kills the thread: it is marked `crashed`
  and never handles another message.

The view's size and SurfaceTexture are read by `tryInitGL`. In the model
they are parameters of `TryInitGL`, `OnResume` and `RunPostedDetachDone`. The
renderer is the flag `hasRenderer`, which every `Step` reads again. Listeners
are numbers. Their notifications are recorded in `notified`.

## Model

| member | source | states |
|---|---|---|
| GLErrors.Value | src/GLError.java:5-16 | code 0 is returned for exactly the OK constant |
| GLErrors.ToString | src/GLError.java:18-21 | every constant has a non-empty message |
| GLErrors.FromValue | src/GLError.java:5-10 | a lookup by code that the enum does not have, added as the inverse of Value: a code it finds is that constant's code |
| GLErrors.Constants | src/GLError.java:5-6 | OK is 0 / "ok", ConfigErr is 101 / "config not support" |
| GLErrors.ValueRoundTrip | src/GLError.java:5-16 | every constant is recovered from its code |
| GLErrors.ValueInjective | src/GLError.java:5-10 | distinct constants have distinct codes |
| GLErrors.ToStringInjective | src/GLError.java:5-21 | distinct constants have distinct messages |
| GLMessages.What | src/GLTextureView.kt:198-203 | codes lie in 1..6; the draw, destroy and detach-done codes identify their messages |
| GLMessages.RemoveMessages | src/GLTextureView.kt:99 | the result keeps only messages of the input and none with the removed code |
| GLMessages.RemoveMessagesAppend | src/GLTextureView.kt:99 | removal distributes over concatenation, so surviving messages keep their relative order |
| GLMessages.RemoveMessagesAbsent | src/GLTextureView.kt:99 | a queue without the code is left unchanged |
| GLMessages.RemoveMessagesCount | src/GLTextureView.kt:99 | messages with other codes keep their multiplicity; those with the code are all gone |
| GLMessages.Coalesced | src/GLTextureView.kt:97-102 | after requestRender the queue ends with DrawFrame and has no other DrawFrame |
| GLMessages.CoalescedContents | src/GLTextureView.kt:97-102 | exactly one DrawFrame, and every other message with its multiplicity |
| GLMessages.CoalescedIdempotent | src/GLTextureView.kt:97-102 | a second requestRender with nothing in between changes nothing |
| GLMessages.CoalescedExample | src/GLTextureView.kt:97-102 | Init, two draws and a resize coalesce to Init, resize, one draw |
| GLContext.ReplayAppend | src/GLTextureView.kt:218-267 | the context discipline of a log is checked piece by piece |
| GLContext.Handle | src/GLTextureView.kt:218-267 | handling fails exactly for SizeChanged without a context; its calls keep the context discipline and end in the new surfaceCreated; only DetachDone posts the runnable; only Init and Destroy change surfaceCreated |
| GLContext.Run | src/GLTextureView.kt:218-267 | handling a whole queue in order keeps the context discipline |
| GLContext.RunAppend | src/GLTextureView.kt:218-267 | messages are handled one at a time, each to completion, in queue order |
| GLContext.NullRendererSkipsOnlyCallbacks | src/GLTextureView.kt:214-257 | with a null renderer the same EGL calls and context states occur; only renderer callbacks are skipped |
| GLContext.NoEglWorkBeforeInit | src/GLTextureView.kt:234-257 | with no Init in the queue, no EGL or renderer call happens and no context appears |
| GLContext.DetachedQueueDrains | src/GLTextureView.kt:169-171 | the queue a detach leaves ends with no context and the detach-done runnable posted, unless a message was fatal |
| GLContext.InitRunsSetupOnce | src/GLTextureView.kt:221-233 | Init logs eglInit, created, size-changed and draw, with no swap; a second Init logs nothing |
| GLContext.RequestsAfterInitDrawOnce | src/GLTextureView.kt:97-102 | any number of requestRender calls after Init give exactly one more draw and swap |
| GLContext.PauseStopsDrawing | src/GLTextureView.kt:243-257 | after Destroy a DrawFrame draws nothing; destroyed then eglDestroy come last |
| GLHandler.Worker.constructor | src/GLTextureView.kt:208-212 | a new thread has an empty queue, no context and an empty log |
| GLHandler.Worker.SendMessage | src/GLTextureView.kt:66-70 | the message is appended at the tail, nothing else changes |
| GLHandler.Worker.RemoveMessages | src/GLTextureView.kt:99 | the queue becomes RemoveMessages of the old queue |
| GLHandler.Worker.Step | src/GLTextureView.kt:218-267 | the head message is removed and handled as Handle says, a dead or idle thread does nothing, the log discipline is preserved |
| GLView.GLTextureView.constructor | src/GLTextureView.kt:21-34 | not paused, detach done, no handler, no pending attach, no listeners |
| GLView.GLTextureView.SetRenderer | src/GLTextureView.kt:43-45 | a renderer is installed for the following messages |
| GLView.GLTextureView.SetEnvCallback | src/GLTextureView.kt:32 | gLEnvCallback is replaced |
| GLView.GLTextureView.OnSurfaceTextureAvailable | src/GLTextureView.kt:47-49 | Init is sent unless paused |
| GLView.GLTextureView.OnSurfaceTextureSizeChanged | src/GLTextureView.kt:51-53 | SizeChanged is sent |
| GLView.GLTextureView.OnSurfaceTextureDestroyed | src/GLTextureView.kt:55-57 | the view does not release the surface |
| GLView.GLTextureView.InitGL | src/GLTextureView.kt:63-72 | Init goes to the current thread unless paused; no-op without a thread |
| GLView.GLTextureView.NotifySurfaceSizeChanged | src/GLTextureView.kt:74-81 | SizeChanged goes to the current thread; no-op without one |
| GLView.GLTextureView.DestroyGL | src/GLTextureView.kt:83-88 | Destroy goes to the current thread; no-op without one |
| GLView.GLTextureView.MarkDetach | src/GLTextureView.kt:90-95 | DetachDone goes to the current thread; no-op without one |
| GLView.GLTextureView.RequestRender | src/GLTextureView.kt:97-102 | the current queue becomes Coalesced of the old one; no-op without a thread |
| GLView.GLTextureView.QueueEvent | src/GLTextureView.kt:104-110 | DoEvent is sent; no-op without a thread |
| GLView.GLTextureView.OnPause | src/GLTextureView.kt:112-115 | paused is set and Destroy is sent |
| GLView.GLTextureView.OnResume | src/GLTextureView.kt:117-120 | paused is cleared and Init is sent exactly when the surface exists with nonzero size |
| GLView.GLTextureView.InitFor | src/GLTextureView.kt:135-139 | an Init is produced exactly when width and height are nonzero and a surface exists |
| GLView.GLTextureView.TryInitGL | src/GLTextureView.kt:135-139 | Init is sent only for a nonzero-size existing surface, and not while paused |
| GLView.GLTextureView.GlEnvReady | src/GLTextureView.kt:141-143 | a ready environment means no detach in flight and every earlier thread finished |
| GLView.GLTextureView.AddEnvCreateListeners | src/GLTextureView.kt:145-147 | the listener is queued at the tail |
| GLView.GLTextureView.GenerateGLThread | src/GLTextureView.kt:149-165 | a fresh thread becomes current; gLEnvCallback and then every queued listener is notified once in FIFO order; the listener queue is left empty |
| GLView.GLTextureView.OnAttachedToWindow | src/GLTextureView.kt:122-133 | fails exactly when a handler exists; while a detach is in flight it only marks the attach pending and leaves the listeners alone; otherwise it starts a thread, clears the flag, and every earlier thread has finished |
| GLView.GLTextureView.OnDetachedFromWindow | src/GLTextureView.kt:167-176 | Destroy then DetachDone go to the old thread; the handler is dropped; detachDone and the pending attach are cleared |
| GLView.GLTextureView.Dispatch | src/GLTextureView.kt:262-264 | one step of thread i; only the last detached thread posts the detach-done runnable, and only while detachDone is false |
| GLView.GLTextureView.RunPostedDetachDone | src/GLTextureView.kt:153-160 | detachDone is set; a pending attach starts a thread only after every earlier thread has run its Destroy, notifies and drains the listeners, and sends Init exactly as tryInitGL decides; without a pending attach no thread starts and the listeners are untouched |
| GLView.InFlightDetachCompletes | src/GLTextureView.kt:167-176 | while a detach is in flight, the old thread's queue drains to no context and a posted detach-done runnable, unless the thread died or has nothing left |
| GLView.SingleContext | src/GLTextureView.kt:122-176 | at most one thread holds a context, the newest |
| GLView.DetachReattachRace | src/GLTextureView.kt:122-176 | attach, surface, detach, attach leaves the second attach deferred behind the old queue Init, Destroy, DetachDone |

`GLView.DeferredAttachResolves` continues that scenario without contracts. Its
assertions show that nothing starts until the old thread has run Destroy and
DetachDone, and that the new thread then starts with its Init.

## Left out

- Android threading itself (`Handler`, `HandlerThread`, `Looper`, `quitSafely`, `mainHandler.post`, the `synchronized` block): queues are sequences, posted runnables a counter, and each step is atomic; thread scheduling is the free choice of which method runs next.
- `getGLThreadId`: it returns an operating-system thread id.
- `EGLHelper` internals (`setSurfaceType`, `eglInit`, `swap`, `destroy`), the `mGL`/`mEglConfig` handles and drawing content: only log entries; the Boolean returned by `onDrawFrame` is ignored by the code and not modelled.
- The SurfaceTexture object, and the view's width and height: surfaces are numbers, and the view's size and surface are method parameters.
- `setRenderer`'s renderer object: only whether one is installed.
- What listeners and queued Runnables do when called, including calls back into the view: only that they are called, and in which order.
- The `TextureView` constructors, `super.onAttachedToWindow`/`onDetachedFromWindow` and `onSurfaceTextureUpdated`: plumbing with no logic.
- Process death after an uncaught exception: the thread that threw stops, the rest of the model goes on.
- A detach with no thread while detachDone is true leaves detachDone false with nothing in flight, so that every later attach is deferred forever; Android pairs attach with detach, and the model allows this state rather than ruling it out.
