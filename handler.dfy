/**
 * One render thread: its Handler's message queue and the DCGLHandlerCallback
 * that consumes it, with its surfaceCreated flag and the log of the calls it
 * makes into EGLHelper, the Renderer and queued Runnables.
 */
module GLHandler {

  import opened Wrappers
  import opened GLMessages
  import opened GLContext

  /** What one Step of the thread did. */
  datatype StepResult =
    | Idle              // nothing to do: the queue is empty, or the thread has died
    | Processed         // one message handled
    | PostedDetachDone  // DetachDone handled: detachDoneRunnable posted to the main thread
    | Crashed           // handleMessage threw; the thread is dead

  class Worker {
    var queue: seq<Msg>
    var surfaceCreated: bool
    var log: seq<Event>
    var crashed: bool

    /** The log keeps the context discipline and ends in the state surfaceCreated records. */
    ghost predicate Valid()
      reads this
    {
      Replay(false, log) == Some(surfaceCreated) && (crashed ==> !surfaceCreated)
    }

    constructor ()
      ensures Valid()
      ensures queue == [] && !surfaceCreated && log == [] && !crashed
    {
      queue := [];
      surfaceCreated := false;
      log := [];
      crashed := false;
    }

    /** Handler.sendMessage: the message goes to the tail of the queue. */
    method SendMessage(m: Msg)
      modifies this
      ensures queue == old(queue) + [m]
      ensures surfaceCreated == old(surfaceCreated) && log == old(log) && crashed == old(crashed)
    {
      queue := queue + [m];
    }

    /** Handler.removeMessages(what): every pending message with that code is dropped. */
    method RemoveMessages(what: int)
      modifies this
      ensures queue == GLMessages.RemoveMessages(old(queue), what)
      ensures surfaceCreated == old(surfaceCreated) && log == old(log) && crashed == old(crashed)
    {
      queue := GLMessages.RemoveMessages(queue, what);
    }

    /**
     * The looper dispatching one message to handleMessage: the head of the
     * queue is taken off and acted on as Handle says.
     */
    method Step(hasRenderer: bool) returns (result: StepResult)
      requires Valid()
      modifies this
      ensures Valid()
      ensures Stepped(this, hasRenderer, result)
    {
      if crashed || queue == [] {
        return Idle;
      }
      var msg := queue[0];
      queue := queue[1..];
      result := Processed;
      match msg {
        case Init(width, height, surface) =>
          if !surfaceCreated {
            log := log + [EglInit(width, height, surface)];
            surfaceCreated := true;
            if hasRenderer {
              log := log + [Created, Changed(width, height), Draw];
            }
          }
        case SizeChanged(width, height) =>
          if !surfaceCreated {
            crashed := true;
            result := Crashed;
          } else if hasRenderer {
            log := log + [Changed(width, height)];
          }
        case DrawFrame =>
          if surfaceCreated {
            if hasRenderer {
              log := log + [Draw];
            }
            log := log + [Swap];
          }
        case Destroy =>
          if surfaceCreated {
            if hasRenderer {
              log := log + [Destroyed];
            }
            log := log + [EglDestroy];
            surfaceCreated := false;
          }
        case DoEvent(runnable) =>
          log := log + [Ran(runnable)];
        case DetachDone =>
          result := PostedDetachDone;
      }
      var outcome := Handle(old(surfaceCreated), hasRenderer, msg);
      if outcome.Handled? {
        assert log == old(log) + outcome.events;
        ReplayAppend(false, old(log), outcome.events);
      }
    }
  }

  /**
   * The effect of one Step on `w`: nothing when its queue is empty or it has
   * died; otherwise the head message is removed and handled as Handle says.
   */
  twostate predicate Stepped(w: Worker, hasRenderer: bool, result: StepResult)
    reads w
  {
    if old(w.crashed) || old(w.queue) == [] then
      result == Idle && w.queue == old(w.queue) && w.surfaceCreated == old(w.surfaceCreated) &&
      w.log == old(w.log) && w.crashed == old(w.crashed)
    else
      w.queue == old(w.queue)[1..] &&
      match Handle(old(w.surfaceCreated), hasRenderer, old(w.queue)[0])
      case Fatal =>
        result == Crashed && w.crashed && w.surfaceCreated == old(w.surfaceCreated) && w.log == old(w.log)
      case Handled(live, events, posts) =>
        result == (if posts then PostedDetachDone else Processed) && !w.crashed &&
        w.surfaceCreated == live && w.log == old(w.log) + events
  }
}
