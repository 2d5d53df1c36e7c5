/**
 * The messages the host sends to a render thread, each tagged with the
 * `what` code the Android Handler dispatches on, and the queue operations the
 * host uses: append, and remove every pending message with one code.
 */
module GLMessages {

  /** Identity of a SurfaceTexture handed to the render thread. */
  type SurfaceId = nat
  /** Identity of a Runnable queued with queueEvent. */
  type RunnableId = nat

  const MSG_INIT_GL := 1
  const MSG_SIZE_CHANGED := 2
  const MSG_DRAW_FRAME := 3
  const MSG_DESTROY := 4
  const MSG_DO_EVENT := 5
  const MSG_DETACH_DONE := 6

  datatype Msg =
    | Init(width: int, height: int, surface: SurfaceId)
    | SizeChanged(width: int, height: int)
    | DrawFrame
    | Destroy
    | DoEvent(runnable: RunnableId)
    | DetachDone

  /** The `what` field of the Android Message that carries `m`. */
  function What(m: Msg): (code: int)
    ensures MSG_INIT_GL <= code <= MSG_DETACH_DONE
    ensures code == MSG_DRAW_FRAME <==> m == DrawFrame
    ensures code == MSG_DESTROY <==> m == Destroy
    ensures code == MSG_DETACH_DONE <==> m == DetachDone
  {
    match m
    case Init(_, _, _) => MSG_INIT_GL
    case SizeChanged(_, _) => MSG_SIZE_CHANGED
    case DrawFrame => MSG_DRAW_FRAME
    case Destroy => MSG_DESTROY
    case DoEvent(_) => MSG_DO_EVENT
    case DetachDone => MSG_DETACH_DONE
  }

  /** The queue after Handler.removeMessages(what): every message with that code dropped. */
  function RemoveMessages(q: seq<Msg>, what: int): (r: seq<Msg>)
    ensures |r| <= |q|
    ensures forall m :: m in r ==> m in q && What(m) != what
  {
    if q == [] then []
    else (if What(q[0]) == what then [] else [q[0]]) + RemoveMessages(q[1..], what)
  }

  /** The queue after requestRender: pending draws dropped, one fresh draw at the tail. */
  function Coalesced(q: seq<Msg>): (r: seq<Msg>)
    ensures |r| > 0 && r[|r| - 1] == DrawFrame
    ensures DrawFrame !in r[..|r| - 1]
  {
    var r := RemoveMessages(q, MSG_DRAW_FRAME) + [DrawFrame];
    assert r[..|r| - 1] == RemoveMessages(q, MSG_DRAW_FRAME);
    r
  }

  /** Removing by code distributes over concatenation. */
  lemma {:induction false} RemoveMessagesAppend(a: seq<Msg>, b: seq<Msg>, what: int)
    ensures RemoveMessages(a + b, what) == RemoveMessages(a, what) + RemoveMessages(b, what)
  {
    if a == [] {
      assert a + b == b;
    } else {
      assert (a + b)[0] == a[0];
      assert (a + b)[1..] == a[1..] + b;
      RemoveMessagesAppend(a[1..], b, what);
    }
  }

  /** A queue holding no message with the code is left as it is. */
  lemma {:induction false} RemoveMessagesAbsent(q: seq<Msg>, what: int)
    requires forall k :: 0 <= k < |q| ==> What(q[k]) != what
    ensures RemoveMessages(q, what) == q
  {
    if q != [] {
      RemoveMessagesAbsent(q[1..], what);
    }
  }

  /** Messages with another code keep their number, messages with the code are all gone. */
  lemma {:induction false} RemoveMessagesCount(q: seq<Msg>, what: int, m: Msg)
    ensures multiset(RemoveMessages(q, what))[m] == if What(m) == what then 0 else multiset(q)[m]
  {
    if q != [] {
      RemoveMessagesCount(q[1..], what, m);
      assert q == [q[0]] + q[1..];
    }
  }

  /**
   * requestRender keeps exactly one DrawFrame at the tail, and every other
   * message with its multiplicity; its relative order is kept by RemoveMessagesAppend.
   */
  lemma CoalescedContents(q: seq<Msg>, m: Msg)
    ensures multiset(Coalesced(q))[DrawFrame] == 1
    ensures m != DrawFrame ==> multiset(Coalesced(q))[m] == multiset(q)[m]
  {
    RemoveMessagesCount(q, MSG_DRAW_FRAME, m);
    RemoveMessagesCount(q, MSG_DRAW_FRAME, DrawFrame);
  }

  /** Draw requests coalesce: a second requestRender with nothing in between changes nothing. */
  lemma CoalescedIdempotent(q: seq<Msg>)
    ensures Coalesced(Coalesced(q)) == Coalesced(q)
  {
    var r := RemoveMessages(q, MSG_DRAW_FRAME);
    RemoveMessagesAppend(r, [DrawFrame], MSG_DRAW_FRAME);
    assert RemoveMessages([DrawFrame], MSG_DRAW_FRAME) == [];
    RemoveMessagesAbsent(r, MSG_DRAW_FRAME);
  }

  /** Init, two draws and a resize pending, then requestRender: one draw survives, at the tail. */
  lemma CoalescedExample(w: int, h: int, s: SurfaceId, w2: int, h2: int)
    ensures Coalesced([Init(w, h, s), DrawFrame, DrawFrame, SizeChanged(w2, h2)])
         == [Init(w, h, s), SizeChanged(w2, h2), DrawFrame]
  {
    var q := [Init(w, h, s), DrawFrame, DrawFrame, SizeChanged(w2, h2)];
    assert q[1..] == [DrawFrame, DrawFrame, SizeChanged(w2, h2)];
    assert q[1..][1..] == [DrawFrame, SizeChanged(w2, h2)];
    assert q[1..][1..][1..] == [SizeChanged(w2, h2)];
    assert RemoveMessages([SizeChanged(w2, h2)], MSG_DRAW_FRAME) == [SizeChanged(w2, h2)];
    assert RemoveMessages(q[1..], MSG_DRAW_FRAME) == [SizeChanged(w2, h2)];
  }
}
