/**
 * The host around a manager: the element handlers the host wires up, the window
 * dispatching to whatever listeners are registered, and direct calls of
 * `resetBounds` and `dispose`, run in the order the event loop delivers them.
 * The lemmas state what a sequence of such operations does.
 */
module HostLoop {
  import opened DraggableTypes
  import opened PositionMapper
  import opened DragMachine

  /**
   * One thing that happens to a manager. `measured` is what the bounds provider
   * returns if it is called while the event is handled.
   */
  datatype Op =
    | Hover(event: MouseEvent, measured: Bounds)        // element mouseenter/mousemove/mouseleave
    | Press(event: MouseEvent, measured: Bounds)        // element mousedown
    | WindowMouse(event: MouseEvent, measured: Bounds)  // a mouse event dispatched on window
    | WindowResize
    | CallResetBounds
    | CallDispose

  predicate OpUsable(op: Op) {
    (op.Hover? || op.Press? || op.WindowMouse?) ==> Usable(op.measured)
  }

  predicate OpsUsable(ops: seq<Op>) {
    forall i :: 0 <= i < |ops| ==> OpUsable(ops[i])
  }

  /** The window calls the manager only through a listener registered for the event's type. */
  function Step(env: Env, s: State, op: Op): (r: Outcome)
    requires CacheUsable(s) && OpUsable(op)
    ensures r.Done? ==> CacheUsable(r.state)
    ensures r.Done? && Inv(env, s) ==> Inv(env, r.state)
  {
    match op
    case Hover(e, m) => MinorEvent(env, s, e, m)
    case Press(e, m) => DragEvent(env, s, e, m)
    case WindowMouse(e, m) =>
      if Listener(e.eventType, DragEventHandler) in s.listeners then DragEvent(env, s, e, m) else Done(s)
    case WindowResize => if ResizeListener in s.listeners then Done(ResetBounds(s)) else Done(s)
    case CallResetBounds => Done(ResetBounds(s))
    case CallDispose => Done(Dispose(env, s))
  }

  /** The final state and the event types thrown on, in order. */
  datatype Trace = Trace(state: State, thrown: seq<string>)

  /** Runs `ops` in order; a throw leaves the state as it was and the loop goes on. */
  function Run(env: Env, s: State, ops: seq<Op>): (t: Trace)
    requires CacheUsable(s) && OpsUsable(ops)
    ensures CacheUsable(t.state)
    decreases |ops|
  {
    if ops == [] then Trace(s, [])
    else
      assert OpsUsable(ops[1..]) by {
        forall i | 0 <= i < |ops| - 1 ensures OpUsable(ops[1..][i]) { assert ops[1..][i] == ops[i + 1]; }
      }
      match Step(env, s, ops[0])
      case Done(s1) => Run(env, s1, ops[1..])
      case InvalidEventType(k) =>
        var t := Run(env, s, ops[1..]);
        Trace(t.state, [k] + t.thrown)
  }

  lemma TailUsable(ops: seq<Op>)
    requires OpsUsable(ops) && ops != []
    ensures OpUsable(ops[0]) && OpsUsable(ops[1..])
  {
  }

  /** Every sequence of operations keeps the manager's consistency invariant. */
  lemma {:induction false} RunPreservesInv(env: Env, s: State, ops: seq<Op>)
    requires Inv(env, s) && OpsUsable(ops)
    ensures Inv(env, Run(env, s, ops).state)
    decreases |ops|
  {
    if ops != [] {
      TailUsable(ops);
      match Step(env, s, ops[0])
      case Done(s1) => RunPreservesInv(env, s1, ops[1..]);
      case InvalidEventType(_) => RunPreservesInv(env, s, ops[1..]);
    }
  }

  /** The update types of a log, in order. */
  function Kinds(log: seq<Invocation>): (ks: seq<UpdateType>)
    ensures |ks| == |log|
  {
    if log == [] then [] else [log[0].update.kind] + Kinds(log[1..])
  }

  function Repeat(k: UpdateType, n: nat): (ks: seq<UpdateType>)
    ensures |ks| == n
  {
    if n == 0 then [] else [k] + Repeat(k, n - 1)
  }

  predicate IsWindowEvent(op: Op, eventType: string) {
    op.WindowMouse? && op.event.eventType == eventType
  }

  /** While dragging, window mousemoves and a final mouseup: a DRAG_MOVE per move, then DRAG_END, then Idle. */
  lemma {:induction false} DragTail(env: Env, s: State, moves: seq<Op>, up: Op)
    requires Inv(env, s) && s.dragging && OpsUsable(moves + [up])
    requires forall i :: 0 <= i < |moves| ==> IsWindowEvent(moves[i], "mousemove")
    requires IsWindowEvent(up, "mouseup")
    requires s.callbacks.onDragMove.Some? && s.callbacks.onDragEnd.Some?
    ensures var t := Run(env, s, moves + [up]);
      && t.thrown == [] && !t.state.dragging
      && t.state.listeners == s.listeners - {MoveListener, UpListener}
      && t.state.userSelect == (if env.hasBodyStyle then None else s.userSelect)
      && |t.state.emitted| == |s.emitted| + |moves| + 1
      && s.emitted <= t.state.emitted
      && Kinds(t.state.emitted[|s.emitted|..]) == Repeat(DragMove, |moves|) + [DragEnd]
    decreases |moves|
  {
    var ops := moves + [up];
    TailUsable(ops);
    var t := Run(env, s, ops);
    if moves == [] {
      assert ops == [up] && ops[1..] == [];
      var r := Step(env, s, up);
      assert r.Done?;
      assert t == Run(env, r.state, ops[1..]);
      assert t == Trace(r.state, []);
      assert t.state.emitted[|s.emitted|..] == [t.state.emitted[|s.emitted|]];
    } else {
      assert ops[0] == moves[0] && ops[1..] == moves[1..] + [up];
      var r := Step(env, s, moves[0]);
      assert r.Done?;
      var s1 := r.state;
      assert s1.emitted[|s.emitted|..] == [s1.emitted[|s.emitted|]] && s1.emitted[|s.emitted|].update.kind == DragMove;
      DragTail(env, s1, moves[1..], up);
      assert t == Run(env, s1, moves[1..] + [up]);
      assert t.state.emitted[|s.emitted|..] == [s1.emitted[|s.emitted|]] + t.state.emitted[|s1.emitted|..];
    }
  }

  /** What a primary-button press followed by window moves and a mouseup emits, in order. */
  lemma {:induction false} DragGesture(env: Env, s: State, ops: seq<Op>)
    requires Inv(env, s) && !s.dragging && OpsUsable(ops) && |ops| >= 2
    requires ops[0].Press? && ops[0].event.eventType == "mousedown" && ops[0].event.button == LeftMouseButton
    requires forall i :: 1 <= i < |ops| - 1 ==> IsWindowEvent(ops[i], "mousemove")
    requires IsWindowEvent(ops[|ops| - 1], "mouseup")
    requires s.callbacks.onDragStart.Some? && s.callbacks.onDragMove.Some? && s.callbacks.onDragEnd.Some?
    ensures var t := Run(env, s, ops);
      && t.thrown == [] && !t.state.dragging
      && t.state.listeners == s.listeners
      && t.state.userSelect == (if env.hasBodyStyle then None else s.userSelect)
      && s.emitted <= t.state.emitted
      && Kinds(t.state.emitted[|s.emitted|..]) == [DragStart] + Repeat(DragMove, |ops| - 2) + [DragEnd]
      && t.state.boundsRequests == s.boundsRequests + (if s.bounds.None? then [env.tag] else [])
  {
    TailUsable(ops);
    var r := Step(env, s, ops[0]);
    assert r.Done?;
    var s1 := r.state;
    var moves, up := ops[1..|ops| - 1], ops[|ops| - 1];
    assert ops[1..] == moves + [up];
    DragTail(env, s1, moves, up);
    CacheKept(env, s1, ops[1..]);
    var t := Run(env, s, ops);
    assert s1.emitted[|s.emitted|..] == [s1.emitted[|s.emitted|]];
    assert t.state.emitted[|s.emitted|..] == [s1.emitted[|s.emitted|]] + t.state.emitted[|s1.emitted|..];
  }

  /** While dragging, the hover channel ignores every event, whatever its type. */
  lemma {:induction false} HoverIgnoredWhileDragging(env: Env, s: State, ops: seq<Op>)
    requires CacheUsable(s) && s.dragging && OpsUsable(ops)
    requires forall i :: 0 <= i < |ops| ==> ops[i].Hover?
    ensures Run(env, s, ops) == Trace(s, [])
    decreases |ops|
  {
    if ops != [] {
      TailUsable(ops);
      HoverIgnoredWhileDragging(env, s, ops[1..]);
    }
  }

  /** Operations that do not invalidate the bounds cache. */
  predicate KeepsCache(op: Op) {
    !op.WindowResize? && !op.CallResetBounds? && !op.CallDispose?
  }

  /** Every update in `log` was positioned with bounds `b`. */
  predicate FromBounds(log: seq<Invocation>, b: Bounds)
    requires Usable(b)
  {
    forall i :: 0 <= i < |log| ==>
      Position(log[i].update.value, log[i].update.x) == PositionOf(b, log[i].update.event.clientX)
  }

  lemma StepKeepsCache(env: Env, s: State, op: Op)
    requires CacheUsable(s) && s.bounds.Some? && OpUsable(op) && KeepsCache(op)
    ensures var r := Step(env, s, op);
      r.Done? ==>
        && r.state.bounds == s.bounds && r.state.boundsRequests == s.boundsRequests
        && s.emitted <= r.state.emitted && FromBounds(r.state.emitted[|s.emitted|..], s.bounds.value)
  {
  }

  /** Once bounds are cached, no run without an invalidation consults the provider, and every update uses them. */
  lemma {:induction false} CacheKept(env: Env, s: State, ops: seq<Op>)
    requires CacheUsable(s) && s.bounds.Some? && OpsUsable(ops)
    requires forall i :: 0 <= i < |ops| ==> KeepsCache(ops[i])
    ensures var t := Run(env, s, ops);
      && t.state.bounds == s.bounds && t.state.boundsRequests == s.boundsRequests
      && s.emitted <= t.state.emitted && FromBounds(t.state.emitted[|s.emitted|..], s.bounds.value)
    decreases |ops|
  {
    if ops != [] {
      TailUsable(ops);
      var t := Run(env, s, ops);
      StepKeepsCache(env, s, ops[0]);
      match Step(env, s, ops[0])
      case Done(s1) =>
        CacheKept(env, s1, ops[1..]);
        var d1: seq<Invocation>, d2: seq<Invocation> := s1.emitted[|s.emitted|..], t.state.emitted[|s1.emitted|..];
        assert t.state.emitted[|s.emitted|..] == d1 + d2;
        forall i | 0 <= i < |d1 + d2|
          ensures Position((d1 + d2)[i].update.value, (d1 + d2)[i].update.x)
                  == PositionOf(s.bounds.value, (d1 + d2)[i].update.event.clientX)
        {
          if i >= |d1| { assert (d1 + d2)[i] == d2[i - |d1|]; }
        }
      case InvalidEventType(_) =>
        CacheKept(env, s, ops[1..]);
    }
  }

  lemma StepFromEmptyCache(env: Env, s: State, op: Op)
    requires CacheUsable(s) && s.bounds.None? && OpUsable(op) && KeepsCache(op)
    ensures var r := Step(env, s, op);
      r.Done? ==>
        || (r.state.bounds.None? && r.state.boundsRequests == s.boundsRequests)
        || (r.state.bounds.Some? && r.state.boundsRequests == s.boundsRequests + [env.tag])
  {
  }

  /** Between two invalidations the bounds provider is called at most once, with the tag. */
  lemma {:induction false} CacheFetchedOnce(env: Env, s: State, ops: seq<Op>)
    requires CacheUsable(s) && OpsUsable(ops)
    requires forall i :: 0 <= i < |ops| ==> KeepsCache(ops[i])
    ensures var t := Run(env, s, ops);
      || t.state.boundsRequests == s.boundsRequests
      || (s.bounds.None? && t.state.boundsRequests == s.boundsRequests + [env.tag])
    decreases |ops|
  {
    if s.bounds.Some? {
      CacheKept(env, s, ops);
    } else if ops != [] {
      TailUsable(ops);
      StepFromEmptyCache(env, s, ops[0]);
      match Step(env, s, ops[0])
      case Done(s1) =>
        if s1.bounds.Some? {
          CacheKept(env, s1, ops[1..]);
        } else {
          CacheFetchedOnce(env, s1, ops[1..]);
        }
      case InvalidEventType(_) =>
        CacheFetchedOnce(env, s, ops[1..]);
    }
  }

  /** Without callbacks, no operation emits anything or consults the bounds provider. */
  lemma {:induction false} SilentWithoutCallbacks(env: Env, s: State, ops: seq<Op>)
    requires CacheUsable(s) && OpsUsable(ops) && s.callbacks == NoCallbacks
    ensures var t := Run(env, s, ops);
      && t.state.emitted == s.emitted && t.state.boundsRequests == s.boundsRequests
      && t.state.callbacks == NoCallbacks
    decreases |ops|
  {
    if ops != [] {
      TailUsable(ops);
      match Step(env, s, ops[0])
      case Done(s1) => SilentWithoutCallbacks(env, s1, ops[1..]);
      case InvalidEventType(_) => SilentWithoutCallbacks(env, s, ops[1..]);
    }
  }

  /** After `dispose` nothing the host does makes the manager emit or consult the bounds provider. */
  lemma DisposedIsSilent(env: Env, s: State, ops: seq<Op>)
    requires CacheUsable(s) && OpsUsable(ops)
    ensures var t := Run(env, Dispose(env, s), ops);
      t.state.emitted == s.emitted && t.state.boundsRequests == s.boundsRequests
  {
    SilentWithoutCallbacks(env, Dispose(env, s), ops);
  }

  predicate IsWindowOp(op: Op) {
    op.WindowMouse? || op.WindowResize?
  }

  lemma {:induction false} DetachedIgnoresWindow(env: Env, s: State, ops: seq<Op>)
    requires CacheUsable(s) && OpsUsable(ops) && s.listeners == {}
    requires forall i :: 0 <= i < |ops| ==> IsWindowOp(ops[i])
    ensures Run(env, s, ops) == Trace(s, [])
    decreases |ops|
  {
    if ops != [] {
      TailUsable(ops);
      DetachedIgnoresWindow(env, s, ops[1..]);
    }
  }

  /**
   * `dispose` during a drag detaches the manager from the window: later window
   * events change nothing and throw nothing.
   */
  lemma DisposeDetachesWindow(env: Env, s: State, ops: seq<Op>)
    requires Inv(env, s) && OpsUsable(ops)
    requires forall i :: 0 <= i < |ops| ==> IsWindowOp(ops[i])
    ensures Run(env, Dispose(env, s), ops) == Trace(Dispose(env, s), [])
  {
    DetachedIgnoresWindow(env, Dispose(env, s), ops);
  }

  /**
   * Bounds {clientXLeft: 100, width: 200, minValue: 0, maxValue: 1}: a press at 150,
   * a window move to 50 and a window release at 350 emit DRAG_START at (0.25, 50),
   * DRAG_MOVE at (0, 0) and DRAG_END at (1, 200), and the manager ends Idle.
   */
  lemma ClampedDragScenario(env: Env, start: CallbackId, move: CallbackId, end: CallbackId)
    ensures
      var b := Bounds(100.0, 200.0, Some(0.0), Some(1.0));
      var down, mv, up := MouseEvent("mousedown", 0, 150.0), MouseEvent("mousemove", 0, 50.0), MouseEvent("mouseup", 0, 350.0);
      var s := Init(env, None, Callbacks(None, None, None, Some(start), Some(move), Some(end)), None);
      var t := Run(env, s, [Press(down, b), WindowMouse(mv, b), WindowMouse(up, b)]);
      && t.thrown == [] && !t.state.dragging
      && t.state.emitted == [
           Invocation(start, DraggingUpdate(DragStart, 0.25, 50.0, down, env.manager, env.tag)),
           Invocation(move, DraggingUpdate(DragMove, 0.0, 0.0, mv, env.manager, env.tag)),
           Invocation(end, DraggingUpdate(DragEnd, 1.0, 200.0, up, env.manager, env.tag))]
      && t.state.boundsRequests == [env.tag]
  {
    var b := Bounds(100.0, 200.0, Some(0.0), Some(1.0));
    var down, mv, up := MouseEvent("mousedown", 0, 150.0), MouseEvent("mousemove", 0, 50.0), MouseEvent("mouseup", 0, 350.0);
    var s := Init(env, None, Callbacks(None, None, None, Some(start), Some(move), Some(end)), None);
    var ops := [Press(down, b), WindowMouse(mv, b), WindowMouse(up, b)];
    assert ops[1..] == [WindowMouse(mv, b), WindowMouse(up, b)] && ops[1..][1..] == [WindowMouse(up, b)];
    var r1 := Step(env, s, ops[0]);
    assert r1.Done? && r1.state.dragging && MoveListener in r1.state.listeners;
    var r2 := Step(env, r1.state, ops[1]);
    assert r2.Done? && r2.state.dragging && UpListener in r2.state.listeners;
    var r3 := Step(env, r2.state, ops[2]);
    assert r3.Done?;
    assert Run(env, r2.state, ops[1..][1..]) == Trace(r3.state, []);
    assert Run(env, r1.state, ops[1..]) == Trace(r3.state, []);
  }

  /** A press with any button but the primary one on an Idle manager changes nothing and emits nothing. */
  lemma NonPrimaryPressIgnored(env: Env, s: State, e: MouseEvent, m: Bounds)
    requires Inv(env, s) && !s.dragging && Usable(m)
    requires e.eventType == "mousedown" && e.button != LeftMouseButton
    ensures Run(env, s, [Press(e, m)]) == Trace(s, [])
  {
  }
}
