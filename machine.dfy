/**
 * The DraggableManager as a state machine on values: one function per operation of
 * the class, each mapping the manager's state before the call to its state after.
 * The class in module Draggable is proved to follow these functions.
 */
module DragMachine {
  import opened DraggableTypes
  import opened PositionMapper

  /** What is fixed for a manager's lifetime: its tag, whether the document has a body style, and its identity. */
  datatype Env = Env(tag: Option<string>, hasBodyStyle: bool, manager: object)

  /**
   * The manager's fields, the window listeners it has registered, the body's
   * `userSelect`, the callbacks invoked so far and the tags passed to the bounds
   * provider so far.
   */
  datatype State = State(
    dragging: bool,
    bounds: Option<Bounds>,
    callbacks: Callbacks,
    resetBoundsOnResize: bool,
    listeners: set<Listener>,
    userSelect: Option<string>,
    emitted: seq<Invocation>,
    boundsRequests: seq<Option<string>>)

  /** A handler either finishes or throws on an event type it does not route; it never changes state before throwing. */
  datatype Outcome = Done(state: State) | InvalidEventType(eventType: string)

  /** Cached bounds, if any, can be divided by. */
  predicate CacheUsable(s: State) {
    s.bounds.Some? ==> Usable(s.bounds.value)
  }

  /**
   * The consistency every reachable state keeps: the window move/up listeners are
   * registered exactly while dragging, the resize listener only when enabled, and the
   * body does not allow text selection while dragging.
   */
  predicate Inv(env: Env, s: State) {
    && CacheUsable(s)
    && s.listeners <= {ResizeListener, MoveListener, UpListener}
    && (MoveListener in s.listeners <==> s.dragging)
    && (UpListener in s.listeners <==> s.dragging)
    && (ResizeListener in s.listeners ==> s.resetBoundsOnResize)
    && (s.dragging && env.hasBodyStyle ==> s.userSelect == Some(UserSelectNone))
  }

  /** The state after construction; an absent `resetBoundsOnResize` option means true. */
  function Init(env: Env, resetBoundsOnResize: Option<bool>, callbacks: Callbacks, userSelect: Option<string>): (s: State)
    ensures Inv(env, s)
    ensures !s.dragging && s.bounds.None? && s.callbacks == callbacks && s.userSelect == userSelect
    ensures s.resetBoundsOnResize <==> resetBoundsOnResize != Some(false)
    ensures ResizeListener in s.listeners <==> resetBoundsOnResize != Some(false)
    ensures s.listeners <= {ResizeListener}
    ensures s.emitted == [] && s.boundsRequests == []
  {
    var reset := match resetBoundsOnResize case None => true case Some(b) => b;
    State(false, None, callbacks, reset, if reset then {ResizeListener} else {}, userSelect, [], [])
  }

  /** The bounds a lookup yields: the cached ones, or what the provider reports now. */
  function CachedBounds(s: State, measured: Bounds): Bounds {
    if s.bounds.Some? then s.bounds.value else measured
  }

  /** `_getBounds`: the provider is called, with the tag, exactly when the cache is empty. */
  function LoadBounds(env: Env, s: State, measured: Bounds): (r: State)
    ensures r.bounds == Some(CachedBounds(s, measured))
    ensures r.boundsRequests == s.boundsRequests + (if s.bounds.None? then [env.tag] else [])
    ensures r == s.(bounds := r.bounds, boundsRequests := r.boundsRequests)
  {
    if s.bounds.Some? then s
    else s.(bounds := Some(measured), boundsRequests := s.boundsRequests + [env.tag])
  }

  /** `resetBounds`: empties the cache and nothing else. */
  function ResetBounds(s: State): (r: State)
    ensures r.bounds.None? && r == s.(bounds := r.bounds)
  {
    s.(bounds := None)
  }

  /**
   * The tail shared by both routers: no callback, no effect at all (the provider is
   * not consulted); otherwise exactly one invocation of that callback with an update
   * built from the position of `e.clientX`, and nothing else changes but the cache.
   */
  function Emit(env: Env, s: State, handler: Option<CallbackId>, kind: UpdateType, e: MouseEvent, measured: Bounds): (r: State)
    requires CacheUsable(s) && Usable(measured)
    ensures CacheUsable(r)
    ensures handler.None? ==> r == s
    ensures handler.Some? ==>
      var p := PositionOf(CachedBounds(s, measured), e.clientX);
      && r.emitted == s.emitted + [Invocation(handler.value, DraggingUpdate(kind, p.value, p.x, e, env.manager, env.tag))]
      && r == LoadBounds(env, s, measured).(emitted := r.emitted)
  {
    match handler
    case None => s
    case Some(h) =>
      var b := CachedBounds(s, measured);
      var p := PositionOf(b, e.clientX);
      var s1 := LoadBounds(env, s, measured);
      s1.(emitted := s1.emitted + [Invocation(h, DraggingUpdate(kind, p.value, p.x, e, env.manager, env.tag))])
  }

  /** The log and the cache after `Emit`, and nothing else of the state, agree with `r`. */
  predicate EmittedAs(env: Env, s: State, r: State, handler: Option<CallbackId>, kind: UpdateType, e: MouseEvent, measured: Bounds)
    requires CacheUsable(s) && Usable(measured)
  {
    var t := Emit(env, s, handler, kind, e, measured);
    r.emitted == t.emitted && r.bounds == t.bounds && r.boundsRequests == t.boundsRequests
  }

  /** `_stopDragging`: both window drag listeners removed, selection style cleared, Idle. */
  function StopDragging(env: Env, s: State): (r: State)
    ensures !r.dragging && MoveListener !in r.listeners && UpListener !in r.listeners
    ensures r.listeners == s.listeners - {MoveListener, UpListener}
    ensures r.userSelect == if env.hasBodyStyle then None else s.userSelect
    ensures r == s.(dragging := false, listeners := r.listeners, userSelect := r.userSelect)
  {
    s.(listeners := s.listeners - {MoveListener, UpListener},
       userSelect := if env.hasBodyStyle then None else s.userSelect,
       dragging := false)
  }

  /**
   * `dispose`: a drag in progress is stopped without any DRAG_END, the resize listener
   * is removed, the cache and every callback are dropped.
   */
  function Dispose(env: Env, s: State): (r: State)
    ensures !r.dragging && r.bounds.None? && r.callbacks == NoCallbacks
    ensures s.dragging ==> MoveListener !in r.listeners && UpListener !in r.listeners
    ensures s.resetBoundsOnResize ==> ResizeListener !in r.listeners
    ensures r.listeners <= s.listeners
    ensures Inv(env, s) ==> r.listeners == {} && Inv(env, r)
    ensures r.emitted == s.emitted && r.boundsRequests == s.boundsRequests
    ensures r.resetBoundsOnResize == s.resetBoundsOnResize
    ensures r.userSelect == if s.dragging && env.hasBodyStyle then None else s.userSelect
  {
    var s1 := if s.dragging then StopDragging(env, s) else s;
    var s2 := if s1.resetBoundsOnResize then s1.(listeners := s1.listeners - {ResizeListener}) else s1;
    s2.(bounds := None, callbacks := NoCallbacks)
  }

  /** The event types the hover channel routes. */
  predicate IsHoverType(t: string) {
    t == "mouseenter" || t == "mouseleave" || t == "mousemove"
  }

  /** The event types the drag channel routes. */
  predicate IsDragType(t: string) {
    t == "mousedown" || t == "mousemove" || t == "mouseup"
  }

  /**
   * `_handleMinorMouseEvent`: ignored while dragging or for a non-primary button
   * (even for an unknown type); otherwise mouseenter/mouseleave/mousemove emit with the
   * matching callback, and any other type throws. The drag state, the listeners and
   * the style are never touched.
   */
  function MinorEvent(env: Env, s: State, e: MouseEvent, measured: Bounds): (r: Outcome)
    requires CacheUsable(s) && Usable(measured)
    ensures s.dragging || e.button != LeftMouseButton ==> r == Done(s)
    ensures r.InvalidEventType? <==> !s.dragging && e.button == LeftMouseButton && !IsHoverType(e.eventType)
    ensures r.InvalidEventType? ==> r.eventType == e.eventType
    ensures r.Done? ==> CacheUsable(r.state)
    ensures r.Done? ==> r.state == s.(emitted := r.state.emitted, bounds := r.state.bounds, boundsRequests := r.state.boundsRequests)
    ensures r.Done? && Inv(env, s) ==> Inv(env, r.state)
    ensures !s.dragging && e.button == LeftMouseButton && e.eventType == "mouseenter" ==>
      EmittedAs(env, s, r.state, s.callbacks.onMouseEnter, MouseEnter, e, measured)
    ensures !s.dragging && e.button == LeftMouseButton && e.eventType == "mouseleave" ==>
      EmittedAs(env, s, r.state, s.callbacks.onMouseLeave, MouseLeave, e, measured)
    ensures !s.dragging && e.button == LeftMouseButton && e.eventType == "mousemove" ==>
      EmittedAs(env, s, r.state, s.callbacks.onMouseMove, MouseMove, e, measured)
  {
    if s.dragging || e.button != LeftMouseButton then Done(s)
    else if e.eventType == "mouseenter" then Done(Emit(env, s, s.callbacks.onMouseEnter, MouseEnter, e, measured))
    else if e.eventType == "mouseleave" then Done(Emit(env, s, s.callbacks.onMouseLeave, MouseLeave, e, measured))
    else if e.eventType == "mousemove" then Done(Emit(env, s, s.callbacks.onMouseMove, MouseMove, e, measured))
    else InvalidEventType(e.eventType)
  }

  /** The state a primary-button mousedown moves an Idle manager to, before it emits. */
  function StartDragging(env: Env, s: State): (r: State)
    ensures r.dragging && r.listeners == s.listeners + {MoveListener, UpListener}
    ensures r.userSelect == if env.hasBodyStyle then Some(UserSelectNone) else s.userSelect
    ensures r == s.(dragging := true, listeners := r.listeners, userSelect := r.userSelect)
  {
    s.(listeners := s.listeners + {MoveListener, UpListener},
       userSelect := if env.hasBodyStyle then Some(UserSelectNone) else s.userSelect,
       dragging := true)
  }

  /**
   * `_handleDragEvent`: the drag lifecycle. A primary-button mousedown while Idle
   * starts a drag and emits DRAG_START; mousemove while dragging emits DRAG_MOVE;
   * mouseup while dragging, whatever the button, stops the drag and then emits
   * DRAG_END; every other routed event is ignored, and an unrouted type throws even
   * while Idle.
   */
  function DragEvent(env: Env, s: State, e: MouseEvent, measured: Bounds): (r: Outcome)
    requires CacheUsable(s) && Usable(measured)
    ensures r.InvalidEventType? <==> !IsDragType(e.eventType)
    ensures r.InvalidEventType? ==> r.eventType == e.eventType
    ensures r.Done? ==> CacheUsable(r.state)
    ensures r.Done? ==> r.state.callbacks == s.callbacks && r.state.resetBoundsOnResize == s.resetBoundsOnResize
    ensures r.Done? && Inv(env, s) ==> Inv(env, r.state)
    ensures e.eventType == "mousedown" && (s.dragging || e.button != LeftMouseButton) ==> r == Done(s)
    ensures (e.eventType == "mousemove" || e.eventType == "mouseup") && !s.dragging ==> r == Done(s)
    ensures e.eventType == "mousedown" && !s.dragging && e.button == LeftMouseButton ==>
      && r.Done? && r.state.dragging
      && r.state.listeners == s.listeners + {MoveListener, UpListener}
      && r.state.userSelect == (if env.hasBodyStyle then Some(UserSelectNone) else s.userSelect)
      && EmittedAs(env, s, r.state, s.callbacks.onDragStart, DragStart, e, measured)
    ensures e.eventType == "mousemove" && s.dragging ==>
      && r.Done? && r.state.dragging
      && r.state.listeners == s.listeners && r.state.userSelect == s.userSelect
      && EmittedAs(env, s, r.state, s.callbacks.onDragMove, DragMove, e, measured)
    ensures e.eventType == "mouseup" && s.dragging ==>
      && r.Done? && !r.state.dragging
      && r.state.listeners == s.listeners - {MoveListener, UpListener}
      && r.state.userSelect == (if env.hasBodyStyle then None else s.userSelect)
      && EmittedAs(env, s, r.state, s.callbacks.onDragEnd, DragEnd, e, measured)
  {
    if e.eventType == "mousedown" then
      if s.dragging || e.button != LeftMouseButton then Done(s)
      else
        var s1 := StartDragging(env, s);
        Done(Emit(env, s1, s1.callbacks.onDragStart, DragStart, e, measured))
    else if e.eventType == "mousemove" then
      if !s.dragging then Done(s)
      else Done(Emit(env, s, s.callbacks.onDragMove, DragMove, e, measured))
    else if e.eventType == "mouseup" then
      if !s.dragging then Done(s)
      else
        var s1 := StopDragging(env, s);
        Done(Emit(env, s1, s1.callbacks.onDragEnd, DragEnd, e, measured))
    else InvalidEventType(e.eventType)
  }
}
