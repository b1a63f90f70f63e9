/**
 * The DraggableManager class: the fields the source keeps, plus the window
 * listeners it registers, the body's `userSelect`, the log of callback invocations
 * and the log of bounds-provider calls. Every method is proved to move the abstract
 * state exactly as the matching function of DragMachine does.
 */
module Draggable {
  import opened DraggableTypes
  import opened PositionMapper
  import DragMachine

  class DraggableManager {
    const tag: Option<string>
    /** Whether `document.body.style` exists. */
    const hasBodyStyle: bool

    // the cached bounds; invalidated by ResetBounds and Dispose
    var bounds: Option<Bounds>
    var dragging: bool
    var onMouseEnter: Option<CallbackId>
    var onMouseLeave: Option<CallbackId>
    var onMouseMove: Option<CallbackId>
    var onDragStart: Option<CallbackId>
    var onDragMove: Option<CallbackId>
    var onDragEnd: Option<CallbackId>
    var resetBoundsOnResize: bool

    // the part of the host this manager changes
    var listeners: set<Listener>
    var userSelect: Option<string>
    var emitted: seq<Invocation>
    var boundsRequests: seq<Option<string>>

    function Env(): DragMachine.Env {
      DragMachine.Env(tag, hasBodyStyle, this)
    }

    function CurrentCallbacks(): Callbacks
      reads this
    {
      DraggableTypes.Callbacks(onMouseEnter, onMouseLeave, onMouseMove, onDragStart, onDragMove, onDragEnd)
    }

    function State(): DragMachine.State
      reads this
    {
      DragMachine.State(dragging, bounds, CurrentCallbacks(), resetBoundsOnResize,
                        listeners, userSelect, emitted, boundsRequests)
    }

    predicate Valid()
      reads this
    {
      DragMachine.Inv(Env(), State())
    }

    /**
     * Starts Idle with an empty cache, and registers the window resize listener
     * exactly when `resetBoundsOnResize` is absent or true.
     */
    constructor (tag: Option<string>, resetBoundsOnResize: Option<bool>, callbacks: Callbacks,
                 hasBodyStyle: bool, userSelect: Option<string>)
      ensures Valid()
      ensures State() == DragMachine.Init(Env(), resetBoundsOnResize, callbacks, userSelect)
      ensures this.tag == tag && this.hasBodyStyle == hasBodyStyle
    {
      this.tag := tag;
      this.hasBodyStyle := hasBodyStyle;
      dragging := false;
      bounds := None;
      var reset := match resetBoundsOnResize case None => true case Some(b) => b;
      this.resetBoundsOnResize := reset;
      listeners := if reset then {ResizeListener} else {};
      onMouseEnter := callbacks.onMouseEnter;
      onMouseLeave := callbacks.onMouseLeave;
      onMouseMove := callbacks.onMouseMove;
      onDragStart := callbacks.onDragStart;
      onDragMove := callbacks.onDragMove;
      onDragEnd := callbacks.onDragEnd;
      this.userSelect := userSelect;
      emitted := [];
      boundsRequests := [];
    }

    /** `_getBounds`; `measured` is what the bounds provider returns if it is called now. */
    method GetBounds(measured: Bounds) returns (b: Bounds)
      requires Valid() && Usable(measured)
      modifies this
      ensures Valid()
      ensures b == DragMachine.CachedBounds(old(State()), measured) && Usable(b)
      ensures State() == DragMachine.LoadBounds(Env(), old(State()), measured)
    {
      if bounds.None? {
        bounds := Some(measured);
        boundsRequests := boundsRequests + [tag];
      }
      b := bounds.value;
    }

    /** `_getPosition`: the position of `clientX` under the (possibly just fetched) bounds. */
    method GetPosition(clientX: real, measured: Bounds) returns (p: Position)
      requires Valid() && Usable(measured)
      modifies this
      ensures Valid()
      ensures p == PositionOf(DragMachine.CachedBounds(old(State()), measured), clientX)
      ensures p.x == p.value * DragMachine.CachedBounds(old(State()), measured).width
      ensures State() == DragMachine.LoadBounds(Env(), old(State()), measured)
    {
      var b := GetBounds(measured);
      var x := clientX - b.clientXLeft;
      var value := x / b.width;
      if b.minValue.Some? && value < b.minValue.value {
        value := b.minValue.value;
        x := b.minValue.value * b.width;
      } else if b.maxValue.Some? && value > b.maxValue.value {
        value := b.maxValue.value;
        x := b.maxValue.value * b.width;
      }
      p := Position(value, x);
    }

    /** `_stopDragging`. */
    method StopDragging()
      requires Valid()
      modifies this
      ensures Valid()
      ensures State() == DragMachine.StopDragging(Env(), old(State()))
    {
      listeners := listeners - {MoveListener};
      listeners := listeners - {UpListener};
      if hasBodyStyle {
        userSelect := None;
      }
      dragging := false;
    }

    method IsDragging() returns (r: bool)
      ensures r == dragging
    {
      r := dragging;
    }

    /** `dispose`. */
    method Dispose()
      requires Valid()
      modifies this
      ensures Valid() && listeners == {}
      ensures State() == DragMachine.Dispose(Env(), old(State()))
    {
      if dragging {
        StopDragging();
      }
      if resetBoundsOnResize {
        listeners := listeners - {ResizeListener};
      }
      bounds := None;
      onMouseEnter := None;
      onMouseLeave := None;
      onMouseMove := None;
      onDragStart := None;
      onDragMove := None;
      onDragEnd := None;
    }

    /** `resetBounds`, also what the window resize listener calls. */
    method ResetBounds()
      requires Valid()
      modifies this
      ensures Valid()
      ensures State() == DragMachine.ResetBounds(old(State()))
    {
      bounds := None;
    }

    /** Calls `handler`, if there is one, with the update for `e`. */
    method Emit(handler: Option<CallbackId>, kind: UpdateType, e: MouseEvent, measured: Bounds)
      requires Valid() && Usable(measured)
      modifies this
      ensures Valid()
      ensures State() == DragMachine.Emit(Env(), old(State()), handler, kind, e, measured)
    {
      if handler.None? {
        return;
      }
      var p := GetPosition(e.clientX, measured);
      emitted := emitted + [Invocation(handler.value, DraggingUpdate(kind, p.value, p.x, e, this, tag))];
    }

    /**
     * `_handleMinorMouseEvent`, the handler of mouseenter, mousemove and mouseleave;
     * `thrown` is the event type it throws on.
     */
    method HandleMinorMouseEvent(e: MouseEvent, measured: Bounds) returns (thrown: Option<string>)
      requires Valid() && Usable(measured)
      modifies this
      ensures Valid()
      ensures match DragMachine.MinorEvent(Env(), old(State()), e, measured)
        case Done(s) => thrown.None? && State() == s
        case InvalidEventType(t) => thrown == Some(t) && State() == old(State())
    {
      thrown := None;
      if dragging || e.button != LeftMouseButton {
        return;
      }
      var kind: UpdateType;
      var handler: Option<CallbackId>;
      if e.eventType == "mouseenter" {
        kind, handler := MouseEnter, onMouseEnter;
      } else if e.eventType == "mouseleave" {
        kind, handler := MouseLeave, onMouseLeave;
      } else if e.eventType == "mousemove" {
        kind, handler := MouseMove, onMouseMove;
      } else {
        thrown := Some(e.eventType);
        return;
      }
      Emit(handler, kind, e, measured);
    }

    /**
     * `_handleDragEvent`, the handler of mousedown and of the window mousemove and
     * mouseup listeners; `thrown` is the event type it throws on.
     */
    method HandleDragEvent(e: MouseEvent, measured: Bounds) returns (thrown: Option<string>)
      requires Valid() && Usable(measured)
      modifies this
      ensures Valid()
      ensures match DragMachine.DragEvent(Env(), old(State()), e, measured)
        case Done(s) => thrown.None? && State() == s
        case InvalidEventType(t) => thrown == Some(t) && State() == old(State())
    {
      thrown := None;
      var kind: UpdateType;
      var handler: Option<CallbackId>;
      if e.eventType == "mousedown" {
        if dragging || e.button != LeftMouseButton {
          return;
        }
        listeners := listeners + {MoveListener};
        listeners := listeners + {UpListener};
        if hasBodyStyle {
          userSelect := Some(UserSelectNone);
        }
        dragging := true;
        kind, handler := DragStart, onDragStart;
      } else if e.eventType == "mousemove" {
        if !dragging {
          return;
        }
        kind, handler := DragMove, onDragMove;
      } else if e.eventType == "mouseup" {
        if !dragging {
          return;
        }
        StopDragging();
        kind, handler := DragEnd, onDragEnd;
      } else {
        thrown := Some(e.eventType);
        return;
      }
      Emit(handler, kind, e, measured);
    }
  }
}
