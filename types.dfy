/**
 * The values a DraggableManager consumes and produces: the bounds supplied by the
 * host, the mouse events it routes, the updates it emits, and the window listeners
 * it registers.
 */
module DraggableTypes {

  datatype Option<+T> = None | Some(value: T)

  /** `MouseEvent.button` of the primary (left) button. */
  const LeftMouseButton: int := 0

  /** The value written to `document.body.style.userSelect` while a drag is in progress. */
  const UserSelectNone: string := "none"

  /**
   * The range a drag can span: `clientXLeft` is the offset client coordinates are
   * measured against, `width` the pixel width of the range, and the optional
   * `minValue`/`maxValue` clamp the normalised value.
   */
  datatype Bounds = Bounds(clientXLeft: real, width: real, minValue: Option<real>, maxValue: Option<real>)

  /** The fields of a DOM mouse event that the manager reads: `type`, `button` and `clientX`. */
  datatype MouseEvent = MouseEvent(eventType: string, button: int, clientX: real)

  /** The closed enumeration of update types. */
  datatype UpdateType = MouseEnter | MouseLeave | MouseMove | DragStart | DragMove | DragEnd

  /** The record handed to a callback; `manager` is the emitting manager itself. */
  datatype DraggingUpdate = DraggingUpdate(
    kind: UpdateType,
    value: real,
    x: real,
    event: MouseEvent,
    manager: object,
    tag: Option<string>)

  /** The identity of a caller-supplied callback. */
  type CallbackId = nat

  /** The six optional callbacks of the construction options. */
  datatype Callbacks = Callbacks(
    onMouseEnter: Option<CallbackId>,
    onMouseLeave: Option<CallbackId>,
    onMouseMove: Option<CallbackId>,
    onDragStart: Option<CallbackId>,
    onDragMove: Option<CallbackId>,
    onDragEnd: Option<CallbackId>)

  const NoCallbacks: Callbacks := Callbacks(None, None, None, None, None, None)

  /** One call of a callback with an update. */
  datatype Invocation = Invocation(callback: CallbackId, update: DraggingUpdate)

  /** The two handlers the manager binds once and registers on `window`. */
  datatype Handler = ResetBoundsHandler | DragEventHandler

  /** A window listener: an event type and the bound handler it calls. */
  datatype Listener = Listener(eventType: string, handler: Handler)

  const ResizeListener: Listener := Listener("resize", ResetBoundsHandler)
  const MoveListener: Listener := Listener("mousemove", DragEventHandler)
  const UpListener: Listener := Listener("mouseup", DragEventHandler)
}
