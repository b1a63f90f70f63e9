# DraggableManager, modelled in Dafny

This project models `DraggableManager`, the pointer-drag controller of the Jaeger UI
(`src/utils/DraggableManager/DraggableManager.js`). The controller is a two-state
machine, Idle or Dragging. It turns mouse events on a host element, and on `window`
during a drag, into updates for caller-supplied callbacks: MOUSE_ENTER, MOUSE_LEAVE,
MOUSE_MOVE, DRAG_START, DRAG_MOVE and DRAG_END. Each update carries a normalised value
and a pixel offset, computed from lazily fetched and cached bounds and clamped to the
bounds' optional limits. The controller registers and removes its window listeners, and
it sets and clears `document.body.style.userSelect`.

The files:

- `types.dfy` (module `DraggableTypes`): bounds, mouse events, update types, update
  records, the six optional callbacks, window listeners.
- `position.dfy` (module `PositionMapper`): the position mapper as a function on the
  current bounds, checked against an independent clamp.
- `machine.dfy` (module `DragMachine`): every operation of the class as a function
  from the manager's state before a call to its state after it, with the consistency
  invariant `Inv`. An exception is the outcome `InvalidEventType`. The source never
  changes state before it throws, so the state is unchanged in that outcome.
- `manager.dfy` (module `Draggable`): the class `DraggableManager`. Its fields are the
  source's fields plus the host state the class changes: the window listeners it has
  registered, the body's `userSelect`, the log of callback invocations and the log of
  bounds-provider calls. Every method is proved to move `State()` exactly as the
  matching `DragMachine` function does, and to keep `Valid()`.
- `host.dfy` (module `HostLoop`): the host's event loop. It covers element events,
  window events (delivered only through a registered listener), and direct calls of
  `resetBounds` and `dispose`. The lemmas here are about whole sequences of operations.

Two modelling choices:

- The bounds provider `getBounds` is code the model cannot see. Each handler therefore
  takes a parameter `measured`, which is what the provider would return if it were
  called during that event. Each call of the provider is recorded with the tag it is
  passed.
- A callback is an identity (`CallbackId`). Calling it appends an `Invocation` to the
  log `emitted`.

A `mouseup` ends a drag whatever button was released (DraggableManager.js:212-218), and
`DragMachine.DragEvent` states this.

## Model

| member | source | states |
|---|---|---|
| `PositionMapper.PositionOf` | src/utils/DraggableManager/DraggableManager.js:107-119 | `x == value * width` always. The lower limit is tested first: a raw value below `minValue` gives (`minValue`, `minValue * width`); otherwise a raw value above `maxValue` gives (`maxValue`, `maxValue * width`), whether or not the limits are in order. With ordered limits, `value` equals the textbook clamp of `(clientX - clientXLeft) / width` and lies within the limits present. A raw value within the limits is returned unclamped with `x = clientX - clientXLeft`. |
| `PositionMapper.PositionMonotone` | src/utils/DraggableManager/DraggableManager.js:107-119 | With ordered limits, moving the pointer right never decreases the mapped value. |
| `PositionMapper.PositionRoundTrip` | src/utils/DraggableManager/DraggableManager.js:107-119 | Re-mapping `clientXLeft + x` of a mapped position gives the same position, so `x` is the pixel offset of `value`. |
| `DragMachine.Init` | src/utils/DraggableManager/DraggableManager.js:74-98 | The manager starts Idle with an empty cache and the given callbacks. The resize listener is registered exactly when `resetBoundsOnResize` is absent or true. The invariant holds. |
| `DragMachine.LoadBounds` | src/utils/DraggableManager/DraggableManager.js:100-105 | The result is the cached bounds if present, else the provider's. The provider is called, with the tag, exactly when the cache is empty. Nothing else changes. |
| `DragMachine.ResetBounds` | src/utils/DraggableManager/DraggableManager.js:151-153 | Empties the cache and changes nothing else. |
| `DragMachine.Emit` | src/utils/DraggableManager/DraggableManager.js:174-185 | With no callback, nothing changes and the provider is not consulted. With a callback, exactly one invocation of it is appended. Its update carries the type, the position of `clientX` under the cached-or-fetched bounds, the event, the manager and the tag. Nothing else but the cache changes. |
| `DragMachine.StopDragging` | src/utils/DraggableManager/DraggableManager.js:121-129 | Removes the window mousemove/mouseup listeners, clears `userSelect` when the body has a style, and leaves the manager Idle. Nothing else changes. |
| `DragMachine.StartDragging` | src/utils/DraggableManager/DraggableManager.js:196-202 | Adds the window mousemove/mouseup listeners, sets `userSelect` to `none` when the body has a style, and sets Dragging. |
| `DragMachine.Dispose` | src/utils/DraggableManager/DraggableManager.js:135-149 | Leaves the manager Idle with no cache and no callbacks. It emits no DRAG_END. It removes the drag listeners if dragging and the resize listener if enabled, so under the invariant no listener is left. It clears `userSelect` only when a drag was stopped. |
| `DragMachine.MinorEvent` | src/utils/DraggableManager/DraggableManager.js:155-186 | While dragging or for a non-primary button, returns with no effect, even for an unknown type. Otherwise it throws exactly for types other than mouseenter/mouseleave/mousemove, which emit with the matching callback. Drag state, listeners, style and callbacks never change. The invariant is kept. |
| `DragMachine.DragEvent` | src/utils/DraggableManager/DraggableManager.js:188-234 | Throws exactly for types other than mousedown/mousemove/mouseup, even while Idle. A primary mousedown when Idle starts a drag (listeners added, style set) and emits DRAG_START; any other mousedown changes nothing. While Idle, mousemove and mouseup change nothing. While dragging, mousemove emits DRAG_MOVE and changes no other state. While dragging, mouseup stops the drag, whatever the button, then emits DRAG_END. The invariant is kept. |
| `Draggable.DraggableManager.constructor` | src/utils/DraggableManager/DraggableManager.js:74-98 | Establishes `Valid()`, and the new state is `DragMachine.Init` of the options. |
| `Draggable.DraggableManager.GetBounds` | src/utils/DraggableManager/DraggableManager.js:100-105 | Returns the cached-or-fetched bounds, usable for division. The new state is `LoadBounds` of the old one. |
| `Draggable.DraggableManager.GetPosition` | src/utils/DraggableManager/DraggableManager.js:107-119 | The imperative clamp returns `PositionOf` of the bounds it looked up, with `x == value * width`. The new state is `LoadBounds` of the old one. |
| `Draggable.DraggableManager.StopDragging` | src/utils/DraggableManager/DraggableManager.js:121-129 | Keeps `Valid()`, and the new state is `DragMachine.StopDragging` of the old one. |
| `Draggable.DraggableManager.IsDragging` | src/utils/DraggableManager/DraggableManager.js:131-133 | Returns the drag flag. |
| `Draggable.DraggableManager.Dispose` | src/utils/DraggableManager/DraggableManager.js:135-149 | Keeps `Valid()` and leaves no listener registered. The new state is `DragMachine.Dispose` of the old one. |
| `Draggable.DraggableManager.ResetBounds` | src/utils/DraggableManager/DraggableManager.js:151-153 | The new state is `DragMachine.ResetBounds` of the old one. |
| `Draggable.DraggableManager.Emit` | src/utils/DraggableManager/DraggableManager.js:222-233 | The new state is `DragMachine.Emit` of the old one. |
| `Draggable.DraggableManager.HandleMinorMouseEvent` | src/utils/DraggableManager/DraggableManager.js:155-186 | Returns the thrown event type exactly when `MinorEvent` throws, and then leaves the state unchanged. Otherwise the new state is the one `MinorEvent` gives. |
| `Draggable.DraggableManager.HandleDragEvent` | src/utils/DraggableManager/DraggableManager.js:188-234 | Returns the thrown event type exactly when `DragEvent` throws, and then leaves the state unchanged. Otherwise the new state is the one `DragEvent` gives. |
| `HostLoop.Step` | src/utils/DraggableManager/DraggableManager.js:86-91 | A window event reaches the manager only through a listener it registered (resize to `resetBounds`; mousemove/mouseup to the drag handler). Every operation keeps the invariant. |
| `HostLoop.RunPreservesInv` | src/utils/DraggableManager/DraggableManager.js:121-221 | Any sequence of operations keeps the invariant. Move/up listeners are registered exactly while dragging, the resize listener only when enabled, and selection is off while dragging. |
| `HostLoop.DragTail` | src/utils/DraggableManager/DraggableManager.js:206-221 | While dragging, n window mousemoves then a window mouseup emit n DRAG_MOVEs then one DRAG_END. They throw nothing, remove the drag listeners, clear the style and end Idle. |
| `HostLoop.DragGesture` | src/utils/DraggableManager/DraggableManager.js:188-234 | From Idle, a primary-button press, k window moves and a window release emit exactly DRAG_START, k DRAG_MOVEs and DRAG_END, in that order. The listeners end as they were, the style is cleared, and the manager is Idle. The provider is called once when the cache was empty and not at all otherwise. |
| `HostLoop.HoverIgnoredWhileDragging` | src/utils/DraggableManager/DraggableManager.js:155-159 | While dragging, any sequence of hover-channel events changes nothing and throws nothing, whatever the event types. |
| `HostLoop.CacheKept` | src/utils/DraggableManager/DraggableManager.js:100-105 | Once bounds are cached, a run without reset, resize or dispose never calls the provider, keeps the cache, and positions every new update with the cached bounds. |
| `HostLoop.CacheFetchedOnce` | src/utils/DraggableManager/DraggableManager.js:100-105 | Between invalidations the provider is called at most once, and only with the tag. |
| `HostLoop.SilentWithoutCallbacks` | src/utils/DraggableManager/DraggableManager.js:174-176 | With no callbacks, no sequence of operations emits anything or calls the provider. |
| `HostLoop.DisposedIsSilent` | src/utils/DraggableManager/DraggableManager.js:142-148 | After `dispose`, nothing the host does makes the manager emit or call the provider. |
| `HostLoop.DisposeDetachesWindow` | src/utils/DraggableManager/DraggableManager.js:135-141 | After `dispose`, even mid-drag, window mousemove, mouseup and resize events change nothing and throw nothing. |
| `HostLoop.ClampedDragScenario` | src/utils/DraggableManager/DraggableManager.js:107-119 | Concrete run with bounds {100, 200, 0, 1}. Press at 150 gives DRAG_START (0.25, 50). Move to 50 gives DRAG_MOVE (0, 0). Release at 350 gives DRAG_END (1, 200). One provider call, ending Idle. |
| `HostLoop.NonPrimaryPressIgnored` | src/utils/DraggableManager/DraggableManager.js:192-195 | A mousedown with any button but the primary one on an Idle manager changes nothing and emits nothing. |

## Left out

- `packages/jaeger-ui/src/components/SearchTracePage/SearchResults/Graph.js` is not part of this model. It is React view wiring and d3 SVG rendering, with no contract of its own.
- The DOM is abstract. `window.addEventListener`/`removeEventListener` become a set of (event type, bound handler) pairs. `_get(document, 'body.style')` becomes a fixed flag saying whether the body has a style, plus an optional `userSelect` value (`None` is the cleared value).
- The six callbacks are not executed. Their invocations are logged, so a callback that calls back into the manager is not modelled.
- The bounds provider is a parameter per event (`measured`) and is assumed usable (`width > 0`). A provider that throws, and the Infinity/NaN that a zero width gives in IEEE arithmetic, are not modelled. Coordinates are exact reals, not floating point.
- `userSelect` belongs to one manager here. Several managers sharing the one body style is not modelled.
- The `update-types` and `types` modules are not part of this model. They appear as the `UpdateType` datatype and the `DraggingUpdate`/`Bounds` records.
- The method bindings in the constructor (`handleMouseDown`, `handleMouseEnter`, `handleMouseMove`, `handleMouseLeave` as aliases of the two routers, and the bound `resetBounds`) are not separate members. They give stable handler identities, which `Handler` represents.
- `resetBoundsOnResize` is an `Option<bool>`: absent means true, as the source's default does. JavaScript truthiness of non-boolean option values is not modelled.
- A thrown `Error` is modelled by the event type it names. The message text is not modelled. `HostLoop.Run` lets the event loop go on after a throw with the state unchanged.
