/**
 * The event handler: a table of twelve callbacks, one per event class, each
 * starting as a default that returns false and leaves the event alone.
 *
 * A C++ `std::function<bool(E&)>` is arbitrary code; here a callback is
 * described by what it can do to the event it receives: optionally call
 * `handle(b)` on it, then return a constant or the event's handled flag.
 * The default callbacks and the application handler of the engine's
 * event-handler test are both of that form.
 */
module EventHandlers {
  import opened Wrappers
  import opened Events

  /** The twelve callback slots, in declaration order. */
  datatype Slot =
    | OnWindowClose | OnWindowResize | OnWindowFocus | OnWindowLostFocus | OnWindowMove
    | OnKeyPress | OnKeyRelease | OnKeyType
    | OnMouseButtonPress | OnMouseButtonRelease | OnMouseMove | OnMouseScroll

  /** The slot whose callback takes events of class `k`. */
  function SlotFor(k: EventKind): (s: Slot)
    ensures k.IsKeyEvent() <==> s in {OnKeyPress, OnKeyRelease, OnKeyType}
  {
    match k
    case WindowCloseEvent => OnWindowClose
    case WindowResizeEvent(_, _) => OnWindowResize
    case WindowFocusEvent => OnWindowFocus
    case WindowLostFocusEvent => OnWindowLostFocus
    case WindowMoveEvent(_, _) => OnWindowMove
    case KeyPressEvent(_, _) => OnKeyPress
    case KeyReleaseEvent(_) => OnKeyRelease
    case KeyTypeEvent(_) => OnKeyType
  }

  /** What a callback returns. */
  datatype ReturnRule = Constant(b: bool) | HandledFlag

  /**
   * A callback: the `defaultOn…` member bound at construction, or an installed
   * handler that may call `handle(sets)` and then returns `result`.
   */
  datatype Callback = Default | Handler(sets: Option<bool>, result: ReturnRule)

  /** The handled flag of the event after `cb` ran on an event whose flag was `handled`. */
  function HandledAfter(cb: Callback, handled: bool): bool {
    match cb
    case Default => handled
    case Handler(sets, _) => if sets.Some? then sets.value else handled
  }

  /** The value `cb` returns on an event whose flag was `handled`. */
  function ResultOf(cb: Callback, handled: bool): bool {
    match cb
    case Default => false
    case Handler(_, Constant(b)) => b
    case Handler(_, HandledFlag) => HandledAfter(cb, handled)
  }

  /** The default callbacks return false and leave the event as it was. */
  lemma DefaultIgnoresEvent(handled: bool)
    ensures !ResultOf(Default, handled)
    ensures HandledAfter(Default, handled) == handled
  {
  }

  /** A handler that handles the event and returns its flag returns true and leaves it handled. */
  lemma HandlingHandlerReportsHandled(result: ReturnRule, handled: bool)
    ensures HandledAfter(Handler(Some(true), result), handled)
    ensures ResultOf(Handler(Some(true), HandledFlag), handled)
  {
  }

  /** Calls `cb` on `e`. */
  method Invoke(cb: Callback, e: Event) returns (r: bool)
    modifies e
    ensures e.handled == HandledAfter(cb, old(e.handled))
    ensures r == ResultOf(cb, old(e.handled))
  {
    match cb
    case Default =>
      r := false;
    case Handler(sets, result) =>
      if sets.Some? {
        e.Handle(sets.value);
      }
      match result
      case Constant(b) =>
        r := b;
      case HandledFlag =>
        r := e.IsHandled();
  }

  /** The callback table: one callback per slot. */
  class EventHandler {
    var callbacks: Slot -> Callback

    /** All twelve slots start with their default. */
    constructor ()
      ensures forall s: Slot :: GetCallback(s) == Default
    {
      callbacks := (s: Slot) => Default;
    }

    /** `m_getOn…Callback`: the callback currently installed in `slot`. */
    function GetCallback(slot: Slot): (r: Callback)
      reads this
      ensures r == callbacks(slot)
    {
      callbacks(slot)
    }

    /** `setOn…Callback`: replaces the callback in `slot` and no other. */
    method SetCallback(slot: Slot, fn: Callback)
      modifies this
      ensures GetCallback(slot) == fn
      ensures forall s: Slot :: s != slot ==> GetCallback(s) == old(GetCallback(s))
    {
      var previous := callbacks;
      callbacks := (s: Slot) => if s == slot then fn else previous(s);
    }
  }

  /** The test application's close handler: handles the event and returns its flag. */
  const ON_CLOSE: Callback := Handler(Some(true), HandledFlag)

  /**
   * The close-callback scenario: a new close event is unhandled; the default
   * close callback leaves it unhandled; after the application installs its
   * handler, the retrieved callback leaves it handled.
   */
  method OnCloseScenario() returns (handledBefore: bool, handledDefault: bool, handledAfter: bool)
    ensures !handledBefore && !handledDefault && handledAfter
    ensures handledBefore == handledDefault && handledBefore != handledAfter
  {
    var handler := new EventHandler();
    var e := new Event(WindowCloseEvent);
    handledBefore := e.IsHandled();
    var onCloseDefault := handler.GetCallback(SlotFor(e.kind));
    var _ := Invoke(onCloseDefault, e);
    handledDefault := e.IsHandled();
    handler.SetCallback(OnWindowClose, ON_CLOSE);
    var onClose := handler.GetCallback(SlotFor(e.kind));
    var _ := Invoke(onClose, e);
    handledAfter := e.IsHandled();
  }
}
