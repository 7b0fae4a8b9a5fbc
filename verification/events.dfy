/**
 * Engine events: the event type enumeration, the category bit mask, the
 * keyboard and window event classes, and the mutable "handled" flag every
 * event carries.
 *
 * The C++ class hierarchy (Event <- KeyEvent <- KeyPressEvent, ...) becomes one
 * value type `EventKind` whose constructors are the concrete event classes and
 * whose fields are their constructor arguments; the one field any class
 * updates in place, `m_handled`, lives in the class `Event`.
 */
module Events {
  import opened Ints

  /** `enum class EventType`, in declaration order. */
  datatype EventType =
    | None
    | WindowClose | WindowResize | WindowFocus | WindowLostFocus | WindowMoved
    | KeyPressed | KeyReleased | KeyTyped
    | MouseButtonPressed | MouseButtonReleased | MouseMoved | MouseScrolled

  /** `enum EventCategory`: one bit per category. */
  const CATEGORY_NONE: bv32 := 0
  const CATEGORY_WINDOW: bv32 := 1
  const CATEGORY_INPUT: bv32 := 2
  const CATEGORY_KEYBOARD: bv32 := 4
  const CATEGORY_MOUSE: bv32 := 8
  const CATEGORY_MOUSE_BUTTON: bv32 := 16

  /** The five category bits, in declaration order. */
  const CATEGORIES: seq<bv32> :=
    [CATEGORY_WINDOW, CATEGORY_INPUT, CATEGORY_KEYBOARD, CATEGORY_MOUSE, CATEGORY_MOUSE_BUTTON]

  /** A value with exactly one bit set. */
  predicate SingleBit(c: bv32) {
    c != 0 && c & (c - 1) == 0
  }

  /** The categories are distinct single bits, so no two of them share a bit. */
  lemma CategoriesAreDistinctBits()
    ensures forall i :: 0 <= i < |CATEGORIES| ==> SingleBit(CATEGORIES[i])
    ensures forall i, j :: 0 <= i < j < |CATEGORIES| ==> CATEGORIES[i] & CATEGORIES[j] == 0
  {
  }

  /** The concrete keyboard and window event classes with their payloads. */
  datatype EventKind =
    | WindowCloseEvent
    | WindowResizeEvent(width: i32, height: i32)
    | WindowFocusEvent
    | WindowLostFocusEvent
    | WindowMoveEvent(posX: i32, posY: i32)
    | KeyPressEvent(keyCode: i32, repeatCount: i32)
    | KeyReleaseEvent(keyCode: i32)
    | KeyTypeEvent(keyCode: i32)
  {
    /** Derives from `KeyEvent`. */
    predicate IsKeyEvent() {
      KeyPressEvent? || KeyReleaseEvent? || KeyTypeEvent?
    }
  }

  /** `getCategoryFlags`: Keyboard|Input for key events, Window for window events. */
  function CategoryFlags(k: EventKind): (r: bv32)
    ensures k.IsKeyEvent() ==> r == CATEGORY_KEYBOARD | CATEGORY_INPUT
    ensures !k.IsKeyEvent() ==> r == CATEGORY_WINDOW
  {
    if k.IsKeyEvent() then CATEGORY_KEYBOARD | CATEGORY_INPUT else CATEGORY_WINDOW
  }

  /** `isInCategory`: the category flags share a bit with `c`. */
  predicate InCategory(k: EventKind, c: bv32) {
    CategoryFlags(k) & c != 0
  }

  /**
   * Key events are in the Keyboard and Input categories and in no other;
   * window events are in the Window category and in no other.
   */
  lemma CategoryMembership(k: EventKind)
    ensures k.IsKeyEvent() ==>
              InCategory(k, CATEGORY_KEYBOARD) && InCategory(k, CATEGORY_INPUT) &&
              !InCategory(k, CATEGORY_WINDOW) && !InCategory(k, CATEGORY_MOUSE) &&
              !InCategory(k, CATEGORY_MOUSE_BUTTON)
    ensures !k.IsKeyEvent() ==>
              InCategory(k, CATEGORY_WINDOW) && !InCategory(k, CATEGORY_INPUT) &&
              !InCategory(k, CATEGORY_KEYBOARD) && !InCategory(k, CATEGORY_MOUSE) &&
              !InCategory(k, CATEGORY_MOUSE_BUTTON)
    ensures !InCategory(k, CATEGORY_NONE)
  {
  }

  /** `getStaticType` of each class. */
  function StaticType(k: EventKind): (r: EventType)
    ensures r != None && !(r in {MouseButtonPressed, MouseButtonReleased, MouseMoved, MouseScrolled})
    ensures k.IsKeyEvent() <==> r in {KeyPressed, KeyReleased, KeyTyped}
  {
    match k
    case WindowCloseEvent => WindowClose
    case WindowResizeEvent(_, _) => WindowResize
    case WindowFocusEvent => WindowFocus
    case WindowLostFocusEvent => WindowLostFocus
    case WindowMoveEvent(_, _) => WindowMoved
    case KeyPressEvent(_, _) => KeyPressed
    case KeyReleaseEvent(_) => KeyReleased
    case KeyTypeEvent(_) => KeyTyped
  }

  /** Two kinds built by the same class. */
  predicate SameClass(a: EventKind, b: EventKind) {
    match (a, b)
    case (WindowCloseEvent, WindowCloseEvent) => true
    case (WindowResizeEvent(_, _), WindowResizeEvent(_, _)) => true
    case (WindowFocusEvent, WindowFocusEvent) => true
    case (WindowLostFocusEvent, WindowLostFocusEvent) => true
    case (WindowMoveEvent(_, _), WindowMoveEvent(_, _)) => true
    case (KeyPressEvent(_, _), KeyPressEvent(_, _)) => true
    case (KeyReleaseEvent(_), KeyReleaseEvent(_)) => true
    case (KeyTypeEvent(_), KeyTypeEvent(_)) => true
    case _ => false
  }

  /**
   * `getEventType` as the window event header writes it: the focus, lost-focus
   * and move events answer WindowResize.
   */
  function EventTypeAsWritten(k: EventKind): (r: EventType)
    ensures k.WindowFocusEvent? || k.WindowLostFocusEvent? || k.WindowMoveEvent? ==> r == WindowResize
  {
    match k
    case WindowFocusEvent => WindowResize
    case WindowLostFocusEvent => WindowResize
    case WindowMoveEvent(_, _) => WindowResize
    case _ => StaticType(k)
  }

  /**
   * The written `getEventType` agrees with `getStaticType` exactly for the
   * close, resize and key events, so a focus event cannot be told from a
   * resize event by its type.
   */
  lemma EventTypeAsWrittenConfusesClasses(k: EventKind)
    ensures EventTypeAsWritten(k) == StaticType(k) <==>
              !(k.WindowFocusEvent? || k.WindowLostFocusEvent? || k.WindowMoveEvent?)
    ensures EventTypeAsWritten(WindowFocusEvent) == EventTypeAsWritten(WindowResizeEvent(800, 600))
    ensures !SameClass(WindowFocusEvent, WindowResizeEvent(800, 600))
  {
  }

  /** `getEventType` as evidently intended: every class answers its own static type. */
  function IntendedEventType(k: EventKind): (r: EventType)
    ensures r == StaticType(k)
    ensures r != None
    ensures k.IsKeyEvent() <==> r in {KeyPressed, KeyReleased, KeyTyped}
  {
    StaticType(k)
  }

  /** With the intended `getEventType`, the type identifies the class. */
  lemma EventTypeIdentifiesClass(a: EventKind, b: EventKind)
    ensures IntendedEventType(a) == IntendedEventType(b) <==> SameClass(a, b)
  {
  }

  /** `getKeyCode` of a key event. */
  function KeyCode(k: EventKind): (r: i32)
    requires k.IsKeyEvent()
    ensures (k.KeyPressEvent? && k == KeyPressEvent(r, k.repeatCount)) || k == KeyReleaseEvent(r) || k == KeyTypeEvent(r)
  {
    k.keyCode
  }

  /** `getRepeatCount` of a key press. */
  function RepeatCount(k: EventKind): (r: i32)
    requires k.KeyPressEvent?
    ensures k == KeyPressEvent(k.keyCode, r)
  {
    k.repeatCount
  }

  /** `getSize` of a resize event: (width, height). */
  function Size(k: EventKind): (r: (i32, i32))
    requires k.WindowResizeEvent?
    ensures k == WindowResizeEvent(r.0, r.1)
  {
    (k.width, k.height)
  }

  /** `getPos` of a move event: (x, y). */
  function Pos(k: EventKind): (r: (i32, i32))
    requires k.WindowMoveEvent?
    ensures k == WindowMoveEvent(r.0, r.1)
  {
    (k.posX, k.posY)
  }

  /** An event object: its class and payload never change; its handled flag does. */
  class Event {
    const kind: EventKind
    var handled: bool

    /** Every event starts unhandled. */
    constructor (kind: EventKind)
      ensures this.kind == kind && !handled
    {
      this.kind := kind;
      handled := false;
    }

    /** `isHandled`. */
    function IsHandled(): (r: bool)
      reads this
      ensures r <==> handled
    {
      handled
    }

    /** `handle(b)`: afterwards `isHandled()` answers `b`. */
    method Handle(b: bool)
      modifies this
      ensures IsHandled() == b
    {
      handled := b;
    }

    /** `getCategoryFlags`. */
    function GetCategoryFlags(): (r: bv32)
      ensures r == CategoryFlags(kind)
    {
      CategoryFlags(kind)
    }

    /** `isInCategory(c)`: holds iff the flags and `c` share a bit. */
    function IsInCategory(c: bv32): (r: bool)
      ensures r <==> GetCategoryFlags() & c != 0
    {
      InCategory(kind, c)
    }

    /** `getEventType`, with every class answering its own static type. */
    function GetEventType(): (r: EventType)
      ensures r == StaticType(kind)
    {
      IntendedEventType(kind)
    }
  }

  /**
   * The resize-constructor scenario: an event built from (800, 600) reports
   * that width and height, the Window category, and WindowResize as both its
   * type and its static type.
   */
  method ResizeScenario() returns (width: i32, height: i32, category: bv32, eventType: EventType, staticType: EventType, handled: bool)
    ensures width == 800 && height == 600
    ensures category == CATEGORY_WINDOW
    ensures eventType == staticType == WindowResize
    ensures !handled
  {
    var e := new Event(WindowResizeEvent(800, 600));
    var size := Size(e.kind);
    width, height := size.0, size.1;
    category := e.GetCategoryFlags();
    eventType := e.GetEventType();
    staticType := StaticType(e.kind);
    handled := e.IsHandled();
  }
}
