/**
 * Layers and the layer stack.
 *
 * A layer carries a name pointer and three flags (displayed, active,
 * focused). The stack owns its layers in push order, calls their hooks on
 * push, pop, update and render, offers key and mouse events to the focused
 * layers bottom to top until one handles the event, and sets flags by name
 * pointer.
 *
 * The hooks are virtual and the default ones do nothing, so what the model
 * keeps of a hook call is the call itself: the stack appends one `HookCall`
 * per call to its `calls` trace. Whether a layer's input hook handles the
 * event it receives is a parameter of dispatch.
 */
module Layers {
  import opened Wrappers
  import opened Events

  /** The address of a layer's name string: names are compared as pointers. */
  type Name = nat

  class Layer {
    const name: Name
    var displayed: bool
    var active: bool
    var focused: bool

    /** A new layer is displayed, active and focused. */
    constructor (name: Name)
      ensures GetName() == name
      ensures IsDisplayed() && IsActive() && IsFocused()
    {
      this.name := name;
      displayed, active, focused := true, true, true;
    }

    function GetName(): (n: Name)
      ensures n == name
    {
      name
    }

    function IsDisplayed(): (b: bool)
      reads this
      ensures b == displayed
    {
      displayed
    }

    function IsActive(): (b: bool)
      reads this
      ensures b == active
    {
      active
    }

    function IsFocused(): (b: bool)
      reads this
      ensures b == focused
    {
      focused
    }

    /** `setDisplayed`: changes the displayed flag and no other. */
    method SetDisplayed(b: bool)
      modifies this
      ensures IsDisplayed() == b
      ensures IsActive() == old(IsActive()) && IsFocused() == old(IsFocused())
    {
      displayed := b;
    }

    /** `setActive`: changes the active flag and no other. */
    method SetActive(b: bool)
      modifies this
      ensures IsActive() == b
      ensures IsDisplayed() == old(IsDisplayed()) && IsFocused() == old(IsFocused())
    {
      active := b;
    }

    /** `setFocused`: changes the focused flag and no other. */
    method SetFocused(b: bool)
      modifies this
      ensures IsFocused() == b
      ensures IsDisplayed() == old(IsDisplayed()) && IsActive() == old(IsActive())
    {
      focused := b;
    }
  }

  /** The three layer flags. */
  datatype Flag = Displayed | Active | Focused

  function FlagOf(l: Layer, f: Flag): bool
    reads l
  {
    match f
    case Displayed => l.displayed
    case Active => l.active
    case Focused => l.focused
  }

  /** Sets flag `f` of `l` through the layer's own setter. */
  method SetFlag(l: Layer, f: Flag, b: bool)
    modifies l
    ensures FlagOf(l, f) == b
    ensures forall g :: g != f ==> FlagOf(l, g) == old(FlagOf(l, g))
  {
    match f
    case Displayed => l.SetDisplayed(b);
    case Active => l.SetActive(b);
    case Focused => l.SetFocused(b);
  }

  /** The input hooks the stack forwards events to. */
  datatype InputHook = OnKeyPressed | OnKeyReleased | OnMousePressed | OnMouseReleased | OnMouseMoved

  /** One call of a layer hook. */
  datatype HookCall =
    | Attach(layer: Layer)
    | Detach(layer: Layer)
    | Update(layer: Layer, ts: real)
    | Render(layer: Layer)
    | Input(hook: InputHook, layer: Layer)

  /** `s` in reverse order. */
  function Reverse<T>(s: seq<T>): (r: seq<T>)
    ensures |r| == |s|
    ensures forall k :: 0 <= k < |s| ==> r[k] == s[|s| - 1 - k]
  {
    if s == [] then [] else [s[|s| - 1]] + Reverse(s[..|s| - 1])
  }

  /** The update calls of one `update(ts)`, bottom layer first. */
  function Updates(ls: seq<Layer>, ts: real): (r: seq<HookCall>)
    ensures |r| == |ls|
    ensures forall k :: 0 <= k < |ls| ==> r[k] == Update(ls[k], ts)
  {
    if ls == [] then [] else Updates(ls[..|ls| - 1], ts) + [Update(ls[|ls| - 1], ts)]
  }

  /** The render calls of one `render()`, bottom layer first. */
  function Renders(ls: seq<Layer>): (r: seq<HookCall>)
    ensures |r| == |ls|
    ensures forall k :: 0 <= k < |ls| ==> r[k] == Render(ls[k])
  {
    if ls == [] then [] else Renders(ls[..|ls| - 1]) + [Render(ls[|ls| - 1])]
  }

  /** The detach calls of popping every layer of `ls`, top layer first. */
  function Detaches(ls: seq<Layer>): (r: seq<HookCall>)
    ensures |r| == |ls|
    ensures forall k :: 0 <= k < |ls| ==> r[k] == Detach(ls[|ls| - 1 - k])
  {
    if ls == [] then [] else Detaches(ls[1..]) + [Detach(ls[0])]
  }

  /** Popping everything detaches the layers in reverse iteration order. */
  lemma DetachesFollowReverseOrder(ls: seq<Layer>)
    ensures |Detaches(ls)| == |Reverse(ls)|
    ensures forall k :: 0 <= k < |ls| ==> Detaches(ls)[k] == Detach(Reverse(ls)[k])
  {
  }

  /** The focused flags of `ls`, bottom first. */
  function FocusFlags(ls: seq<Layer>): (r: seq<bool>)
    reads set l | l in ls
    ensures |r| == |ls|
    ensures forall k :: 0 <= k < |ls| ==> r[k] == ls[k].focused
  {
    if ls == [] then [] else FocusFlags(ls[..|ls| - 1]) + [ls[|ls| - 1].focused]
  }

  /** Whether the input hook of each layer of `ls` handles the event it receives. */
  function ReactFlags(ls: seq<Layer>, reacts: Layer -> bool): (r: seq<bool>)
    ensures |r| == |ls|
    ensures forall k :: 0 <= k < |ls| ==> r[k] == reacts(ls[k])
  {
    if ls == [] then [] else ReactFlags(ls[..|ls| - 1], reacts) + [reacts(ls[|ls| - 1])]
  }

  /**
   * The handled flag after offering the event, handled or not as `handled`
   * says, to the first `n` layers, with focus flags `focus` and reactions
   * `react`: a layer receives it when focused and the event is not yet
   * handled, and then handles it when it reacts.
   */
  function HandledAfter(focus: seq<bool>, react: seq<bool>, handled: bool, n: nat): bool
    requires n <= |focus| == |react|
  {
    if n == 0 then handled
    else
      var h := HandledAfter(focus, react, handled, n - 1);
      if focus[n - 1] && !h then react[n - 1] else h
  }

  /** Layer `j` receives the event: it is focused and the layers below it left the event unhandled. */
  predicate Receives(focus: seq<bool>, react: seq<bool>, handled: bool, j: nat)
    requires j < |focus| == |react|
  {
    focus[j] && !HandledAfter(focus, react, handled, j)
  }

  /** The input calls of the receiving layers among the first `n`, bottom first. */
  function Deliveries(hook: InputHook, ls: seq<Layer>, focus: seq<bool>, react: seq<bool>, handled: bool, n: nat): seq<HookCall>
    requires n <= |ls| == |focus| == |react|
  {
    if n == 0 then []
    else
      Deliveries(hook, ls, focus, react, handled, n - 1) +
      (if Receives(focus, react, handled, n - 1) then [Input(hook, ls[n - 1])] else [])
  }

  /** The event ends handled iff it started handled or some focused layer reacts. */
  lemma {:induction false} HandledAfterIff(focus: seq<bool>, react: seq<bool>, handled: bool, n: nat)
    requires n <= |focus| == |react|
    ensures HandledAfter(focus, react, handled, n) <==>
              handled || exists j :: 0 <= j < n && focus[j] && react[j]
  {
    if n > 0 {
      HandledAfterIff(focus, react, handled, n - 1);
    }
  }

  /**
   * Layer `j` receives the event iff it is focused, the event was not handled
   * on arrival, and no focused layer below it reacts to it.
   */
  lemma ReceivesIff(focus: seq<bool>, react: seq<bool>, handled: bool, j: nat)
    requires j < |focus| == |react|
    ensures Receives(focus, react, handled, j) <==>
              focus[j] && !handled && forall i :: 0 <= i < j ==> !(focus[i] && react[i])
  {
    HandledAfterIff(focus, react, handled, j);
  }

  /** Once a receiving layer handles the event, no layer above it receives it. */
  lemma FirstHandlerStopsDispatch(focus: seq<bool>, react: seq<bool>, handled: bool, i: nat, j: nat)
    requires i < j < |focus| == |react|
    requires Receives(focus, react, handled, i) && react[i]
    ensures !Receives(focus, react, handled, j)
  {
    ReceivesIff(focus, react, handled, i);
    ReceivesIff(focus, react, handled, j);
  }

  /** An event that arrives handled reaches no layer and stays handled. */
  lemma HandledEventReachesNoLayer(ls: seq<Layer>, focus: seq<bool>, react: seq<bool>, hook: InputHook, n: nat)
    requires n <= |ls| == |focus| == |react|
    ensures HandledAfter(focus, react, true, n)
    ensures Deliveries(hook, ls, focus, react, true, n) == []
  {
    HandledAfterIff(focus, react, true, n);
    if n > 0 {
      HandledEventReachesNoLayer(ls, focus, react, hook, n - 1);
      HandledAfterIff(focus, react, true, n - 1);
    }
  }

  /** The layer stack: owns the layers in push order, bottom first. */
  class LayerStack {
    var stack: seq<Layer>
    var calls: seq<HookCall>

    /** A new stack is empty. */
    constructor ()
      ensures stack == [] && calls == []
    {
      stack, calls := [], [];
    }

    /** `begin()`..`end()`: the layers bottom to top. */
    function Layers(): (r: seq<Layer>)
      reads this
      ensures |r| == |stack| && forall k :: 0 <= k < |r| ==> r[k] == stack[k]
    {
      stack
    }

    /** `rbegin()`..`rend()`: the layers top to bottom. */
    function ReverseLayers(): (r: seq<Layer>)
      reads this
      ensures |r| == |stack| && forall k :: 0 <= k < |r| ==> r[k] == stack[|stack| - 1 - k]
    {
      Reverse(stack)
    }

    /** `push`: attaches `l`, then places it on top; older layers stay as they were. */
    method Push(l: Layer)
      modifies this
      ensures stack == old(stack) + [l]
      ensures calls == old(calls) + [Attach(l)]
    {
      calls := calls + [Attach(l)];
      stack := stack + [l];
    }

    /** `pop`: detaches the top layer, then removes it. */
    method Pop()
      requires |stack| > 0
      modifies this
      ensures stack == old(stack)[..|old(stack)| - 1]
      ensures calls == old(calls) + [Detach(old(stack)[|old(stack)| - 1])]
    {
      calls := calls + [Detach(stack[|stack| - 1])];
      stack := stack[..|stack| - 1];
    }

    /** The destructor: pops every layer, so layers are detached top first. */
    method PopAll()
      modifies this
      ensures stack == []
      ensures calls == old(calls) + Detaches(old(stack))
    {
      var i := |stack|;
      while i > 0
        invariant 0 <= i <= |old(stack)|
        invariant stack == old(stack)[..i]
        invariant calls == old(calls) + Detaches(old(stack)[i..])
      {
        assert old(stack)[i - 1..][1..] == old(stack)[i..];
        Pop();
        i := i - 1;
      }
    }

    /** `update(ts)`: every layer's update hook, bottom to top. */
    method UpdateAll(ts: real)
      modifies this
      ensures stack == old(stack)
      ensures calls == old(calls) + Updates(stack, ts)
    {
      var i := 0;
      while i < |stack|
        invariant 0 <= i <= |stack| && stack == old(stack)
        invariant calls == old(calls) + Updates(stack[..i], ts)
      {
        assert stack[..i + 1][..i] == stack[..i];
        calls := calls + [Update(stack[i], ts)];
        i := i + 1;
      }
      assert stack[..i] == stack;
    }

    /** `render()`: every layer's render hook, bottom to top. */
    method RenderAll()
      modifies this
      ensures stack == old(stack)
      ensures calls == old(calls) + Renders(stack)
    {
      var i := 0;
      while i < |stack|
        invariant 0 <= i <= |stack| && stack == old(stack)
        invariant calls == old(calls) + Renders(stack[..i])
      {
        assert stack[..i + 1][..i] == stack[..i];
        calls := calls + [Render(stack[i])];
        i := i + 1;
      }
      assert stack[..i] == stack;
    }

    /** Offers `e` to one layer: it receives `e` iff focused and `e` is not yet handled. */
    method Offer(hook: InputHook, layer: Layer, e: Event, reacts: Layer -> bool)
      modifies this, e
      ensures stack == old(stack)
      ensures e.handled == if layer.focused && !old(e.handled) then reacts(layer) else old(e.handled)
      ensures calls == old(calls) + if layer.focused && !old(e.handled) then [Input(hook, layer)] else []
    {
      if layer.IsFocused() && !e.IsHandled() {
        calls := calls + [Input(hook, layer)];
        if reacts(layer) {
          e.Handle(true);
        }
      }
    }

    /**
     * The body shared by `onKeyPressed`, `onKeyReleased`, `onMousePressed`,
     * `onMouseReleased` and `onMouseMoved`: offers `e` to each layer bottom to
     * top when the layer is focused and `e` is not yet handled; `reacts(l)`
     * says whether `l`'s hook then handles it.
     */
    method Dispatch(hook: InputHook, e: Event, reacts: Layer -> bool)
      modifies this, e
      ensures stack == old(stack)
      ensures e.handled == HandledAfter(old(FocusFlags(stack)), ReactFlags(stack, reacts), old(e.handled), |stack|)
      ensures calls == old(calls) +
                Deliveries(hook, stack, old(FocusFlags(stack)), ReactFlags(stack, reacts), old(e.handled), |stack|)
    {
      ghost var focus := FocusFlags(stack);
      ghost var react := ReactFlags(stack, reacts);
      ghost var handled0 := e.handled;
      ghost var calls0 := calls;
      var i := 0;
      while i < |stack|
        invariant 0 <= i <= |stack| && stack == old(stack)
        invariant e.handled == HandledAfter(focus, react, handled0, i)
        invariant calls == calls0 + Deliveries(hook, stack, focus, react, handled0, i)
      {
        Offer(hook, stack[i], e, reacts);
        i := i + 1;
      }
    }

    /** `onKeyPressed`. */
    method KeyPressed(e: Event, reacts: Layer -> bool)
      requires e.kind.KeyPressEvent?
      modifies this, e
      ensures stack == old(stack)
      ensures e.handled == HandledAfter(old(FocusFlags(stack)), ReactFlags(stack, reacts), old(e.handled), |stack|)
      ensures calls == old(calls) +
                Deliveries(OnKeyPressed, stack, old(FocusFlags(stack)), ReactFlags(stack, reacts), old(e.handled), |stack|)
    {
      Dispatch(OnKeyPressed, e, reacts);
    }

    /** `onKeyReleased`. */
    method KeyReleased(e: Event, reacts: Layer -> bool)
      requires e.kind.KeyReleaseEvent?
      modifies this, e
      ensures stack == old(stack)
      ensures e.handled == HandledAfter(old(FocusFlags(stack)), ReactFlags(stack, reacts), old(e.handled), |stack|)
      ensures calls == old(calls) +
                Deliveries(OnKeyReleased, stack, old(FocusFlags(stack)), ReactFlags(stack, reacts), old(e.handled), |stack|)
    {
      Dispatch(OnKeyReleased, e, reacts);
    }

    /** Whether `l` is selected: every layer, or those whose name pointer is `name`. */
    static predicate Selected(l: Layer, name: Option<Name>) {
      name.Nothing? || l.name == name.value
    }

    /**
     * Sets flag `f` to `b` on every selected layer of the stack; every other
     * flag, and every flag of the other layers, stays as it was.
     */
    method SetWhere(f: Flag, name: Option<Name>, b: bool)
      modifies set l | l in stack
      ensures forall l :: l in stack ==> FlagOf(l, f) == if Selected(l, name) then b else old(FlagOf(l, f))
      ensures forall l, g :: l in stack && g != f ==> FlagOf(l, g) == old(FlagOf(l, g))
    {
      var i := 0;
      while i < |stack|
        invariant 0 <= i <= |stack|
        invariant forall l :: l in stack ==>
                    FlagOf(l, f) == if l in stack[..i] && Selected(l, name) then b else old(FlagOf(l, f))
        invariant forall l, g :: l in stack && g != f ==> FlagOf(l, g) == old(FlagOf(l, g))
      {
        var layer := stack[i];
        assert stack[..i + 1] == stack[..i] + [layer];
        if Selected(layer, name) {
          SetFlag(layer, f, b);
        }
        i := i + 1;
      }
      assert stack[..i] == stack;
    }

    /** `setActive(name, s)`: the layers whose name pointer is `name`, and only those. */
    method SetActive(name: Name, s: bool)
      modifies set l | l in stack
      ensures forall l :: l in stack ==> l.IsActive() == if l.GetName() == name then s else old(l.IsActive())
      ensures forall l :: l in stack ==> l.IsDisplayed() == old(l.IsDisplayed()) && l.IsFocused() == old(l.IsFocused())
    {
      SetWhere(Active, Some(name), s);
      assert forall l :: l in stack ==> FlagOf(l, Displayed) == l.displayed && FlagOf(l, Focused) == l.focused;
    }

    /** `setDisplayed(name, s)`: the layers whose name pointer is `name`, and only those. */
    method SetDisplayed(name: Name, s: bool)
      modifies set l | l in stack
      ensures forall l :: l in stack ==> l.IsDisplayed() == if l.GetName() == name then s else old(l.IsDisplayed())
      ensures forall l :: l in stack ==> l.IsActive() == old(l.IsActive()) && l.IsFocused() == old(l.IsFocused())
    {
      SetWhere(Displayed, Some(name), s);
      assert forall l :: l in stack ==> FlagOf(l, Active) == l.active && FlagOf(l, Focused) == l.focused;
    }

    /** `setFocused(name, s)`: the layers whose name pointer is `name`, and only those. */
    method SetFocused(name: Name, s: bool)
      modifies set l | l in stack
      ensures forall l :: l in stack ==> l.IsFocused() == if l.GetName() == name then s else old(l.IsFocused())
      ensures forall l :: l in stack ==> l.IsDisplayed() == old(l.IsDisplayed()) && l.IsActive() == old(l.IsActive())
    {
      SetWhere(Focused, Some(name), s);
      assert forall l :: l in stack ==> FlagOf(l, Displayed) == l.displayed && FlagOf(l, Active) == l.active;
    }

    /** `setAllActive(s)`. */
    method SetAllActive(s: bool)
      modifies set l | l in stack
      ensures forall l :: l in stack ==> l.IsActive() == s
      ensures forall l :: l in stack ==> l.IsDisplayed() == old(l.IsDisplayed()) && l.IsFocused() == old(l.IsFocused())
    {
      SetWhere(Active, Nothing, s);
      assert forall l :: l in stack ==> FlagOf(l, Displayed) == l.displayed && FlagOf(l, Focused) == l.focused;
    }

    /** `setAllDisplayed(s)`. */
    method SetAllDisplayed(s: bool)
      modifies set l | l in stack
      ensures forall l :: l in stack ==> l.IsDisplayed() == s
      ensures forall l :: l in stack ==> l.IsActive() == old(l.IsActive()) && l.IsFocused() == old(l.IsFocused())
    {
      SetWhere(Displayed, Nothing, s);
      assert forall l :: l in stack ==> FlagOf(l, Active) == l.active && FlagOf(l, Focused) == l.focused;
    }

    /** `setAllFocused(s)`. */
    method SetAllFocused(s: bool)
      modifies set l | l in stack
      ensures forall l :: l in stack ==> l.IsFocused() == s
      ensures forall l :: l in stack ==> l.IsDisplayed() == old(l.IsDisplayed()) && l.IsActive() == old(l.IsActive())
    {
      SetWhere(Focused, Nothing, s);
      assert forall l :: l in stack ==> FlagOf(l, Displayed) == l.displayed && FlagOf(l, Active) == l.active;
    }
  }
}
