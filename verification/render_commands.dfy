/**
 * Render commands: a `RenderCommand` holds one deferred action, built by
 * `RenderCommandFactory::createCommand` from a command kind and its arguments,
 * and run later by `RendererCommon::actionCommand`.
 */
module RenderCommands {
  import opened Ints
  import opened Gpu
  import opened GpuContext
  import opened RenderApi

  datatype Commands =
    | ClearDepthBuffer | ClearColourBuffer | ClearColourAndDepthBuffer
    | EnableDepthTest | EnableBlend | SetBlendFuncDefault
    | DisableDepthTest | DisableBlend
    | SetClearColour | UseProgram

  /** A `std::function<void(void)>`: empty, or a closure whose call issues `calls`. */
  datatype Action = Empty | Closure(calls: seq<Call>)

  /** One argument passed to `createCommand`. */
  datatype Arg = FloatArg(f: real) | UIntArg(u: u32)

  /** The argument converted to `float` (an unsigned value is taken exactly). */
  function AsFloat(a: Arg): real
  {
    match a
    case FloatArg(f) => f
    case UIntArg(u) => u as real
  }

  /** The argument converted to `uint32_t`: a float is truncated toward zero, then reduced modulo 2^32. */
  function AsU32(a: Arg): (r: u32)
    ensures a.UIntArg? ==> r == a.u
    ensures a.FloatArg? && 0.0 <= a.f < TWO_TO_THE_32 as real ==> r as real <= a.f < r as real + 1.0
  {
    match a
    case FloatArg(f) => Wrap32(if f >= 0.0 then f.Floor else -((-f).Floor))
    case UIntArg(u) => u
  }

  /**
   * `getValue<G, I>(result, tuple)`: stores element `i` of the tuple in `result`,
   * or leaves `result` as it was when the tuple has no element `i`.
   */
  function GetValue<G>(result: G, tup: seq<G>, i: nat): (r: G)
    ensures i < |tup| ==> r == tup[i]
    ensures i >= |tup| ==> r == result
  {
    if i < |tup| then tup[i] else result
  }

  function Floats(args: seq<Arg>): (fs: seq<real>)
    ensures |fs| == |args|
  {
    seq(|args|, k requires 0 <= k < |args| => AsFloat(args[k]))
  }

  function U32s(args: seq<Arg>): (us: seq<u32>)
    ensures |us| == |args|
  {
    seq(|args|, k requires 0 <= k < |args| => AsU32(args[k]))
  }

  /**
   * The indeterminate values the uninitialised locals `r, g, b, a` and
   * `shaderID` of `createCommand` hold when too few arguments are passed.
   */
  datatype Uninit = Uninit(r: real, g: real, b: real, a: real, shaderID: u32)

  /** `getClearColourAndDepthBufferCommand`: a closure clearing both buffers under OpenGL, an empty function otherwise. */
  function ClearColourAndDepthBufferAction(api: API): (a: Action)
    ensures a.Closure? <==> api == OpenGL
    ensures a.Closure? ==> a.calls == [Clear(true, true)]
  {
    match api
    case OpenGL => Closure([Clear(true, true)])
    case Direct3D => Empty
    case Vulkan => Empty
    case None => Empty
  }

  /** The action `createCommand` stores for `kind`, `args`, the API in use and the uninitialised locals. */
  function CommandAction(kind: Commands, args: seq<Arg>, api: API, garbage: Uninit): (a: Action)
    ensures a.Empty? <==> kind == ClearColourAndDepthBuffer && api != OpenGL
    ensures a.Closure? ==> |a.calls| == 1
  {
    match kind
    case ClearDepthBuffer => Closure([ClearDepthBufferAction])
    case ClearColourBuffer => Closure([ClearColourBufferAction])
    case ClearColourAndDepthBuffer => ClearColourAndDepthBufferAction(api)
    case EnableDepthTest => Closure([EnableDepthTestAction])
    case EnableBlend => Closure([EnableBlendAction])
    case SetBlendFuncDefault => Closure([SetBlendFuncDefaultAction])
    case DisableBlend => Closure([DisableBlendAction])
    case DisableDepthTest => Closure([DisableDepthTestAction])
    case SetClearColour =>
      var fs := Floats(args);
      Closure([SetClearColourAction(GetValue(garbage.r, fs, 0), GetValue(garbage.g, fs, 1),
                                    GetValue(garbage.b, fs, 2), GetValue(garbage.a, fs, 3))])
    case UseProgram => Closure([UseProgramAction(GetValue(garbage.shaderID, U32s(args), 0))])
  }

  /** The number of arguments `kind` reads; the rest are ignored. */
  function Arity(kind: Commands): nat
  {
    match kind
    case SetClearColour => 4
    case UseProgram => 1
    case _ => 0
  }

  /** A `setClearColour` command captures its first four arguments, as floats, as the colour. */
  lemma SetClearColourCapturesArgs(args: seq<Arg>, api: API, garbage: Uninit)
    requires |args| >= 4
    ensures CommandAction(SetClearColour, args, api, garbage) ==
            Closure([SetClearColourAction(AsFloat(args[0]), AsFloat(args[1]), AsFloat(args[2]), AsFloat(args[3]))])
  { }

  /** A `useProgram` command captures its first argument, as a `uint32_t`, as the shader id. */
  lemma UseProgramCapturesArg(args: seq<Arg>, api: API, garbage: Uninit)
    requires |args| >= 1
    ensures CommandAction(UseProgram, args, api, garbage) == Closure([UseProgramAction(AsU32(args[0]))])
  { }

  /**
   * Once a command has the arguments it reads, further arguments change nothing,
   * and neither do the uninitialised locals.
   */
  lemma {:induction false} ExtraArgsIgnored(kind: Commands, args: seq<Arg>, more: seq<Arg>, api: API, g1: Uninit, g2: Uninit)
    requires |args| >= Arity(kind)
    ensures CommandAction(kind, args + more, api, g1) == CommandAction(kind, args, api, g2)
  {
    var all := args + more;
    if kind == SetClearColour {
      assert Floats(all)[..4] == Floats(args)[..4];
    } else if kind == UseProgram {
      assert U32s(all)[0] == AsU32(all[0]) == AsU32(args[0]) == U32s(args)[0];
    }
  }

  /**
   * Each kind runs the one call its getter names, whatever the arguments:
   * `clearDepthBuffer` clears the depth buffer, `disableBlend` disables
   * blending (not the depth test), and so on; `clearColourAndDepthBuffer`
   * clears both buffers under OpenGL.
   */
  lemma EachKindRunsItsNamedCall(args: seq<Arg>, api: API, garbage: Uninit)
    ensures CommandAction(ClearDepthBuffer, args, api, garbage) == Closure([ClearDepthBufferAction])
    ensures CommandAction(ClearColourBuffer, args, api, garbage) == Closure([ClearColourBufferAction])
    ensures api == OpenGL ==> CommandAction(ClearColourAndDepthBuffer, args, api, garbage) == Closure([Clear(true, true)])
    ensures CommandAction(EnableDepthTest, args, api, garbage) == Closure([EnableDepthTestAction])
    ensures CommandAction(EnableBlend, args, api, garbage) == Closure([EnableBlendAction])
    ensures CommandAction(SetBlendFuncDefault, args, api, garbage) == Closure([SetBlendFuncDefaultAction])
    ensures CommandAction(DisableDepthTest, args, api, garbage) == Closure([DisableDepthTestAction])
    ensures CommandAction(DisableBlend, args, api, garbage) == Closure([DisableBlendAction])
    ensures CommandAction(SetClearColour, args, api, garbage).Closure? &&
            CommandAction(SetClearColour, args, api, garbage).calls[0].SetClearColourAction?
    ensures CommandAction(UseProgram, args, api, garbage).Closure? &&
            CommandAction(UseProgram, args, api, garbage).calls[0].UseProgramAction?
  { }

  /**
   * Different kinds of command never share an action under OpenGL; which
   * action each kind has is fixed by `EachKindRunsItsNamedCall`.
   */
  lemma DistinctKindsDistinctActions(k1: Commands, k2: Commands, args1: seq<Arg>, args2: seq<Arg>, g1: Uninit, g2: Uninit)
    requires k1 != k2
    ensures CommandAction(k1, args1, OpenGL, g1) != CommandAction(k2, args2, OpenGL, g2)
  { }

  /** A render command: the action it will perform. */
  class RenderCommand {
    var action: Action

    constructor ()
      ensures action == Empty
    {
      action := Empty;
    }
  }

  /** `createCommand`: a new command holding the action for `kind` and `args`. */
  method CreateCommand(kind: Commands, args: seq<Arg>, api: API, garbage: Uninit) returns (result: RenderCommand)
    ensures fresh(result)
    ensures result.action == CommandAction(kind, args, api, garbage)
  {
    result := new RenderCommand();
    match kind {
      case ClearDepthBuffer => result.action := Closure([ClearDepthBufferAction]);
      case ClearColourBuffer => result.action := Closure([ClearColourBufferAction]);
      case ClearColourAndDepthBuffer => result.action := ClearColourAndDepthBufferAction(api);
      case EnableDepthTest => result.action := Closure([EnableDepthTestAction]);
      case EnableBlend => result.action := Closure([EnableBlendAction]);
      case SetBlendFuncDefault => result.action := Closure([SetBlendFuncDefaultAction]);
      case DisableBlend => result.action := Closure([DisableBlendAction]);
      case DisableDepthTest => result.action := Closure([DisableDepthTestAction]);
      case SetClearColour =>
        var r, g, b, a := garbage.r, garbage.g, garbage.b, garbage.a;
        var argTuple := Floats(args);
        r := GetValue(r, argTuple, 0);
        g := GetValue(g, argTuple, 1);
        b := GetValue(b, argTuple, 2);
        a := GetValue(a, argTuple, 3);
        result.action := Closure([SetClearColourAction(r, g, b, a)]);
      case UseProgram =>
        var shaderID := garbage.shaderID;
        shaderID := GetValue(shaderID, U32s(args), 0);
        result.action := Closure([UseProgramAction(shaderID)]);
    }
  }

  /**
   * `actionCommand`: runs the command's action. Calling an empty `std::function`
   * throws `bad_function_call`; then `ok` is false and nothing is issued.
   */
  method ActionCommand(command: RenderCommand, gl: Context) returns (ok: bool)
    modifies gl
    ensures ok <==> command.action.Closure?
    ensures ok ==> gl.calls == old(gl.calls) + command.action.calls
    ensures !ok ==> gl.calls == old(gl.calls)
  {
    match command.action {
      case Empty => ok := false;
      case Closure(calls) =>
        gl.calls := gl.calls + calls;
        ok := true;
    }
  }

  /**
   * Each command carries its own captured arguments: two `setClearColour`
   * commands created one after the other, then run in order, set their own colours.
   */
  method TwoClearColourCommands(c1: seq<real>, c2: seq<real>, garbage: Uninit, gl: Context)
    requires |c1| == 4 && |c2| == 4
    modifies gl
    ensures gl.calls == old(gl.calls) + [SetClearColourAction(c1[0], c1[1], c1[2], c1[3]),
                                         SetClearColourAction(c2[0], c2[1], c2[2], c2[3])]
  {
    var args1 := [FloatArg(c1[0]), FloatArg(c1[1]), FloatArg(c1[2]), FloatArg(c1[3])];
    var args2 := [FloatArg(c2[0]), FloatArg(c2[1]), FloatArg(c2[2]), FloatArg(c2[3])];
    var first := CreateCommand(SetClearColour, args1, CURRENT_API, garbage);
    var second := CreateCommand(SetClearColour, args2, CURRENT_API, garbage);
    SetClearColourCapturesArgs(args1, CURRENT_API, garbage);
    SetClearColourCapturesArgs(args2, CURRENT_API, garbage);
    var ok1 := ActionCommand(first, gl);
    var ok2 := ActionCommand(second, gl);
  }
}
