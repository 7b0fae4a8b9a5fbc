/**
 * The vertex data types of the engine and the two lookups the buffer layout
 * and the vertex array use: packed byte size and component count.
 */
module ShaderDataTypes {
  import opened Ints

  /**
   * The enumerators of `ShaderDataType`. `Unlisted` stands for an enumerator
   * the type declares nowhere in this model (the renderers name `Int`, `Mat4`
   * and `FlatInt`), which both lookups send to their `default` branch.
   */
  datatype ShaderDataType =
    | None | Byte4
    | Short | Short2 | Short3 | Short4
    | Float | Float2 | Float3 | Float4
    | Unlisted(name: string)

  /** The scalar a vector type is made of. */
  datatype Scalar = Byte | ShortScalar | FloatScalar

  /** Bytes per scalar: unsigned char, short, float. */
  function ScalarBytes(s: Scalar): nat
  {
    match s
    case Byte => 1
    case ShortScalar => 2
    case FloatScalar => 4
  }

  /**
   * An independent description of each listed vector type: its scalar and
   * its number of components, read off the enumerator's name.
   */
  datatype Shape = NoShape | Vector(scalar: Scalar, n: nat)

  function ShapeOf(t: ShaderDataType): Shape
  {
    match t
    case Byte4 => Vector(Byte, 4)
    case Short => Vector(ShortScalar, 1)
    case Short2 => Vector(ShortScalar, 2)
    case Short3 => Vector(ShortScalar, 3)
    case Short4 => Vector(ShortScalar, 4)
    case Float => Vector(FloatScalar, 1)
    case Float2 => Vector(FloatScalar, 2)
    case Float3 => Vector(FloatScalar, 3)
    case Float4 => Vector(FloatScalar, 4)
    case _ => NoShape
  }

  /** `SDT::size`: the tightly packed size in bytes. */
  function Size(t: ShaderDataType): (r: u32)
    ensures r == if ShapeOf(t).Vector? then ScalarBytes(ShapeOf(t).scalar) * ShapeOf(t).n else 0
    ensures r > 0 <==> t != None && !t.Unlisted?
    ensures r <= 16
  {
    match t
    case Byte4 => 1 * 4
    case Short => 2
    case Short2 => 2 * 2
    case Short3 => 2 * 3
    case Short4 => 2 * 4
    case Float => 4
    case Float2 => 4 * 2
    case Float3 => 4 * 3
    case Float4 => 4 * 4
    case _ => 0
  }

  /** `SDT::componentCount`: the number of scalars. */
  function ComponentCount(t: ShaderDataType): (r: u32)
    ensures r == if ShapeOf(t).Vector? then ShapeOf(t).n else 0
    ensures 1 <= r <= 4 || (r == 0 && ShapeOf(t).NoShape?)
  {
    match t
    case Byte4 => 4
    case Short => 1
    case Short2 => 2
    case Short3 => 3
    case Short4 => 4
    case Float => 1
    case Float2 => 2
    case Float3 => 3
    case Float4 => 4
    case _ => 0
  }
}
