/**
 * `Renderer2D`: draws one textured, tinted quad at a time, and text one glyph
 * at a time through a single RGBA glyph buffer that mirrors the font texture.
 */
module Render2D {
  import opened Ints
  import opened Gpu
  import opened GpuContext
  import opened Wrappers
  import opened BufferLayouts
  import opened VertexArrays
  import opened RenderApi

  const GLYPH_BUFFER_WIDTH: u32 := 256
  const GLYPH_BUFFER_HEIGHT: u32 := 256
  const GLYPH_BUFFER_CHANNELS: u32 := 4
  const GLYPH_BUFFER_SIZE: u32 := 256 * 256 * 4
  /** The byte every glyph-buffer byte holds after `init`. */
  const GLYPH_BUFFER_FILL: u8 := 60
  /** The pixel height asked of the font. */
  const CHAR_SIZE: int := 86
  const FONT_PATH: string := "./assets/fonts/arial.ttf"

  /** The unit quad's corners, in vertex order. */
  const QUAD_CORNERS: seq<Vec4> := [Vec4(-0.5, -0.5, 1.0, 1.0), Vec4(-0.5, 0.5, 1.0, 1.0),
                                    Vec4(0.5, 0.5, 1.0, 1.0), Vec4(0.5, -0.5, 1.0, 1.0)]
  /** The quad's index buffer contents. */
  const QUAD_INDICES: seq<u32> := [0, 1, 2, 3]

  /** A tint with each channel already scaled to a byte. */
  datatype Colour = Colour(r: bv8, g: bv8, b: bv8, a: bv8)

  /** The tint (1, 1, 1, 1). */
  const WHITE: Colour := Colour(255, 255, 255, 255)

  /** A rectangle of a base texture, from `uvStart` to `uvEnd`. */
  datatype SubTexture = SubTexture(textureID: u32, uvStart: Vec2, uvEnd: Vec2)

  /** A quad: where the unit quad is moved to and how it is stretched. */
  datatype Quad = Quad(translate: Vec3, scale: Vec3)

  /** A default-constructed `Quad`: no translation, unit scale. */
  const DEFAULT_QUAD: Quad := Quad(Vec3(0.0, 0.0, 0.0), Vec3(1.0, 1.0, 1.0))

  /** The model matrix: the identity, translate·scale, or translate·rotate(z)·scale. */
  datatype ModelMatrix =
    | Identity
    | TranslateScale(t: Vec3, s: Vec3)
    | TranslateRotateScale(t: Vec3, angle: real, s: Vec3)

  /** `model * corner`. */
  function Apply(m: ModelMatrix, c: Vec4): Position
  {
    match m
    case Identity => Scaled(c)
    case TranslateScale(t, s) => Scaled(Vec4(s.x * c.x + t.x * c.w, s.y * c.y + t.y * c.w, s.z * c.z + t.z * c.w, c.w))
    case TranslateRotateScale(t, angle, s) => Rotated(t, angle, s, c)
  }

  /** `Quad::createCentreHalfExtents`. */
  function CreateCentreHalfExtents(centre: Vec2, halfExtents: Vec2): (q: Quad)
    ensures q.translate == Vec3(centre.x, centre.y, 0.0)
    ensures q.scale.x == 2.0 * halfExtents.x && q.scale.y == 2.0 * halfExtents.y && q.scale.z == 1.0
  {
    Quad(Vec3(centre.x, centre.y, 0.0), Vec3(halfExtents.x * 2.0, halfExtents.y * 2.0, 1.0))
  }

  /**
   * The quad made from a centre and half extents spans exactly centre ± halfExtents:
   * its corners, in vertex order, are bottom-left, top-left, top-right, bottom-right.
   */
  lemma CentreHalfExtentsCorners(centre: Vec2, h: Vec2)
    ensures var q := CreateCentreHalfExtents(centre, h);
            var m := TranslateScale(q.translate, q.scale);
            Apply(m, QUAD_CORNERS[0]) == Scaled(Vec4(centre.x - h.x, centre.y - h.y, 1.0, 1.0)) &&
            Apply(m, QUAD_CORNERS[1]) == Scaled(Vec4(centre.x - h.x, centre.y + h.y, 1.0, 1.0)) &&
            Apply(m, QUAD_CORNERS[2]) == Scaled(Vec4(centre.x + h.x, centre.y + h.y, 1.0, 1.0)) &&
            Apply(m, QUAD_CORNERS[3]) == Scaled(Vec4(centre.x + h.x, centre.y - h.y, 1.0, 1.0))
  { }

  /** `Renderer2DVertex::pack`: r in bits 0-7, g in 8-15, b in 16-23, a in 24-31. */
  function Pack(tint: Colour): (w: bv32)
    ensures w & 0xFF == tint.r as bv32
    ensures (w >> 8) & 0xFF == tint.g as bv32
    ensures (w >> 16) & 0xFF == tint.b as bv32
    ensures w >> 24 == tint.a as bv32
  {
    (tint.r as bv32) | ((tint.g as bv32) << 8) | ((tint.b as bv32) << 16) | ((tint.a as bv32) << 24)
  }

  /** Since every channel can be read back from its byte lane, two tints pack alike only when they are equal. */
  lemma PackInjective(t1: Colour, t2: Colour)
    ensures Pack(t1) == Pack(t2) <==> t1 == t2
  {
    if Pack(t1) == Pack(t2) {
      assert t1.r as bv32 == t2.r as bv32 && t1.g as bv32 == t2.g as bv32;
      assert t1.b as bv32 == t2.b as bv32 && t1.a as bv32 == t2.a as bv32;
    }
  }

  /** The texture coordinates of the four vertices: start, (start.x, end.y), end, (end.x, start.y). */
  function QuadUVs(texture: SubTexture): (uvs: seq<Vec2>)
    ensures |uvs| == 4
  {
    [texture.uvStart, Vec2(texture.uvStart.x, texture.uvEnd.y), texture.uvEnd, Vec2(texture.uvEnd.x, texture.uvStart.y)]
  }

  /** The four vertices a submit leaves: transformed corners, the sub-texture's UVs, one packed tint. */
  function QuadVertices(m: ModelMatrix, tint: Colour, texture: SubTexture): (vs: seq<Vertex2D>)
    ensures |vs| == 4
  {
    seq(4, i requires 0 <= i < 4 => Vertex2D(Apply(m, QUAD_CORNERS[i]), QuadUVs(texture)[i], Pack(tint)))
  }

  /**
   * The texture is laid on the quad the right way round: every vertex has the
   * packed tint, and the corner on the left (bottom) takes the start x (y) of
   * the sub-texture while the corner on the right (top) takes the end x (y).
   */
  lemma QuadVerticesFollowCorners(m: ModelMatrix, tint: Colour, texture: SubTexture, i: nat)
    requires i < 4
    ensures QuadVertices(m, tint, texture)[i].tint == Pack(tint)
    ensures QuadVertices(m, tint, texture)[i].uv.x == if QUAD_CORNERS[i].x < 0.0 then texture.uvStart.x else texture.uvEnd.x
    ensures QuadVertices(m, tint, texture)[i].uv.y == if QUAD_CORNERS[i].y < 0.0 then texture.uvStart.y else texture.uvEnd.y
  { }

  /** The byte `RtoRGBA` leaves at index `k` of the glyph buffer: white pixels carrying the bitmap as alpha, zero elsewhere. */
  function GlyphByte(bitmap: seq<u8>, width: int, height: int, k: int): u8
    requires 0 <= width <= 256 && 0 <= height <= 256 && |bitmap| >= width * height && 0 <= k
  {
    var row := k / 4 / 256;
    var col := k / 4 % 256;
    if row < height && col < width then
      (if k % 4 < 3 then 255 else BitmapIndex(width, height, row, col); bitmap[row * width + col])
    else 0
  }

  lemma BitmapIndex(width: int, height: int, i: int, j: int)
    requires 0 <= i < height && 0 <= j < width
    ensures 0 <= i * width + j < width * height
  {
    assert i * width + j < (i + 1) * width;
    assert (i + 1) * width <= height * width;
  }

  lemma PixelAt(i: int, j: int, c: int)
    requires 0 <= i && 0 <= j < 256 && 0 <= c < 4
    ensures (4 * (i * 256 + j) + c) / 4 / 256 == i
    ensures (4 * (i * 256 + j) + c) / 4 % 256 == j
    ensures (4 * (i * 256 + j) + c) % 4 == c
  { }

  /** Bitmap pixel (i, j) becomes the RGBA bytes (255, 255, 255, bitmap[i·width + j]) at byte 4·(i·256 + j). */
  lemma GlyphPixel(bitmap: seq<u8>, width: int, height: int, i: int, j: int)
    requires 0 <= width <= 256 && 0 <= height <= 256 && |bitmap| >= width * height
    requires 0 <= i < height && 0 <= j < width
    ensures 0 <= i * width + j < |bitmap|
    ensures GlyphByte(bitmap, width, height, 4 * (i * 256 + j)) == 255
    ensures GlyphByte(bitmap, width, height, 4 * (i * 256 + j) + 1) == 255
    ensures GlyphByte(bitmap, width, height, 4 * (i * 256 + j) + 2) == 255
    ensures GlyphByte(bitmap, width, height, 4 * (i * 256 + j) + 3) == bitmap[i * width + j]
  {
    BitmapIndex(width, height, i, j);
    PixelAt(i, j, 0);
    PixelAt(i, j, 1);
    PixelAt(i, j, 2);
    PixelAt(i, j, 3);
  }

  /** Every byte outside the width×height region is 0. */
  lemma GlyphOutsideBlank(bitmap: seq<u8>, width: int, height: int, k: int)
    requires 0 <= width <= 256 && 0 <= height <= 256 && |bitmap| >= width * height && 0 <= k
    requires k / 4 / 256 >= height || k / 4 % 256 >= width
    ensures GlyphByte(bitmap, width, height, k) == 0
  { }

  lemma RowTailBlank(bitmap: seq<u8>, width: int, height: int, i: int, k: int)
    requires 0 <= width <= 256 && 0 <= height <= 256 && |bitmap| >= width * height
    requires 0 <= i && 4 * (i * 256 + width) <= k < 4 * (i + 1) * 256
    ensures GlyphByte(bitmap, width, height, k) == 0
  {
    PixelAt(i, (k - 4 * i * 256) / 4, k % 4);
  }

  /** The first `p` bytes hold their final value and the rest are still 0. */
  ghost predicate WrittenUpTo(a: array<u8>, bitmap: seq<u8>, width: int, height: int, p: int)
    requires 0 <= width <= 256 && 0 <= height <= 256 && |bitmap| >= width * height
    reads a
  {
    forall k :: 0 <= k < a.Length ==> a[k] == (if k < p then GlyphByte(bitmap, width, height, k) else 0)
  }

  /** A glyph as the font library renders it: bitmap size, bearing, advance (in 1/64 pixel) and pixels. */
  datatype Glyph = Glyph(width: u32, rows: u32, left: int, top: int, advanceX: int, bitmap: seq<u8>)

  /** Every glyph fits the glyph buffer and carries a full bitmap. */
  ghost predicate GlyphsFit(font: map<char, Glyph>)
  {
    forall c :: c in font ==> font[c].width <= 256 && font[c].rows <= 256 &&
                              |font[c].bitmap| >= font[c].width * font[c].rows
  }

  /** The pen advance of a loaded glyph: `advance.x >> 6`, an arithmetic shift, so a floor division by 64. */
  function GlyphAdvance(g: Glyph): (r: real)
    ensures r == r.Floor as real
    ensures 64.0 * r <= g.advanceX as real < 64.0 * r + 64.0
  {
    (g.advanceX / 64) as real
  }

  /** `strlen`: the length of the text before its first NUL. */
  function Strlen(text: seq<char>): (n: nat)
    ensures n <= |text|
    ensures forall k :: 0 <= k < n ==> text[k] != '\0'
    ensures n < |text| ==> text[n] == '\0'
  {
    if text == [] || text[0] == '\0' then 0 else 1 + Strlen(text[1..])
  }

  /**
   * The pen x and the `advance` variable after the characters `s` of a text
   * starting at `x0`: each character moves the pen by the advance of its glyph
   * or, when its glyph fails to load, by the advance left over from before.
   */
  function PenState(s: seq<char>, font: map<char, Glyph>, x0: real): (xa: (real, real))
  {
    if s == [] then (x0, 0.0)
    else
      var prev := PenState(s[..|s| - 1], font, x0);
      var c := s[|s| - 1];
      var adv := if c in font then GlyphAdvance(font[c]) else prev.1;
      (prev.0 + adv, adv)
  }

  /** The pen position each character of `s` is submitted at. */
  function PenPositions(s: seq<char>, font: map<char, Glyph>, origin: Vec2): (ps: seq<Vec2>)
    ensures |ps| == |s|
  {
    if s == [] then []
    else PenPositions(s[..|s| - 1], font, origin) + [Vec2(PenState(s[..|s| - 1], font, origin.x).0, origin.y)]
  }

  /** The glyph buffer once `RtoRGBA` has expanded the bitmap of `g` into it. */
  function GlyphImage(g: Glyph): (image: seq<u8>)
    requires g.width <= 256 && g.rows <= 256 && |g.bitmap| >= g.width * g.rows
    ensures |image| == GLYPH_BUFFER_SIZE
    ensures forall k :: 0 <= k < |image| ==> image[k] == GlyphByte(g.bitmap, g.width, g.rows, k)
  {
    seq(GLYPH_BUFFER_SIZE, k requires 0 <= k < GLYPH_BUFFER_SIZE => GlyphByte(g.bitmap, g.width, g.rows, k))
  }

  /** The quad a glyph is drawn on: the glyph buffer's size, its top-left corner at the pen moved by the glyph's bearing. */
  function GlyphQuad(g: Glyph, pen: Vec2): (q: Quad)
    ensures Apply(TranslateScale(q.translate, q.scale), QUAD_CORNERS[0]) ==
            Scaled(Vec4(pen.x + g.left as real, pen.y - g.top as real, 1.0, 1.0))
    ensures Apply(TranslateScale(q.translate, q.scale), QUAD_CORNERS[2]) ==
            Scaled(Vec4(pen.x + g.left as real + 256.0, pen.y - g.top as real + 256.0, 1.0, 1.0))
  {
    var centre := Vec2(pen.x + g.left as real + 128.0, pen.y - g.top as real + 128.0);
    CentreHalfExtentsCorners(centre, Vec2(128.0, 128.0));
    CreateCentreHalfExtents(centre, Vec2(128.0, 128.0))
  }

  /**
   * The calls the character `submit` makes for `c` at `pen`: the logged error
   * when its glyph does not load; otherwise the glyph image sent to the font
   * texture, the texture bound, the glyph's quad uploaded and drawn.
   */
  function CharCalls(c: char, pen: Vec2, tint: Colour, font: map<char, Glyph>, fontTexture: u32, vertexBuffer: u32): (calls: seq<Call>)
    requires GlyphsFit(font)
  {
    if c !in font then [LogError("Error: Could no load  glyph or char " + [c])]
    else
      var g := font[c];
      var q := GlyphQuad(g, pen);
      [EditTexture(fontTexture, GLYPH_BUFFER_WIDTH, GLYPH_BUFFER_HEIGHT, GlyphImage(g)), GlBindTexture2D(fontTexture),
       EditVertexBuffer(vertexBuffer, QuadVertices(TranslateScale(q.translate, q.scale), tint, SubTexture(fontTexture, Vec2(0.0, 0.0), Vec2(1.0, 1.0)))),
       GlDrawQuads(4)]
  }

  /** The calls the text `submit` makes for the characters `s`: each character's calls at its pen position, in order. */
  function TextCalls(s: seq<char>, font: map<char, Glyph>, origin: Vec2, tint: Colour, fontTexture: u32, vertexBuffer: u32): (calls: seq<Call>)
    requires GlyphsFit(font)
  {
    if s == [] then []
    else
      var n := |s| - 1;
      TextCalls(s[..n], font, origin, tint, fontTexture, vertexBuffer) +
      CharCalls(s[n], Vec2(PenState(s[..n], font, origin.x).0, origin.y), tint, font, fontTexture, vertexBuffer)
  }

  /** How many of the characters `s` have a glyph. */
  function LoadedCount(s: seq<char>, font: map<char, Glyph>): (n: nat)
    ensures n <= |s|
  {
    if s == [] then 0 else LoadedCount(s[..|s| - 1], font) + (if s[|s| - 1] in font then 1 else 0)
  }

  /** The draws in `calls`. */
  function QuadDraws(calls: seq<Call>): (draws: seq<Call>)
    ensures forall c :: c in draws ==> c in calls && c.GlDrawQuads?
  {
    if calls == [] then []
    else QuadDraws(calls[..|calls| - 1]) + (if calls[|calls| - 1].GlDrawQuads? then [calls[|calls| - 1]] else [])
  }

  lemma {:induction false} QuadDrawsAppend(a: seq<Call>, b: seq<Call>)
    ensures QuadDraws(a + b) == QuadDraws(a) + QuadDraws(b)
  {
    if b == [] {
      assert a + b == a;
    } else {
      assert (a + b)[..|a + b| - 1] == a + b[..|b| - 1];
      QuadDrawsAppend(a, b[..|b| - 1]);
    }
  }

  lemma QuadDrawsOfFour(a: Call, b: Call, d: Call, e: Call)
    requires !a.GlDrawQuads? && !b.GlDrawQuads? && !d.GlDrawQuads? && e.GlDrawQuads?
    ensures QuadDraws([a, b, d, e]) == [e]
  {
    assert [a][..0] == [];
    assert QuadDraws([a]) == [];
    assert [a, b][..1] == [a];
    assert QuadDraws([a, b]) == [];
    assert [a, b, d][..2] == [a, b];
    assert QuadDraws([a, b, d]) == [];
    assert [a, b, d, e][..3] == [a, b, d];
  }

  /** One character draws one quad when its glyph loads and logs one error otherwise. */
  lemma CharCallsDraws(c: char, pen: Vec2, tint: Colour, font: map<char, Glyph>, fontTexture: u32, vertexBuffer: u32)
    requires GlyphsFit(font)
    ensures QuadDraws(CharCalls(c, pen, tint, font, fontTexture, vertexBuffer)) == if c in font then [GlDrawQuads(4)] else []
    ensures |CharCalls(c, pen, tint, font, fontTexture, vertexBuffer)| == if c in font then 4 else 1
  {
    var calls := CharCalls(c, pen, tint, font, fontTexture, vertexBuffer);
    if c in font {
      assert calls == [calls[0], calls[1], calls[2], calls[3]];
      QuadDrawsOfFour(calls[0], calls[1], calls[2], calls[3]);
    } else {
      assert calls[..0] == [];
    }
  }

  /**
   * A text draws one quad of four vertices per character whose glyph loads
   * and none for the others, which leave one logged error each.
   */
  lemma {:induction false} TextDrawsLoadedGlyphs(s: seq<char>, font: map<char, Glyph>, origin: Vec2, tint: Colour, fontTexture: u32, vertexBuffer: u32)
    requires GlyphsFit(font)
    ensures |QuadDraws(TextCalls(s, font, origin, tint, fontTexture, vertexBuffer))| == LoadedCount(s, font)
    ensures forall c :: c in QuadDraws(TextCalls(s, font, origin, tint, fontTexture, vertexBuffer)) ==> c == GlDrawQuads(4)
    ensures |TextCalls(s, font, origin, tint, fontTexture, vertexBuffer)| == 4 * LoadedCount(s, font) + (|s| - LoadedCount(s, font))
  {
    if s != [] {
      var n := |s| - 1;
      var pen := Vec2(PenState(s[..n], font, origin.x).0, origin.y);
      var before := TextCalls(s[..n], font, origin, tint, fontTexture, vertexBuffer);
      var last := CharCalls(s[n], pen, tint, font, fontTexture, vertexBuffer);
      assert TextCalls(s, font, origin, tint, fontTexture, vertexBuffer) == before + last;
      TextDrawsLoadedGlyphs(s[..n], font, origin, tint, fontTexture, vertexBuffer);
      QuadDrawsAppend(before, last);
      CharCallsDraws(s[n], pen, tint, font, fontTexture, vertexBuffer);
    }
  }

  /** The sum of the advances of `s`, every glyph of which loads. */
  function TotalAdvance(s: seq<char>, font: map<char, Glyph>): real
    requires forall c :: c in s ==> c in font
  {
    if s == [] then 0.0 else TotalAdvance(s[..|s| - 1], font) + GlyphAdvance(font[s[|s| - 1]])
  }

  /** When every glyph loads, the pen ends at the start plus the sum of all advances. */
  lemma {:induction false} PenStateAllLoaded(s: seq<char>, font: map<char, Glyph>, x0: real)
    requires forall c :: c in s ==> c in font
    ensures PenState(s, font, x0).0 == x0 + TotalAdvance(s, font)
  {
    if s != [] {
      PenStateAllLoaded(s[..|s| - 1], font, x0);
    }
  }

  /**
   * Text is laid out left to right on one line: character k is submitted at
   * height `origin.y` and, when every glyph loads, at the start x plus the
   * advances of the characters before it.
   */
  lemma {:induction false} PenPositionsAllLoaded(s: seq<char>, font: map<char, Glyph>, origin: Vec2, k: nat)
    requires forall c :: c in s ==> c in font
    requires k < |s|
    ensures PenPositions(s, font, origin)[k].y == origin.y
    ensures PenPositions(s, font, origin)[k].x == origin.x + TotalAdvance(s[..k], font)
  {
    var n := |s| - 1;
    if k < n {
      PenPositionsAllLoaded(s[..n], font, origin, k);
      assert s[..n][..k] == s[..k];
    } else {
      assert s[..k] == s[..n];
      PenStateAllLoaded(s[..n], font, origin.x);
    }
  }

  /** The FreeType set-up steps that failed during `init`. */
  datatype FreeTypeSetup = FreeTypeSetup(initFails: bool, faceFails: bool, sizeFails: bool)

  /** What `init` logs for the FreeType set-up, in order. */
  function FreeTypeLog(ft: FreeTypeSetup): (log: seq<Call>)
    ensures |log| == (if ft.initFails then 1 else 0) + (if ft.faceFails then 1 else 0) + (if ft.sizeFails then 1 else 0)
    ensures forall c :: c in log ==> c.LogError?
    ensures ft.initFails ==> log[0] == LogError("Error: Freetype could not be initialised")
    ensures ft.sizeFails ==> log[|log| - 1] == LogError("Error: Freetype can't set font size: 86")
  {
    (if ft.initFails then [LogError("Error: Freetype could not be initialised")] else []) +
    (if ft.faceFails then [LogError("Error: Freetype could not load font: " + FONT_PATH)] else []) +
    (if ft.sizeFails then [LogError("Error: Freetype can't set font size: 86")] else [])
  }

  /** The names the graphics API gives the objects `init` creates, and the vertex buffer's byte size. */
  datatype InitIDs = InitIDs(defaultTexture: u32, fontTexture: u32, vertexArray: u32, vertexBuffer: u32,
                             indexBuffer: u32, vertexBufferSize: u32)

  /** The quad geometry `init` builds: a vertex array holding the vertex buffer's layout and a four-index buffer. */
  method QuadGeometry(ids: InitIDs, vertexLayout: Layout, gl: Context) returns (va: OpenGLVertexArray)
    modifies gl
    ensures fresh(va)
    ensures va.indexBuffer == Some(IndexBuffer(ids.indexBuffer, 4)) && va.renderID == ids.vertexArray
    ensures gl.calls == old(gl.calls) +
      [GlCreateVertexArray(ids.vertexArray), GlBindVertexArray(ids.vertexArray),
       GlBindVertexArray(ids.vertexArray), GlBindArrayBuffer(ids.vertexBuffer)] +
      AttributeCalls(vertexLayout.elements, vertexLayout.stride, 0)
  {
    va := CreateVertexArray(CURRENT_API, ids.vertexArray, gl);
    var vbo := CreateVertexBuffer(CURRENT_API, ids.vertexBufferSize, vertexLayout, ids.vertexBuffer);
    var ibo := CreateIndexBuffer(CURRENT_API, |QUAD_INDICES|, ids.indexBuffer);
    va.AddVertexBuffer(vbo.resource.value, gl);
    va.SetIndexBuffer(ibo.resource);
  }

  /** The vertices `init` starts from: the unit quad's corners, zero UVs, white. */
  method InitialVertices() returns (vs: array<Vertex2D>)
    ensures fresh(vs) && vs.Length == 4
    ensures forall i :: 0 <= i < 4 ==> vs[i] == Vertex2D(Scaled(QUAD_CORNERS[i]), Vec2(0.0, 0.0), Pack(WHITE))
  {
    vs := new Vertex2D[4](i requires 0 <= i < 4 => Vertex2D(Scaled(QUAD_CORNERS[i]), Vec2(0.0, 0.0), Pack(WHITE)));
  }

  /** One row of `RtoRGBA`: the inner loop over the row's `width` pixels. */
  method ExpandRow(buffer: array<u8>, bitmap: seq<u8>, width: u32, height: u32, i: int, walker0: int, source0: int)
    returns (walker: int, source: int)
    requires buffer.Length == GLYPH_BUFFER_SIZE
    requires width <= GLYPH_BUFFER_WIDTH && height <= GLYPH_BUFFER_HEIGHT && |bitmap| >= width * height
    requires 0 <= i < height && walker0 == 4 * i * 256 && source0 == i * width
    requires WrittenUpTo(buffer, bitmap, width, height, walker0)
    modifies buffer
    ensures walker == 4 * (i * 256 + width) && source == source0 + width
    ensures WrittenUpTo(buffer, bitmap, width, height, walker)
  {
    walker, source := walker0, source0;
    var j := 0;
    while j < width
      invariant 0 <= j <= width
      invariant walker == 4 * (i * 256 + j)
      invariant source == i * width + j
      invariant WrittenUpTo(buffer, bitmap, width, height, walker)
    {
      GlyphPixel(bitmap, width, height, i, j);
      PixelAt(i, j, 0);
      PixelAt(i, j, 1);
      PixelAt(i, j, 2);
      PixelAt(i, j, 3);
      buffer[walker] := 255;
      buffer[walker + 1] := 255;
      buffer[walker + 2] := 255;
      buffer[walker + 3] := bitmap[source];
      walker := walker + 4;
      source := source + 1;
      j := j + 1;
    }
  }

  /** The glyph buffer `init` allocates and fills with 60. */
  method NewGlyphBuffer() returns (buffer: array<u8>)
    ensures fresh(buffer) && buffer.Length == GLYPH_BUFFER_SIZE
    ensures forall k :: 0 <= k < buffer.Length ==> buffer[k] == GLYPH_BUFFER_FILL
  {
    buffer := new u8[GLYPH_BUFFER_SIZE];
    forall k | 0 <= k < buffer.Length {
      buffer[k] := GLYPH_BUFFER_FILL;
    }
  }

  class Renderer2D {
    const defaultTextureID: u32
    const defaultSubTexture: SubTexture
    const defaultTint: Colour
    const fontTextureID: u32
    const vertexBufferID: u32
    const vertices: array<Vertex2D>
    const glyphBuffer: array<u8>
    const vertexArray: OpenGLVertexArray
    var model: ModelMatrix

    ghost predicate Valid()
      reads this, vertexArray
    {
      vertices.Length == 4 && glyphBuffer.Length == GLYPH_BUFFER_SIZE &&
      defaultSubTexture.textureID == defaultTextureID && defaultTint == WHITE &&
      vertexArray.indexBuffer.Some? && vertexArray.indexBuffer.value.count == 4
    }

    /**
     * `init`: a 1×1 white default texture and a zero-size default sub-texture
     * of it, tint (1, 1, 1, 1), the unit quad with its four indices, and a
     * 256×256×4 glyph buffer filled with 60 and sent to a new font texture.
     */
    constructor (ids: InitIDs, vertexLayout: Layout, ft: FreeTypeSetup, gl: Context)
      modifies gl
      ensures Valid() && fresh(vertices) && fresh(glyphBuffer)
      ensures defaultTextureID == ids.defaultTexture && fontTextureID == ids.fontTexture && vertexBufferID == ids.vertexBuffer
      ensures defaultSubTexture == SubTexture(ids.defaultTexture, Vec2(0.0, 0.0), Vec2(0.0, 0.0))
      ensures defaultTint == WHITE && model == Identity
      ensures forall i :: 0 <= i < 4 ==> vertices[i] == Vertex2D(Scaled(QUAD_CORNERS[i]), Vec2(0.0, 0.0), Pack(WHITE))
      ensures vertexArray.GetDrawCount() == 4 && vertexArray.GetRenderID() == ids.vertexArray
      ensures forall k :: 0 <= k < glyphBuffer.Length ==> glyphBuffer[k] == GLYPH_BUFFER_FILL
      ensures gl.calls == old(gl.calls) +
        [CreateTexture(ids.defaultTexture, 1, 1, 4, [255, 255, 255, 255]),
         GlCreateVertexArray(ids.vertexArray), GlBindVertexArray(ids.vertexArray),
         GlBindVertexArray(ids.vertexArray), GlBindArrayBuffer(ids.vertexBuffer)] +
        AttributeCalls(vertexLayout.elements, vertexLayout.stride, 0) +
        FreeTypeLog(ft) +
        [CreateTexture(ids.fontTexture, 256, 256, 4, []),
         EditTexture(ids.fontTexture, 256, 256, glyphBuffer[..])]
    {
      gl.calls := gl.calls + [CreateTexture(ids.defaultTexture, 1, 1, 4, [255, 255, 255, 255])];
      defaultTextureID := ids.defaultTexture;
      defaultSubTexture := SubTexture(ids.defaultTexture, Vec2(0.0, 0.0), Vec2(0.0, 0.0));
      defaultTint := WHITE;
      model := Identity;
      var vs := InitialVertices();
      vertices := vs;
      var va := QuadGeometry(ids, vertexLayout, gl);
      vertexArray := va;
      var buffer := NewGlyphBuffer();
      glyphBuffer := buffer;
      gl.calls := gl.calls + FreeTypeLog(ft);
      fontTextureID := ids.fontTexture;
      vertexBufferID := ids.vertexBuffer;
      gl.calls := gl.calls + [CreateTexture(ids.fontTexture, GLYPH_BUFFER_WIDTH, GLYPH_BUFFER_HEIGHT, GLYPH_BUFFER_CHANNELS, [])];
      new;
      gl.calls := gl.calls + [EditTexture(fontTextureID, GLYPH_BUFFER_WIDTH, GLYPH_BUFFER_HEIGHT, glyphBuffer[..])];
    }

    /**
     * The main `submit`: binds the sub-texture's base texture, sets the model
     * matrix, rewrites all four vertices, sends them to the vertex buffer and
     * draws the quad's indices.
     */
    method Submit(quad: Quad, tint: Colour, texture: SubTexture, gl: Context)
      requires Valid()
      modifies this, vertices, gl
      ensures Valid()
      ensures model == TranslateScale(quad.translate, quad.scale)
      ensures vertices[..] == QuadVertices(model, tint, texture)
      ensures gl.calls == old(gl.calls) + [GlBindTexture2D(texture.textureID), EditVertexBuffer(vertexBufferID, vertices[..]), GlDrawQuads(4)]
    {
      gl.calls := gl.calls + [GlBindTexture2D(texture.textureID)];
      model := TranslateScale(quad.translate, quad.scale);
      FillQuad(tint, texture, gl);
    }

    /** The rotated `submit`: as `Submit`, with a rotation of `angle` about z; `degrees` has no effect. */
    method SubmitRotated(quad: Quad, tint: Colour, texture: SubTexture, angle: real, degrees: bool, gl: Context)
      requires Valid()
      modifies this, vertices, gl
      ensures Valid()
      ensures model == TranslateRotateScale(quad.translate, angle, quad.scale)
      ensures vertices[..] == QuadVertices(model, tint, texture)
      ensures gl.calls == old(gl.calls) + [GlBindTexture2D(texture.textureID), EditVertexBuffer(vertexBufferID, vertices[..]), GlDrawQuads(4)]
    {
      gl.calls := gl.calls + [GlBindTexture2D(texture.textureID)];
      model := TranslateRotateScale(quad.translate, angle, quad.scale);
      FillQuad(tint, texture, gl);
    }

    /** The tint-only `submit`: the default, zero-size sub-texture. */
    method SubmitTinted(quad: Quad, tint: Colour, gl: Context)
      requires Valid()
      modifies this, vertices, gl
      ensures Valid()
      ensures vertices[..] == QuadVertices(TranslateScale(quad.translate, quad.scale), tint, defaultSubTexture)
      ensures gl.calls == old(gl.calls) + [GlBindTexture2D(defaultTextureID), EditVertexBuffer(vertexBufferID, vertices[..]), GlDrawQuads(4)]
    {
      Submit(quad, tint, defaultSubTexture, gl);
    }

    /** The texture-only `submit`: the default tint (1, 1, 1, 1). */
    method SubmitTextured(quad: Quad, texture: SubTexture, gl: Context)
      requires Valid()
      modifies this, vertices, gl
      ensures Valid()
      ensures vertices[..] == QuadVertices(TranslateScale(quad.translate, quad.scale), WHITE, texture)
      ensures gl.calls == old(gl.calls) + [GlBindTexture2D(texture.textureID), EditVertexBuffer(vertexBufferID, vertices[..]), GlDrawQuads(4)]
    {
      Submit(quad, defaultTint, texture, gl);
    }

    /** The tint-only rotated `submit`. */
    method SubmitTintedRotated(quad: Quad, tint: Colour, angle: real, degrees: bool, gl: Context)
      requires Valid()
      modifies this, vertices, gl
      ensures Valid()
      ensures vertices[..] == QuadVertices(TranslateRotateScale(quad.translate, angle, quad.scale), tint, defaultSubTexture)
      ensures gl.calls == old(gl.calls) + [GlBindTexture2D(defaultTextureID), EditVertexBuffer(vertexBufferID, vertices[..]), GlDrawQuads(4)]
    {
      SubmitRotated(quad, tint, defaultSubTexture, angle, degrees, gl);
    }

    /** The texture-only rotated `submit`. */
    method SubmitTexturedRotated(quad: Quad, texture: SubTexture, angle: real, degrees: bool, gl: Context)
      requires Valid()
      modifies this, vertices, gl
      ensures Valid()
      ensures vertices[..] == QuadVertices(TranslateRotateScale(quad.translate, angle, quad.scale), WHITE, texture)
      ensures gl.calls == old(gl.calls) + [GlBindTexture2D(texture.textureID), EditVertexBuffer(vertexBufferID, vertices[..]), GlDrawQuads(4)]
    {
      SubmitRotated(quad, defaultTint, texture, angle, degrees, gl);
    }

    /**
     * The part both `submit`s share once the model matrix is set: the vertex
     * loop, the UVs, the upload to the vertex buffer `init` created (the one
     * `getVertexBuffers().at(0)` is taken to be) and the draw.
     */
    method FillQuad(tint: Colour, texture: SubTexture, gl: Context)
      requires Valid()
      modifies vertices, gl
      ensures vertices[..] == QuadVertices(model, tint, texture)
      ensures gl.calls == old(gl.calls) + [EditVertexBuffer(vertexBufferID, vertices[..]), GlDrawQuads(4)]
    {
      var packedTint := Pack(tint);
      var drawCount := vertexArray.GetDrawCount();
      for i := 0 to 4
        invariant forall k :: 0 <= k < i ==> vertices[k].position == Apply(model, QUAD_CORNERS[k]) && vertices[k].tint == packedTint
        invariant gl.calls == old(gl.calls)
      {
        vertices[i] := vertices[i].(position := Apply(model, QUAD_CORNERS[i]), tint := packedTint);
      }
      vertices[0] := vertices[0].(uv := texture.uvStart);
      vertices[1] := vertices[1].(uv := Vec2(texture.uvStart.x, texture.uvEnd.y));
      vertices[2] := vertices[2].(uv := texture.uvEnd);
      vertices[3] := vertices[3].(uv := Vec2(texture.uvEnd.x, texture.uvStart.y));
      gl.calls := gl.calls + [EditVertexBuffer(vertexBufferID, vertices[..]), GlDrawQuads(drawCount)];
    }

    /**
     * `RtoRGBA`: zeroes the glyph buffer, then expands the width×height
     * single-channel bitmap into white RGBA pixels with the bitmap as alpha,
     * row i at glyph-buffer row i.
     */
    method RtoRGBA(bitmap: seq<u8>, width: u32, height: u32)
      requires Valid()
      requires width <= GLYPH_BUFFER_WIDTH && height <= GLYPH_BUFFER_HEIGHT && |bitmap| >= width * height
      modifies glyphBuffer
      ensures forall k :: 0 <= k < glyphBuffer.Length ==> glyphBuffer[k] == GlyphByte(bitmap, width, height, k)
    {
      forall k | 0 <= k < glyphBuffer.Length {
        glyphBuffer[k] := 0;
      }
      var walker := 0;
      var source := 0;
      var i := 0;
      while i < height
        invariant 0 <= i <= height
        invariant walker == 4 * i * 256
        invariant source == i * width
        invariant WrittenUpTo(glyphBuffer, bitmap, width, height, walker)
      {
        walker, source := ExpandRow(glyphBuffer, bitmap, width, height, i, walker, source);
        forall k | walker <= k < walker + (GLYPH_BUFFER_WIDTH - width) * 4 {
          RowTailBlank(bitmap, width, height, i, k);
        }
        walker := walker + (GLYPH_BUFFER_WIDTH - width) * 4;
        i := i + 1;
        assert source == i * width;
      }
      forall k | walker <= k < glyphBuffer.Length {
        GlyphOutsideBlank(bitmap, width, height, k);
      }
    }

    /**
     * The character `submit`: a glyph that fails to load is logged and
     * nothing else happens; otherwise the advance becomes the glyph's, its
     * bitmap is expanded into the glyph buffer and sent to the font texture,
     * and a quad the size of the font texture is drawn at the pen position
     * moved by the glyph's bearing.
     */
    method SubmitChar(character: char, position: Vec2, advance: real, tint: Colour, font: map<char, Glyph>, gl: Context)
      returns (advanceOut: real)
      requires Valid() && GlyphsFit(font)
      modifies this, vertices, glyphBuffer, gl
      ensures Valid()
      ensures character !in font ==>
                advanceOut == advance && model == old(model) &&
                unchanged(vertices) && unchanged(glyphBuffer) &&
                gl.calls == old(gl.calls) + [LogError("Error: Could no load  glyph or char " + [character])]
      ensures character in font ==>
              var g := font[character];
              var half := Vec2(128.0, 128.0);
              var quad := CreateCentreHalfExtents(Vec2(position.x + g.left as real + 128.0, position.y - g.top as real + 128.0), half);
              advanceOut == GlyphAdvance(g) &&
              (forall k :: 0 <= k < glyphBuffer.Length ==> glyphBuffer[k] == GlyphByte(g.bitmap, g.width, g.rows, k)) &&
              model == TranslateScale(quad.translate, quad.scale) &&
              vertices[..] == QuadVertices(model, tint, SubTexture(fontTextureID, Vec2(0.0, 0.0), Vec2(1.0, 1.0))) &&
              gl.calls == old(gl.calls) + [EditTexture(fontTextureID, 256, 256, glyphBuffer[..]),
                                           GlBindTexture2D(fontTextureID), EditVertexBuffer(vertexBufferID, vertices[..]), GlDrawQuads(4)]
      ensures gl.calls == old(gl.calls) + CharCalls(character, position, tint, font, fontTextureID, vertexBufferID)
    {
      if character !in font {
        gl.calls := gl.calls + [LogError("Error: Could no load  glyph or char " + [character])];
        advanceOut := advance;
      } else {
        var g := font[character];
        advanceOut := GlyphAdvance(g);
        var halfExtents := Vec2(GLYPH_BUFFER_WIDTH as real * 0.5, GLYPH_BUFFER_HEIGHT as real * 0.5);
        var centre := Vec2(position.x + g.left as real + halfExtents.x, position.y - g.top as real + halfExtents.y);
        var quad := CreateCentreHalfExtents(centre, halfExtents);
        RtoRGBA(g.bitmap, g.width, g.rows);
        gl.calls := gl.calls + [EditTexture(fontTextureID, GLYPH_BUFFER_WIDTH, GLYPH_BUFFER_HEIGHT, glyphBuffer[..])];
        Submit(quad, tint, SubTexture(fontTextureID, Vec2(0.0, 0.0), Vec2(1.0, 1.0)), gl);
        assert glyphBuffer[..] == GlyphImage(g);
        assert quad == GlyphQuad(g, position);
      }
    }

    /**
     * The text `submit`: the characters before the first NUL, left to right,
     * each at the running pen x and the fixed y, making that character's calls;
     * `pens` are the positions used.
     */
    method SubmitText(text: seq<char>, position: Vec2, tint: Colour, font: map<char, Glyph>, gl: Context)
      returns (pens: seq<Vec2>)
      requires Valid() && GlyphsFit(font)
      modifies this, vertices, glyphBuffer, gl
      ensures Valid()
      ensures pens == PenPositions(text[..Strlen(text)], font, position)
      ensures gl.calls == old(gl.calls) + TextCalls(text[..Strlen(text)], font, position, tint, fontTextureID, vertexBufferID)
    {
      var length := Strlen(text);
      var advance, x := 0.0, position.x;
      pens := [];
      var i := 0;
      while i < length
        invariant 0 <= i <= length
        invariant Valid()
        invariant (x, advance) == PenState(text[..i], font, position.x)
        invariant pens == PenPositions(text[..i], font, position)
        invariant gl.calls == old(gl.calls) + TextCalls(text[..i], font, position, tint, fontTextureID, vertexBufferID)
      {
        assert text[..i + 1][..i] == text[..i];
        pens := pens + [Vec2(x, position.y)];
        advance := SubmitChar(text[i], Vec2(x, position.y), advance, tint, font, gl);
        x := x + advance;
        i := i + 1;
      }
    }
  }
}
