/** The line renderer's vertex shader: the width decoder that turns a
    texel alpha in [0, 1] into a width in pixels, and the per-vertex
    colour premultiplication and culling. */
module Lines {
  import opened Types

  /** The largest width the decoder can produce, at x == 1. */
  const MaxWidth: real := 336.0

  /** `decodeWidth`: rescale to [0, 255], then quarter resolution below
      64, unit steps up to 128 and double steps above. */
  function DecodeWidth(x: real): (w: real)
    ensures 0.0 <= x ==> 0.0 <= w
    ensures x * 255.0 < 64.0 ==> w == x * 255.0 / 4.0
    ensures 64.0 <= x * 255.0 < 128.0 ==> w == x * 255.0 - 48.0
    ensures 128.0 <= x * 255.0 ==> w == x * 255.0 * 2.0 - 174.0
  {
    var v := x * 255.0;
    if v < 64.0 then v * 0.25
    else if v < 128.0 then (v - 64.0) + 16.0
    else (v - 127.0) * 2.0 + 80.0
  }

  /** The first two pieces meet at 64 (both 16), a texel alpha of 64/255. */
  lemma ContinuousAt64()
    ensures DecodeWidth(64.0 / 255.0) == 16.0
    ensures forall x :: 0.0 <= x && x * 255.0 < 64.0 ==> DecodeWidth(x) < 16.0
  {
  }

  /** The third piece starts at 82, above everything the second piece
      reaches: widths in [80, 82) are never produced. */
  lemma JumpAt128(x: real)
    ensures DecodeWidth(128.0 / 255.0) == 82.0
    ensures x * 255.0 < 128.0 ==> DecodeWidth(x) < 80.0
    ensures 128.0 <= x * 255.0 ==> DecodeWidth(x) >= 82.0
  {
  }

  /** The decoder is nondecreasing, from 0 at x == 0 to 336 at x == 1. */
  lemma Monotone(x: real, y: real)
    requires x <= y
    ensures DecodeWidth(x) <= DecodeWidth(y)
  {
  }

  lemma Endpoints()
    ensures DecodeWidth(0.0) == 0.0
    ensures DecodeWidth(1.0) == MaxWidth
    ensures forall x :: 0.0 <= x <= 1.0 ==> 0.0 <= DecodeWidth(x) <= MaxWidth
  {
    forall x | 0.0 <= x <= 1.0
      ensures DecodeWidth(x) <= MaxWidth
    {
      Monotone(x, 1.0);
    }
  }

  datatype Vec2 = Vec2(x: real, y: real)

  function Add(a: Vec2, b: Vec2): Vec2 { Vec2(a.x + b.x, a.y + b.y) }
  function Sub(a: Vec2, b: Vec2): Vec2 { Vec2(a.x - b.x, a.y - b.y) }
  function Mul(a: Vec2, b: Vec2): Vec2 { Vec2(a.x * b.x, a.y * b.y) }
  function Scale(a: Vec2, s: real): Vec2 { Vec2(a.x * s, a.y * s) }

  /** What the vertex shader's inputs read from the textures and buffers. */
  datatype VertexInput = VertexInput(
    color: ColorValue,   // colorTex at the feature
    filtering: real,     // filterTex alpha at the feature
    widthTexel: real,    // widthTex alpha at the feature
    position: Vec2, normal: Vec2,
    vertexScale: Vec2, vertexOffset: Vec2, normalScale: Vec2)

  datatype VertexOutput = VertexOutput(color: ColorValue, x: real, y: real, z: real, w: real)

  /** The x coordinate a culled vertex is moved to, outside clip space. */
  const CulledX: real := 10000.0

  /** The unculled projected position: the vertex, pushed along its normal
      by the decoded width, then offset. */
  function Extruded(v: VertexInput): Vec2
  {
    Sub(Add(Mul(v.vertexScale, v.position), Scale(Mul(v.normalScale, v.normal), DecodeWidth(v.widthTexel))), v.vertexOffset)
  }

  /** The shader's `main`: alpha is multiplied by the filter, rgb is
      premultiplied by that alpha, and the vertex is thrown out of clip
      space exactly when it would draw nothing (zero width or zero
      alpha); otherwise its position is the extruded one. */
  function VertexMain(v: VertexInput): (o: VertexOutput)
    ensures o.color.a == v.color.a * v.filtering
    ensures o.color.r == v.color.r * o.color.a && o.color.g == v.color.g * o.color.a && o.color.b == v.color.b * o.color.a
    ensures (o.x == CulledX) <== (DecodeWidth(v.widthTexel) == 0.0 || o.color.a == 0.0)
    ensures !(DecodeWidth(v.widthTexel) == 0.0 || o.color.a == 0.0) ==> o.x == Extruded(v).x
    ensures o.y == Extruded(v).y && o.z == 0.5 && o.w == 1.0
  {
    var a := v.color.a * v.filtering;
    var c := ColorValue(v.color.r * a, v.color.g * a, v.color.b * a, a);
    var size := DecodeWidth(v.widthTexel);
    var p := Extruded(v);
    var x := if size == 0.0 || c.a == 0.0 then CulledX else p.x;
    VertexOutput(c, x, p.y, 0.5, 1.0)
  }

  /** A vertex of a fully filtered-out feature is always culled, whatever
      its colour and width. */
  lemma FilteredOutIsCulled(v: VertexInput)
    requires v.filtering == 0.0
    ensures VertexMain(v).x == CulledX
    ensures VertexMain(v).color == ColorValue(0.0, 0.0, 0.0, 0.0)
  {
  }

  /** Texel alpha 0 decodes to width 0, so such a vertex is culled. */
  lemma ZeroWidthIsCulled(v: VertexInput)
    requires v.widthTexel == 0.0
    ensures VertexMain(v).x == CulledX
  {
  }
}
