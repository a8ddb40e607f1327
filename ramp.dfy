/** The `style` family's `ramp(input, palette)`: a color for every input
    value, read from a 256-pixel texture that spreads the palette's colors
    over [0, 1] and interpolates linearly between neighbours. A numeric
    input is keyed on [0, 1]; a categorical one on [0, numCategories - 1]. */
module Ramp {
  import opened Wrappers
  import opened Types
  import Strings
  import Draw
  import opened Arith

  /** Texture width in pixels. */
  const Width: nat := 256

  /** What the ramp reads of its input node. */
  datatype InputInfo = InputInfo(ty: Option<Ty>, numCategories: int, othersBucket: bool)

  /** A palette argument: a named palette (its sub-palettes by size, its
      longest sub-palette, whether it is tagged qualitative), a custom list
      of colors, or an expression of another type. */
  datatype Palette =
    | Named(subPalettes: map<int, seq<ColorValue>>, longest: seq<ColorValue>, qualitative: bool)
    | Custom(colors: seq<ColorValue>)
    | NotPalette

  /** The constructor's checks: exactly two parameters; the input an
      expression whose type, when known, is float or category; the palette
      of type palette or customPalette. A ramp that passes them has type
      color. */
  function CheckArgs(input: Option<InputInfo>, palette: Palette, extraArgs: nat): (r: Result<Ty>)
    ensures r.Ok? <==>
      extraArgs == 0 && input.Some? &&
      (input.value.ty.None? || input.value.ty.value in {TFloat, TCategory}) &&
      !palette.NotPalette?
    ensures r.Ok? ==> r.value == TColor
  {
    if extraArgs > 0 then Err("ramp(input, palette) only accepts two parameters")
    else if input.None? then Err("ramp(): invalid first parameter 'input'")
    else if input.value.ty.Some? && input.value.ty.value !in {TFloat, TCategory} then Err("ramp(): invalid first parameter type 'input'")
    else if palette.NotPalette? then Err("ramp(): invalid second parameter type 'palette'")
    else Ok(TColor)
  }

  /** `_getColorsFromPalette`. A named palette gives the sub-palette of the
      right size, falling back to the longest one; the size is the number
      of categories, minus one unless a qualitative palette serves an input
      without an others bucket, in which case the palette's own "others"
      color is dropped. A numeric input (no categories) uses the longest
      sub-palette. A custom palette gives its colors unchanged. */
  function GetColors(input: InputInfo, palette: Palette): (colors: seq<ColorValue>)
    requires !palette.NotPalette?
    ensures palette.Custom? ==> colors == palette.colors
    ensures palette.Named? ==>
      var dropOthers := palette.qualitative && !input.othersBucket;
      var size := if dropOthers then input.numCategories else input.numCategories - 1;
      var base := if input.numCategories != 0 && size in palette.subPalettes then palette.subPalettes[size] else palette.longest;
      if dropOthers then |base| > 0 ==> colors == base[..|base| - 1] else colors == base
  {
    match palette
    case Custom(cs) => cs
    case Named(subs, longest, qualitative) =>
      var dropOthers := qualitative && !input.othersBucket;
      var colors :=
        if input.numCategories != 0 then
          var size := if dropOthers then input.numCategories else input.numCategories - 1;
          if size in subs then subs[size] else longest
        else longest;
      if dropOthers then (if |colors| == 0 then [] else colors[..|colors| - 1]) else colors
  }

  /** Storing a number into a `Uint8Array` element: truncation toward zero,
      then wrap-around modulo 256. */
  function Uint8(x: real): (b: int)
    ensures 0 <= b < 256
    ensures 0.0 <= x < 256.0 ==> b == x.Floor
  {
    var t := if x >= 0.0 then x.Floor else -((-x).Floor);
    t % 256
  }

  /** Pixel `i` sits at `i / width * (n - 1)` in the palette, that is
      `Scaled(i, n) / width` with exact arithmetic. */
  function Scaled(i: nat, n: nat): nat
    requires n >= 1
  {
    i * (n - 1)
  }

  lemma ScaledBound(i: nat, n: nat)
    requires n >= 1 && i < Width
    ensures Scaled(i, n) <= (Width - 1) * (n - 1)
  {
    MulMonotoneNat(i, Width - 1, n - 1);
  }

  /** Index of the palette color at or below pixel `i` (`Math.floor`). */
  function LowIndex(i: nat, n: nat): (k: nat)
    requires n >= 1 && i < Width
    ensures k < n && k * Width <= Scaled(i, n) < (k + 1) * Width
  {
    ScaledBound(i, n);
    Scaled(i, n) / Width
  }

  /** Index of the palette color at or above pixel `i` (`Math.ceil`). */
  function HighIndex(i: nat, n: nat): (k: nat)
    requires n >= 1 && i < Width
    ensures k < n
    ensures k == if Scaled(i, n) % Width == 0 then LowIndex(i, n) else LowIndex(i, n) + 1
  {
    ScaledBound(i, n);
    if Scaled(i, n) % Width == 0 then Scaled(i, n) / Width else Scaled(i, n) / Width + 1
  }

  /** The fractional part of the position: `m` in the source. */
  function Frac(i: nat, n: nat): (m: real)
    requires n >= 1 && i < Width
    ensures 0.0 <= m < 1.0
    ensures m == 0.0 <==> HighIndex(i, n) == LowIndex(i, n)
  {
    (Scaled(i, n) % Width) as real / Width as real
  }

  /** Linear blend of two channel values by `m`. */
  function Blend(lo: real, hi: real, m: real): real
  {
    lo * (1.0 - m) + hi * m
  }

  /** The four bytes of pixel `i` as `_postShaderCompile` writes them: the
      neighbouring palette colors below and above its position, blended by
      the fractional part; the alpha blend takes the lower color's alpha,
      scaled to [0, 255], at both of its ends. */
  function Pixel(colors: seq<ColorValue>, i: nat): (px: seq<int>)
    requires |colors| >= 1 && i < Width
    ensures |px| == 4 && forall k :: 0 <= k < 4 ==> 0 <= px[k] < 256
  {
    var lo, hi := colors[LowIndex(i, |colors|)], colors[HighIndex(i, |colors|)];
    var m := Frac(i, |colors|);
    [Uint8(Blend(lo.r, hi.r, m)), Uint8(Blend(lo.g, hi.g, m)), Uint8(Blend(lo.b, hi.b, m)),
     Uint8(Blend(255.0 * lo.a, 255.0 * lo.a, m))]
  }

  /** The corrected pixel: the upper end of the alpha blend is the upper
      color's alpha. */
  function BlendedPixel(colors: seq<ColorValue>, i: nat): (px: seq<int>)
    requires |colors| >= 1 && i < Width
    ensures |px| == 4
  {
    var lo, hi := colors[LowIndex(i, |colors|)], colors[HighIndex(i, |colors|)];
    var m := Frac(i, |colors|);
    [Uint8(Blend(lo.r, hi.r, m)), Uint8(Blend(lo.g, hi.g, m)), Uint8(Blend(lo.b, hi.b, m)),
     Uint8(Blend(255.0 * lo.a, 255.0 * hi.a, m))]
  }

  lemma BlendFromLow(lo: real, hi: real, m: real)
    ensures Blend(lo, hi, m) == lo + m * (hi - lo)
  {
  }

  lemma BlendUp(lo: real, hi: real, m: real)
    requires 0.0 <= m <= 1.0 && lo <= hi
    ensures lo <= Blend(lo, hi, m) <= hi
  {
    var d := hi - lo;
    ScaleWithin(m, d);
    assert 0.0 <= m * d <= d;
    BlendFromLow(lo, hi, m);
    assert Blend(lo, hi, m) == lo + m * d;
  }

  /** Blending commutes with scaling: scaling both ends scales the blend. */
  lemma BlendScales(k: real, lo: real, hi: real, m: real)
    ensures Blend(k * lo, k * hi, m) == k * Blend(lo, hi, m)
  {
    assert k * lo * (1.0 - m) == k * (lo * (1.0 - m));
    assert k * hi * m == k * (hi * m);
  }

  /** As written, the alpha byte never blends: it is always the lower
      color's alpha. */
  lemma AsWrittenAlphaIgnoresUpperColor(colors: seq<ColorValue>, i: nat)
    requires |colors| >= 1 && i < Width
    ensures Pixel(colors, i)[3] == Uint8(255.0 * colors[LowIndex(i, |colors|)].a)
  {
    var m := Frac(i, |colors|);
    var a := 255.0 * colors[LowIndex(i, |colors|)].a;
    assert Blend(a, a, m) == a;
  }

  /** The corrected alpha blends exactly like the color channels: for a
      palette whose red channel is its alpha scaled to [0, 255] (opaque red
      fading to transparent black, say), the alpha byte of every pixel
      equals its red byte. */
  lemma AlphaBlendsLikeColor(colors: seq<ColorValue>, i: nat)
    requires |colors| >= 1 && i < Width
    requires forall k :: 0 <= k < |colors| ==> colors[k].r == 255.0 * colors[k].a
    ensures BlendedPixel(colors, i)[3] == BlendedPixel(colors, i)[0]
  {
    var lo, hi := colors[LowIndex(i, |colors|)], colors[HighIndex(i, |colors|)];
    BlendScales(255.0, lo.a, hi.a, Frac(i, |colors|));
  }

  /** The discrepancy: from opaque red (255, 0, 0, 1) to transparent black,
      pixel 128 sits halfway. Its red byte is 127; the corrected alpha is
      127 as well, while as written the alpha stays 255. */
  lemma AsWrittenAlphaCounterexample()
    ensures var colors := [ColorValue(255.0, 0.0, 0.0, 1.0), ColorValue(0.0, 0.0, 0.0, 0.0)];
      Pixel(colors, 128)[3] == 255 && Pixel(colors, 128)[0] == 127 &&
      BlendedPixel(colors, 128)[3] == 127
  {
    assert Scaled(128, 2) == 128;
    assert Frac(128, 2) == 0.5;
    assert Blend(255.0, 0.0, 0.5) == 127.5;
  }

  /** Pixel 0 is exactly the first color. */
  lemma FirstPixelIsFirstColor(colors: seq<ColorValue>)
    requires |colors| >= 1
    requires var c := colors[0]; 0.0 <= c.r < 256.0 && 0.0 <= c.g < 256.0 && 0.0 <= c.b < 256.0 && 0.0 <= c.a <= 1.0
    ensures var c := colors[0];
      Pixel(colors, 0) == [c.r.Floor, c.g.Floor, c.b.Floor, Uint8(255.0 * c.a)]
  {
    var c := colors[0];
    assert Scaled(0, |colors|) == 0;
    assert LowIndex(0, |colors|) == 0 && HighIndex(0, |colors|) == 0;
    assert Frac(0, |colors|) == 0.0;
    assert Blend(c.r, c.r, 0.0) == c.r && Blend(c.g, c.g, 0.0) == c.g && Blend(c.b, c.b, 0.0) == c.b;
    assert Blend(255.0 * c.a, 255.0 * c.a, 0.0) == 255.0 * c.a;
  }

  /** One palette color paints the whole texture in that color. */
  lemma SingleColorIsUniform(c: ColorValue, i: nat)
    requires i < Width
    ensures Pixel([c], i) == Pixel([c], 0)
  {
    assert Scaled(i, 1) == 0 && Scaled(0, 1) == 0;
  }

  /** The whole texture, byte by byte. */
  function Texture(colors: seq<ColorValue>): (t: seq<int>)
    requires |colors| >= 1
    ensures |t| == 4 * Width
  {
    seq(4 * Width, j requires 0 <= j < 4 * Width => Pixel(colors, j / 4)[j % 4])
  }

  /** Texel `i` of the texture holds pixel `i`'s four channels. */
  lemma TextureAt(colors: seq<ColorValue>, i: nat)
    requires |colors| >= 1 && i < Width
    ensures forall c :: 0 <= c < 4 ==> Texture(colors)[4 * i + c] == Pixel(colors, i)[c]
  {
    forall c | 0 <= c < 4
      ensures Texture(colors)[4 * i + c] == Pixel(colors, i)[c]
    {
      assert (4 * i + c) / 4 == i && (4 * i + c) % 4 == c;
    }
  }

  /** The pixel loop of `_postShaderCompile`. */
  method FillTexture(colors: seq<ColorValue>) returns (pixel: array<int>)
    requires |colors| >= 1
    ensures fresh(pixel) && pixel[..] == Texture(colors)
  {
    pixel := new int[4 * Width](_ => 0);
    ghost var t := Texture(colors);
    var i := 0;
    while i < Width
      invariant 0 <= i <= Width
      invariant forall j :: 0 <= j < 4 * i ==> pixel[j] == t[j]
      modifies pixel
    {
      var v := Pixel(colors, i);
      TextureAt(colors, i);
      pixel[4 * i + 0] := v[0];
      pixel[4 * i + 1] := v[1];
      pixel[4 * i + 2] := v[2];
      pixel[4 * i + 3] := v[3];
      i := i + 1;
    }
  }

  /** GLSL of `_applyToShaderSource`: three uniforms per ramp, and a lookup
      of the input, rescaled from [keyMin, keyMin + keyWidth] to [0, 1]. */
  function Preface(uid: nat, inputPreface: string): string
  {
    var id := Strings.NatToString(uid);
    inputPreface + "\n        uniform sampler2D texRamp" + id + ";\n        uniform float keyMin" + id +
    ";\n        uniform float keyWidth" + id + ";\n        "
  }

  function Inline(uid: nat, input: string): string
  {
    var id := Strings.NatToString(uid);
    "texture2D(texRamp" + id + ", vec2((" + input + "-keyMin" + id + ")/keyWidth" + id + ", 0.5)).rgba"
  }

  /** The texture coordinate the GLSL computes for input value `x`. */
  function KeyCoordinate(x: real, keyMin: real, keyWidth: real): real
    requires keyWidth != 0.0
  {
    (x - keyMin) / keyWidth
  }

  /** With the keys `_compile` sets for a categorical input of n >= 2
      categories, category k maps to k / (n - 1): the first to 0, the last
      to 1, in increasing order. */
  lemma CategoryKeysSpanTexture(n: int, k: int, l: int)
    requires n >= 2 && 0 <= k < l <= n - 1
    ensures KeyCoordinate(0.0, 0.0, (n - 1) as real) == 0.0
    ensures KeyCoordinate((n - 1) as real, 0.0, (n - 1) as real) == 1.0
    ensures 0.0 <= KeyCoordinate(k as real, 0.0, (n - 1) as real) < KeyCoordinate(l as real, 0.0, (n - 1) as real) <= 1.0
  {
    var w := (n - 1) as real;
    assert KeyCoordinate(w, 0.0, w) == w / w == 1.0;
    DivMonotone(0.0, k as real, w);
    DivMonotone(k as real, l as real, w);
    DivMonotone(l as real, w, w);
  }

  /** A recompile can change which palette colors the input selects: with
      sub-palettes of 2 and 4 colors, a categorical input of 3 categories
      selects the 2-color one and one of 5 the 4-color one, and their
      gradients differ from the first byte. `Compile` keeps the texture of
      the first set, so after such a recompile the ramp still draws it. */
  lemma RecompileCanSelectOtherColors()
    ensures var black, red := ColorValue(0.0, 0.0, 0.0, 1.0), ColorValue(255.0, 0.0, 0.0, 1.0);
      var pal := Named(map[2 := [black, black], 4 := [red, red, red, red]], [red, red, red, red], false);
      var before, after := InputInfo(Some(TCategory), 3, true), InputInfo(Some(TCategory), 5, true);
      GetColors(before, pal) == [black, black] && GetColors(after, pal) == [red, red, red, red] &&
      Texture(GetColors(before, pal))[0] == 0 && Texture(GetColors(after, pal))[0] == 255
  {
    var black, red := ColorValue(0.0, 0.0, 0.0, 1.0), ColorValue(255.0, 0.0, 0.0, 1.0);
    FirstPixelIsFirstColor([black, black]);
    FirstPixelIsFirstColor([red, red, red, red]);
    TextureAt([black, black], 0);
    TextureAt([red, red, red, red], 0);
  }

  class Ramp {
    var input: InputInfo
    const palette: Palette
    /** `type`, set by the constructor. */
    const ty: Ty
    var minKey: real
    var maxKey: real
    /** `init`: set on the first `_postShaderCompile`, which builds the texture. */
    var init: bool
    /** The uploaded texture, once built. */
    var texture: Option<seq<int>>
    /** The palette colors the texture was built from. */
    ghost var builtFrom: seq<ColorValue>

    /** The palette is a palette and any built texture is the gradient of
        the colors it was built from. */
    ghost predicate Valid()
      reads this
    {
      !palette.NotPalette? &&
      (texture.Some? ==> init && |builtFrom| >= 1 && texture.value == Texture(builtFrom))
    }

    /** The constructor after its checks have passed: keys [0, 1] and type
        color. */
    constructor(input: InputInfo, palette: Palette)
      requires CheckArgs(Some(input), palette, 0).Ok?
      ensures this.input == input && this.palette == palette && ty == TColor
      ensures minKey == 0.0 && maxKey == 1.0 && !init && texture.None? && Valid()
    {
      this.input := input;
      this.palette := palette;
      ty := CheckArgs(Some(input), palette, 0).value;
      minKey := 0.0;
      maxKey := 1.0;
      init := false;
      texture := None;
      builtFrom := [];
    }

    /** `_compile`, on the first compile or any later one: the compiled
        input must be a float or a category; a categorical input keys the
        ramp on its category indices. The texture is left as it is, even
        when the new input would select other palette colors. */
    method Compile(compiled: InputInfo) returns (r: Result<()>)
      requires Valid()
      modifies this
      ensures r.Ok? <==> compiled.ty == Some(TFloat) || compiled.ty == Some(TCategory)
      ensures r.Ok? ==> input == compiled && minKey == old(minKey) &&
                        maxKey == if compiled.ty == Some(TCategory) then (compiled.numCategories - 1) as real else old(maxKey)
      ensures r.Err? ==> input == old(input) && maxKey == old(maxKey)
      ensures init == old(init) && texture == old(texture) && builtFrom == old(builtFrom) && Valid()
    {
      if !(compiled.ty == Some(TFloat) || compiled.ty == Some(TCategory)) {
        return Err("ramp(): invalid first parameter type 'input'");
      }
      input := compiled;
      if compiled.ty == Some(TCategory) {
        maxKey := (compiled.numCategories - 1) as real;
      }
      r := Ok(());
    }

    /** `_postShaderCompile`: only the first call builds the texture, from
        the colors of the input as it is then. An empty color list makes
        the source throw after `init` is set, so no texture is ever built;
        `ok` is false then. */
    method PostShaderCompile() returns (ok: bool)
      requires Valid()
      modifies this
      ensures Valid() && init && input == old(input) && minKey == old(minKey) && maxKey == old(maxKey)
      ensures old(init) ==> texture == old(texture) && builtFrom == old(builtFrom) && ok
      ensures !old(init) ==> (ok <==> |GetColors(input, palette)| >= 1)
      ensures !old(init) && ok ==> texture == Some(Texture(GetColors(input, palette))) && builtFrom == GetColors(input, palette)
      ensures !old(init) && !ok ==> texture == old(texture)
    {
      ok := true;
      if !init {
        init := true;
        var colors := GetColors(input, palette);
        if |colors| == 0 {
          ok := false;
          return;
        }
        var pixel := FillTexture(colors);
        texture := Some(pixel[..]);
        builtFrom := colors;
      }
    }

    /** `_preDraw`: bind the texture to the next free unit and set the key
        uniforms: `keyMin` to `minKey` and `keyWidth` to the key range. */
    method PreDraw(dm: Draw.DrawMetadata) returns (unit: int, keyMin: real, keyWidth: real)
      modifies dm
      ensures unit == old(dm.freeTexUnit) && dm.freeTexUnit == old(dm.freeTexUnit) + 1
      ensures keyMin == minKey && keyWidth == maxKey - minKey
    {
      unit := dm.TakeUnit();
      keyMin := minKey;
      keyWidth := maxKey - minKey;
    }
  }
}
