/** `hex(color)`: a color from the #RGB, #RGBA, #RRGGBB or #RRGGBBAA
    notations of CSS Color Module Level 4, section 5.2. The string is parsed
    once, at construction; `eval` returns the stored color. */
module Hex {
  import opened Wrappers
  import opened Types
  import opened Ast

  /** The value of one hexadecimal digit, either case. */
  function HexDigit(c: char): (d: Option<nat>)
    ensures d.Some? <==> ('0' <= c <= '9' || 'a' <= c <= 'f' || 'A' <= c <= 'F')
    ensures d.Some? ==> d.value < 16
  {
    if '0' <= c <= '9' then Some(c as int - '0' as int)
    else if 'a' <= c <= 'f' then Some(c as int - 'a' as int + 10)
    else if 'A' <= c <= 'F' then Some(c as int - 'A' as int + 10)
    else None
  }

  predicate AllHexDigits(s: string)
  {
    forall i :: 0 <= i < |s| ==> HexDigit(s[i]).Some?
  }

  function D(s: string, i: nat): nat
    requires i < |s| && AllHexDigits(s)
  {
    HexDigit(s[i]).value
  }

  /** `hexToRgb`. A 3- or 4-digit form duplicates each digit (a digit d
      stands for the byte 17 d); the 4th or 4th pair of digits is alpha,
      mapped from [0, 255] to [0, 1]; without it alpha is 1. */
  function ParseHex(s: string): (r: Result<ColorValue>)
    ensures r.Ok? <==> |s| in {4, 5, 7, 9} && s[0] == '#' && AllHexDigits(s[1..])
    ensures r.Ok? ==> 0.0 <= r.value.r <= 255.0 && 0.0 <= r.value.g <= 255.0 && 0.0 <= r.value.b <= 255.0
    ensures r.Ok? ==> 0.0 <= r.value.a <= 1.0
    ensures r.Ok? && |s| in {4, 7} ==> r.value.a == 1.0
  {
    if |s| !in {4, 5, 7, 9} || s[0] != '#' || !AllHexDigits(s[1..]) then Err("Invalid hexadecimal color string")
    else
      var h := s[1..];
      if |h| <= 4 then
        var a := if |h| == 4 then (17 * D(h, 3)) as real / 255.0 else 1.0;
        Ok(ColorValue((17 * D(h, 0)) as real, (17 * D(h, 1)) as real, (17 * D(h, 2)) as real, a))
      else
        var a := if |h| == 8 then (16 * D(h, 6) + D(h, 7)) as real / 255.0 else 1.0;
        Ok(ColorValue((16 * D(h, 0) + D(h, 1)) as real, (16 * D(h, 2) + D(h, 3)) as real,
                      (16 * D(h, 4) + D(h, 5)) as real, a))
  }

  /** `new Hex(hexadecimalColor)`: a non-string argument fails the string
      check; a string that does not parse fails with "Invalid hexadecimal
      color string"; otherwise the node is a color holding the parsed value. */
  function MakeHex(arg: Lit): (r: Result<Expr>)
    ensures !arg.LStr? ==> r.Err?
    ensures arg.LStr? ==> (r.Ok? <==> ParseHex(arg.s).Ok?)
    ensures arg.LStr? && r.Err? ==>
      |r.msg| >= 32 && r.msg[|r.msg| - 32..] == "Invalid hexadecimal color string"
    ensures r.Ok? ==> r.value == Ast.Hex(ParseHex(arg.s).value) && LooseType(r.value) == Some(TColor)
  {
    if !arg.LStr? then Err("hex(): invalid first parameter 'hexadecimalColor'\nexpected a string")
    else match ParseHex(arg.s)
      case Ok(c) => Ok(Ast.Hex(c))
      case Err(_) => Err("hex(): invalid first parameter 'hexadecimalColor'\nInvalid hexadecimal color string")
  }

  /** What the GLSL `vec4(r / 255, g / 255, b / 255, a)` of `_compile`
      computes, each component before its `toFixed(4)` rounding (which is
      not modelled). */
  function Gpu(c: ColorValue): (real, real, real, real)
  {
    (c.r / 255.0, c.g / 255.0, c.b / 255.0, c.a)
  }

  /** Every parsed color gives a valid GLSL color: all four components lie
      in [0, 1], and the vector determines the color it came from. */
  lemma GpuInUnitCube(s: string, t: string)
    requires ParseHex(s).Ok? && ParseHex(t).Ok?
    ensures var v := Gpu(ParseHex(s).value);
      0.0 <= v.0 <= 1.0 && 0.0 <= v.1 <= 1.0 && 0.0 <= v.2 <= 1.0 && 0.0 <= v.3 <= 1.0
    ensures Gpu(ParseHex(s).value) == Gpu(ParseHex(t).value) ==> ParseHex(s).value == ParseHex(t).value
  {
    var c, d := ParseHex(s).value, ParseHex(t).value;
    if Gpu(c) == Gpu(d) {
      assert c.r == 255.0 * (c.r / 255.0) && d.r == 255.0 * (d.r / 255.0);
      assert c.g == 255.0 * (c.g / 255.0) && d.g == 255.0 * (d.g / 255.0);
      assert c.b == 255.0 * (c.b / 255.0) && d.b == 255.0 * (d.b / 255.0);
    }
  }

  /** The upper-case digit for `d`. */
  function HexChar(d: nat): (c: char)
    requires d < 16
    ensures HexDigit(c) == Some(d)
  {
    if d < 10 then (('0' as int) + d) as char else (('A' as int) + d - 10) as char
  }

  /** `#RRGGBBAA` text of four bytes. */
  function Format8(r: nat, g: nat, b: nat, a: nat): string
    requires r < 256 && g < 256 && b < 256 && a < 256
  {
    ['#', HexChar(r / 16), HexChar(r % 16), HexChar(g / 16), HexChar(g % 16),
     HexChar(b / 16), HexChar(b % 16), HexChar(a / 16), HexChar(a % 16)]
  }

  /** Parsing the 8-digit text of any four bytes gives them back, with the
      alpha byte mapped to [0, 1]. */
  lemma {:induction false} Format8RoundTrip(r: nat, g: nat, b: nat, a: nat)
    requires r < 256 && g < 256 && b < 256 && a < 256
    ensures ParseHex(Format8(r, g, b, a)) == Ok(ColorValue(r as real, g as real, b as real, a as real / 255.0))
  {
    var s := Format8(r, g, b, a);
    var h := s[1..];
    assert |h| == 8;
    forall i | 0 <= i < 8 ensures HexDigit(h[i]).Some? {
      assert h[i] == s[i + 1];
    }
    assert D(h, 0) == r / 16 && D(h, 1) == r % 16;
    assert D(h, 2) == g / 16 && D(h, 3) == g % 16;
    assert D(h, 4) == b / 16 && D(h, 5) == b % 16;
    assert D(h, 6) == a / 16 && D(h, 7) == a % 16;
  }

  /** A shorthand form means the same as the long form with every digit
      written twice: #RGB is #RRGGBB and #RGBA is #RRGGBBAA. */
  lemma ShorthandDuplicatesDigits(x: char, y: char, z: char, w: char)
    requires HexDigit(x).Some? && HexDigit(y).Some? && HexDigit(z).Some? && HexDigit(w).Some?
    ensures ParseHex(['#', x, y, z]) == ParseHex(['#', x, x, y, y, z, z])
    ensures ParseHex(['#', x, y, z, w]) == ParseHex(['#', x, x, y, y, z, z, w, w])
  {
    var s3, s6 := ['#', x, y, z], ['#', x, x, y, y, z, z];
    var s4, s8 := ['#', x, y, z, w], ['#', x, x, y, y, z, z, w, w];
    assert s3[1..] == [x, y, z] && s6[1..] == [x, x, y, y, z, z];
    assert s4[1..] == [x, y, z, w] && s8[1..] == [x, x, y, y, z, z, w, w];
  }

  /** The documented examples: #FFF and #FFFFFF are opaque white; #FFF0 and
      #FFFFFF00 are transparent white, #FFFF and #FFFFFFFF opaque; #AAA and
      #808080 are colors; #Z08080 and a missing '#' are rejected. */
  lemma ShortExamples()
    ensures ParseHex("#FFF") == Ok(ColorValue(255.0, 255.0, 255.0, 1.0))
    ensures ParseHex("#FFF0") == Ok(ColorValue(255.0, 255.0, 255.0, 0.0))
    ensures ParseHex("#FFFF") == Ok(ColorValue(255.0, 255.0, 255.0, 1.0))
  {
    assert "#FFF"[1..] == "FFF";
    assert "#FFF0"[1..] == "FFF0";
    assert "#FFFF"[1..] == "FFFF";
  }

  lemma LongExamples()
    ensures ParseHex("#FFFFFF") == Ok(ColorValue(255.0, 255.0, 255.0, 1.0))
    ensures ParseHex("#FFFFFF00") == Ok(ColorValue(255.0, 255.0, 255.0, 0.0))
    ensures ParseHex("#FFFFFFFF") == Ok(ColorValue(255.0, 255.0, 255.0, 1.0))
    ensures ParseHex("#808080") == Ok(ColorValue(128.0, 128.0, 128.0, 1.0))
  {
    assert "#FFFFFF"[1..] == "FFFFFF";
    assert "#FFFFFF00"[1..] == "FFFFFF00";
    assert "#FFFFFFFF"[1..] == "FFFFFFFF";
    assert "#808080"[1..] == "808080";
  }

  lemma ConstructorExamples()
    ensures MakeHex(LStr("#AAA")).Ok? && LooseType(MakeHex(LStr("#AAA")).value) == Some(TColor)
    ensures MakeHex(LStr("#808080")).Ok? && LooseType(MakeHex(LStr("#808080")).value) == Some(TColor)
    ensures MakeHex(LStr("#Z08080")).Err?
    ensures MakeHex(LNum(0.0)).Err? && MakeHex(LExpr(Category("red"))).Err? && MakeHex(LUndefined).Err?
  {
    assert "#AAA"[1..] == "AAA";
    assert "#808080"[1..] == "808080";
    assert "#Z08080"[1..][0] == 'Z';
  }

  /** The documented formats all start with `#`: the same digits without it
      are refused. */
  lemma HashRequired()
    ensures MakeHex(LStr("#808080")).Ok? && MakeHex(LStr("808080")).Err?
  {
    assert "#808080"[1..] == "808080";
  }
}
