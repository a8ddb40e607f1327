/** `rgb(r, g, b)` and `rgba(r, g, b, a)`: one class generator with an
    `alpha` switch. Channels are numbers; on the host they are not scaled,
    in GLSL r, g and b are divided by 255. */
module Rgb {
  import opened Wrappers
  import opened Types
  import opened Ast

  const NumberOnly: set<Ty> := {TNumber}

  /** The constructor: all four arguments go through `implicitCast`; r, g
      and b are loosely checked as numbers, and `a` only for `rgba`. `rgb`
      does not keep a fourth argument as a child. */
  function Make(alpha: bool, r: Lit, g: Lit, b: Lit, a: Lit): (res: Result<Expr>)
    ensures res.Ok? <==>
      CheckLooseType(NumberOnly, ImplicitCast(r)) && CheckLooseType(NumberOnly, ImplicitCast(g)) &&
      CheckLooseType(NumberOnly, ImplicitCast(b)) && (alpha ==> CheckLooseType(NumberOnly, ImplicitCast(a)))
    ensures res.Ok? ==> LooseType(res.value) == Some(TColor)
    ensures res.Ok? && !alpha ==>
      res.value == Ast.Rgb(ImplicitCast(r).value, ImplicitCast(g).value, ImplicitCast(b).value)
    ensures res.Ok? && alpha ==>
      res.value == Ast.Rgba(ImplicitCast(r).value, ImplicitCast(g).value, ImplicitCast(b).value, ImplicitCast(a).value)
  {
    var name := if alpha then "rgba" else "rgb";
    var cr, cg, cb, ca := ImplicitCast(r), ImplicitCast(g), ImplicitCast(b), ImplicitCast(a);
    if !CheckLooseType(NumberOnly, cr) then Err(name + "(): invalid first parameter 'r'")
    else if !CheckLooseType(NumberOnly, cg) then Err(name + "(): invalid second parameter 'g'")
    else if !CheckLooseType(NumberOnly, cb) then Err(name + "(): invalid third parameter 'b'")
    else if !alpha then Ok(Ast.Rgb(cr.value, cg.value, cb.value))
    else if !CheckLooseType(NumberOnly, ca) then Err(name + "(): invalid fourth parameter 'a'")
    else Ok(Ast.Rgba(cr.value, cg.value, cb.value, ca.value))
  }

  /** `eval`: always the `{r, g, b, a}` record of the children's values,
      whatever they are (a NaN or `undefined` channel stays in its place);
      `a` is 1 for `rgb`. */
  function EvalColor(alpha: bool, r: Value, g: Value, b: Value, a: Value): (v: Value)
    ensures v.Record?
    ensures v.r == r && v.g == g && v.b == b
    ensures v.a == if alpha then a else Num(1.0)
  {
    Record(r, g, b, if alpha then a else Num(1.0))
  }

  /** `_compile`: every channel child must now be of type number. */
  function CompileCheck(alpha: bool, tr: Option<Ty>, tg: Option<Ty>, tb: Option<Ty>, ta: Option<Ty>): (res: Result<Ty>)
    ensures res.Ok? <==>
      tr == Some(TNumber) && tg == Some(TNumber) && tb == Some(TNumber) && (alpha ==> ta == Some(TNumber))
    ensures res.Ok? ==> res.value == TColor
  {
    var name := if alpha then "rgba" else "rgb";
    if !CheckType(NumberOnly, tr) then Err(name + "(): invalid first parameter type 'r'")
    else if !CheckType(NumberOnly, tg) then Err(name + "(): invalid second parameter type 'g'")
    else if !CheckType(NumberOnly, tb) then Err(name + "(): invalid third parameter type 'b'")
    else if alpha && !CheckType(NumberOnly, ta) then Err("rgba(): invalid fourth parameter type 'a'")
    else Ok(TColor)
  }

  /** A node that compiles also passes the construction-time check. */
  lemma StrictImpliesLoose(alpha: bool, r: Expr, g: Expr, b: Expr, a: Expr, tr: Option<Ty>, tg: Option<Ty>, tb: Option<Ty>, ta: Option<Ty>)
    requires CompileCheck(alpha, tr, tg, tb, ta).Ok?
    requires forall p :: p in [(r, tr), (g, tg), (b, tb), (a, ta)] ==> LooseType(p.0).None? || LooseType(p.0) == p.1
    ensures Make(alpha, LExpr(r), LExpr(g), LExpr(b), LExpr(a)).Ok?
  {
    assert (r, tr) in [(r, tr), (g, tg), (b, tb), (a, ta)];
    assert (g, tg) in [(r, tr), (g, tg), (b, tb), (a, ta)];
    assert (b, tb) in [(r, tr), (g, tg), (b, tb), (a, ta)];
    assert (a, ta) in [(r, tr), (g, tg), (b, tb), (a, ta)];
  }

  /** The generated GLSL: `vec4(r/255., g/255., b/255., a)` with `1.` as the
      alpha of `rgb`. */
  function Inline(alpha: bool, r: string, g: string, b: string, a: string): (s: string)
    ensures var ia, oa := 5 + |r| + 7 + |g| + 7 + |b| + 7, if alpha then a else "1.";
      |s| == ia + |oa| + 1 && s[..5] == "vec4(" && s[|s| - 1] == ')' &&
      s[5..5 + |r| + 5] == r + "/255." &&
      s[5 + |r| + 7..5 + |r| + 7 + |g| + 5] == g + "/255." &&
      s[5 + |r| + 7 + |g| + 7..5 + |r| + 7 + |g| + 7 + |b| + 5] == b + "/255." &&
      s[ia..ia + |oa|] == oa
  {
    "vec4(" + r + "/255., " + g + "/255., " + b + "/255., " + (if alpha then a else "1.") + ")"
  }

  /** What the GLSL of `Inline` computes from its children's values: each
      of `r/255.`, `g/255.` and `b/255.` divides by 255, and the fourth
      component is `a` itself or the literal `1.`. */
  function Gpu(alpha: bool, r: real, g: real, b: real, a: real): (real, real, real, real)
  {
    (r / 255.0, g / 255.0, b / 255.0, if alpha then a else 1.0)
  }

  /** The shader and the host agree: the shader's color is the host color
      with r, g and b scaled from [0, 255] to [0, 1]; alpha is not scaled. */
  lemma GpuAgreesWithEval(alpha: bool, r: real, g: real, b: real, a: real)
    ensures var c := EvalColor(alpha, Num(r), Num(g), Num(b), Num(a));
            c.r.Num? && c.g.Num? && c.b.Num? && c.a.Num? &&
            Gpu(alpha, r, g, b, a) == (c.r.x / 255.0, c.g.x / 255.0, c.b.x / 255.0, c.a.x)
  {
  }
}
