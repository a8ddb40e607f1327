/** `in(value, categories)` and `nin(value, categories)`: one class
    generator; the result is the number 1 (true) or 0 (false). */
module Belongs {
  import opened Wrappers
  import opened Types
  import opened Ast
  import Strings

  const CategoryOnly: set<Ty> := {TCategory}

  predicate AllLooseCategory(cs: seq<Option<Expr>>)
  {
    forall i :: 0 <= i < |cs| ==> CheckLooseType(CategoryOnly, cs[i])
  }

  /** The constructor. An omitted or falsy list means no categories; a
      truthy value that is not an array is refused. The value and every category go
      through `implicitCast` and must loosely be categories. */
  function Make(isIn: bool, value: Lit, categories: ArgList): (r: Result<Expr>)
    ensures r.Ok? <==>
      !value.LUndefined? && !categories.NotArray? &&
      CheckLooseType(CategoryOnly, ImplicitCast(value)) &&
      (categories.List? ==> AllLooseCategory(CastAll(categories.items)))
    ensures r.Ok? ==> LooseType(r.value) == Some(TNumber)
    ensures r.Ok? ==> (if isIn then r.value.In? else r.value.Nin?)
    ensures r.Ok? ==> r.value.value == ImplicitCast(value).value
    ensures r.Ok? ==> |r.value.categories| == (if categories.List? then |categories.items| else 0)
    ensures r.Ok? && categories.List? ==>
      forall i :: 0 <= i < |categories.items| ==> Some(r.value.categories[i]) == ImplicitCast(categories.items[i])
  {
    var name := if isIn then "in" else "nin";
    var v := ImplicitCast(value);
    if v.None? then Err(name + "(): invalid first parameter 'value'")
    else if categories.NotArray? then Err(name + "(): invalid second parameter 'categories'")
    else
      var items := if categories.List? then categories.items else [];
      var cs := CastAll(items);
      if !CheckLooseType(CategoryOnly, v) then Err(name + "(): invalid first parameter 'value'")
      else if !AllLooseCategory(cs) then Err(name + "(): invalid parameter")
      else
        var es := seq(|cs|, i requires 0 <= i < |cs| && AllLooseCategory(cs) => cs[i].value);
        if isIn then Ok(Ast.In(v.value, es)) else Ok(Ast.Nin(v.value, es))
  }

  /** `cats.some(cat => cat == p)`. */
  function AnyEq(p: Value, cats: seq<Value>): (b: bool)
    ensures b <==> exists i :: 0 <= i < |cats| && LooseEq(cats[i], p)
    decreases |cats|
  {
    if |cats| == 0 then false
    else
      var rest := AnyEq(p, cats[1..]);
      assert forall i :: 0 < i < |cats| ==> cats[i] == cats[1..][i - 1];
      if LooseEq(cats[0], p) then true
      else
        assert rest ==> exists i :: 0 <= i < |cats| && LooseEq(cats[i], p) by {
          if rest {
            var k :| 0 <= k < |cats[1..]| && LooseEq(cats[1..][k], p);
            assert LooseEq(cats[k + 1], p);
          }
        }
        rest
  }

  /** `eval` of `in`: 1 exactly when some category equals the value. */
  function EvalIn(p: Value, cats: seq<Value>): (v: Value)
    ensures v == Num(1.0) <==> exists i :: 0 <= i < |cats| && LooseEq(cats[i], p)
    ensures v == Num(0.0) <==> !exists i :: 0 <= i < |cats| && LooseEq(cats[i], p)
  {
    if AnyEq(p, cats) then Num(1.0) else Num(0.0)
  }

  /** `eval` of `nin`: 1 exactly when no category equals the value. */
  function EvalNin(p: Value, cats: seq<Value>): (v: Value)
    ensures v == Num(1.0) <==> !exists i :: 0 <= i < |cats| && LooseEq(cats[i], p)
    ensures v == Num(0.0) <==> exists i :: 0 <= i < |cats| && LooseEq(cats[i], p)
  {
    if !AnyEq(p, cats) then Num(1.0) else Num(0.0)
  }

  /** `nin` is the complement of `in`; with no categories `in` is 0. */
  lemma InNinComplement(p: Value, cats: seq<Value>)
    ensures EvalIn(p, cats).x + EvalNin(p, cats).x == 1.0
    ensures 0.0 <= EvalIn(p, cats).x <= 1.0
    ensures |cats| == 0 ==> EvalIn(p, cats) == Num(0.0) && EvalNin(p, cats) == Num(1.0)
  {
  }

  /** NaN equals nothing, so it belongs to no list, not even one holding a
      missing category; an `undefined` value does match a missing
      (`undefined`) category. */
  lemma NaNBelongsToNothing(cats: seq<Value>)
    ensures EvalIn(NaN, cats) == Num(0.0) && EvalNin(NaN, cats) == Num(1.0)
    ensures EvalIn(NaN, cats + [Undef]) == Num(0.0)
    ensures EvalIn(Undef, cats + [Undef]) == Num(1.0)
  {
    assert LooseEq((cats + [Undef])[|cats|], Undef);
  }

  /** `_compile`: the value and every category must now be categories. */
  function CompileCheck(isIn: bool, tvalue: Option<Ty>, tcats: seq<Option<Ty>>): (r: Result<Ty>)
    ensures r.Ok? <==> tvalue == Some(TCategory) && forall i :: 0 <= i < |tcats| ==> tcats[i] == Some(TCategory)
    ensures r.Ok? ==> r.value == TNumber
  {
    var name := if isIn then "in" else "nin";
    if !CheckType(CategoryOnly, tvalue) then Err(name + "(): invalid first parameter type 'value'")
    else if exists i :: 0 <= i < |tcats| && !CheckType(CategoryOnly, tcats[i]) then Err(name + "(): invalid parameter type")
    else Ok(TNumber)
  }

  /** One comparison term of the generated GLSL. */
  function Term(v: string, op: string, arg: string): string
  {
    "(" + v + " " + op + " " + arg + ")"
  }

  function Terms(v: string, op: string, args: seq<string>): (ts: seq<string>)
    ensures |ts| == |args| && forall i :: 0 <= i < |args| ==> ts[i] == Term(v, op, args[i])
  {
    seq(|args|, i requires 0 <= i < |args| => Term(v, op, args[i]))
  }

  /** `IN_INLINE_MAKER` and `NIN_INLINE_MAKER`: `0.` (in) or `1.` (nin) with
      no categories, otherwise a disjunction of `==` (in) or a conjunction of
      `!=` (nin) tests selecting `1.` or `0.`. */
  function Inline(isIn: bool, v: string, args: seq<string>): (s: string)
  {
    if |args| == 0 then (if isIn then "0." else "1.")
    else if isIn then "(" + Strings.Join(" || ", Terms(v, "==", args)) + ")? 1.: 0."
    else "(" + Strings.Join(" && ", Terms(v, "!=", args)) + ")? 1.: 0."
  }

  /** The inline text has the shape the two makers give it. */
  lemma InlineShape(isIn: bool, v: string, args: seq<string>)
    ensures |args| == 0 ==> Inline(isIn, v, args) == (if isIn then "0." else "1.")
    ensures |args| == 1 ==>
      Inline(isIn, v, args) == "(" + Term(v, if isIn then "==" else "!=", args[0]) + ")? 1.: 0."
    ensures |args| > 0 ==> var s := Inline(isIn, v, args);
      |s| > 9 && s[0] == '(' && s[|s| - 9..] == ")? 1.: 0."
  {
  }

  /** What the GLSL disjunction `(v == a0) || (v == a1) || ...` computes. */
  function GpuAny(v: real, args: seq<real>): bool
    decreases |args|
  {
    if |args| == 0 then false else v == args[0] || GpuAny(v, args[1..])
  }

  /** What the GLSL conjunction `(v != a0) && (v != a1) && ...` computes. */
  function GpuAll(v: real, args: seq<real>): bool
    decreases |args|
  {
    if |args| == 0 then true else v != args[0] && GpuAll(v, args[1..])
  }

  /** The shader and the host agree on category IDs: the GLSL `in` is 1
      exactly when the host `in` is, and the same for `nin`. */
  lemma {:induction false} GpuAgreesWithEval(v: real, args: seq<real>)
    ensures (if GpuAny(v, args) then 1.0 else 0.0) == EvalIn(Num(v), Nums(args)).x
    ensures (if GpuAll(v, args) then 1.0 else 0.0) == EvalNin(Num(v), Nums(args)).x
    decreases |args|
  {
    if |args| > 0 {
      GpuAgreesWithEval(v, args[1..]);
      var vs, ts := Nums(args), Nums(args[1..]);
      assert forall i :: 0 < i < |vs| ==> vs[i] == ts[i - 1];
      assert AnyEq(Num(v), vs) <==> LooseEq(vs[0], Num(v)) || AnyEq(Num(v), ts) by {
        if AnyEq(Num(v), ts) {
          var k :| 0 <= k < |ts| && LooseEq(ts[k], Num(v));
          assert LooseEq(vs[k + 1], Num(v));
        }
        if AnyEq(Num(v), vs) && !LooseEq(vs[0], Num(v)) {
          var k :| 0 <= k < |vs| && LooseEq(vs[k], Num(v));
          assert k > 0 && LooseEq(ts[k - 1], Num(v));
        }
      }
    }
  }
}
