/** The expression tree. Every expression class of the core is one variant of
    a closed sum; the children each class hands to its base constructor are
    the variant's fields. The base class, the literal classes (`number`,
    `category`), `property`, `linear`, `globalMin` and `globalMax` are not
    part of this model beyond the variants below. */
module Ast {
  import opened Wrappers
  import opened Types
  import Strings

  datatype Expr =
    | Number(x: real)
    | Category(name: string)
    | Property(name: string)
    | Linear(input: Expr, min: Expr, max: Expr)
    | GlobalMin(prop: string)
    | GlobalMax(prop: string)
    | Rgb(r: Expr, g: Expr, b: Expr)
    | Rgba(r: Expr, g: Expr, b: Expr, a: Expr)
    | Hex(color: ColorValue)
    | In(value: Expr, categories: seq<Expr>)
    | Nin(value: Expr, categories: seq<Expr>)
    | Buckets(input: Expr, args: seq<Expr>, uid: nat)
    | Top(property: Expr, buckets: Expr)
    | Fade(fadeIn: Expr, fadeOut: Expr)
    | Torque(input: Expr, duration: real, fade: Expr)
    | Asc
    | Desc
    | NoOrder
    | Width

  /** An argument as a caller passes it: a finite number, a string, an
      expression, or nothing (`undefined`). */
  datatype Lit = LNum(x: real) | LStr(s: string) | LExpr(e: Expr) | LUndefined

  /** An array argument after `arg || []`: `Omitted` stands for an omitted
      argument or any falsy one (`null`, `0`, `''`, `false`, NaN), all of
      which become the empty list; `NotArray` for a truthy value that is
      not an array. */
  datatype ArgList = Omitted | List(items: seq<Lit>) | NotArray

  /** `implicitCast`: numbers become number literals, strings category
      literals, expressions stay; `undefined` is not an expression. */
  function ImplicitCast(l: Lit): (r: Option<Expr>)
    ensures r.None? <==> l.LUndefined?
    ensures l.LExpr? ==> r == Some(l.e)
  {
    match l
    case LNum(x) => Some(Number(x))
    case LStr(s) => Some(Category(s))
    case LExpr(e) => Some(e)
    case LUndefined => None
  }

  function CastAll(ls: seq<Lit>): (r: seq<Option<Expr>>)
    ensures |r| == |ls| && forall i :: 0 <= i < |ls| ==> r[i] == ImplicitCast(ls[i])
  {
    seq(|ls|, i requires 0 <= i < |ls| => ImplicitCast(ls[i]))
  }

  /** The `type` a node has right after construction; `None` where the
      constructor leaves it undefined (a property before metadata arrives,
      `top`, `torque`). */
  function LooseType(e: Expr): Option<Ty>
  {
    match e
    case Number(_) => Some(TNumber)
    case Category(_) => Some(TCategory)
    case Property(_) => None
    case Linear(_, _, _) => Some(TNumber)
    case GlobalMin(_) => None
    case GlobalMax(_) => None
    case Rgb(_, _, _) => Some(TColor)
    case Rgba(_, _, _, _) => Some(TColor)
    case Hex(_) => Some(TColor)
    case In(_, _) => Some(TNumber)
    case Nin(_, _) => Some(TNumber)
    case Buckets(_, _, _) => Some(TCategory)
    case Top(_, _) => None
    case Fade(_, _) => Some(TFade)
    case Torque(_, _, _) => None
    case Asc => Some(TOrderer)
    case Desc => Some(TOrderer)
    case NoOrder => Some(TOrderer)
    case Width => Some(TPropertyReference)
  }

  /** `checkLooseType`: the argument must be an expression, and its type,
      when already known, must be one of the expected ones. */
  predicate CheckLooseType(expected: set<Ty>, e: Option<Expr>)
  {
    e.Some? && (LooseType(e.value).None? || LooseType(e.value).value in expected)
  }

  /** `checkType` on a compiled node: the type must be known and expected. */
  predicate CheckType(expected: set<Ty>, t: Option<Ty>)
  {
    t.Some? && t.value in expected
  }

  /** `arg0`, `arg1`, ...: the child names of list arguments. */
  function ArgName(i: nat): string
  {
    "arg" + Strings.NatToString(i)
  }

  function ArgNames(n: nat): (names: seq<string>)
    ensures |names| == n && forall i :: 0 <= i < n ==> names[i] == ArgName(i)
  {
    seq(n, i requires 0 <= i < n => ArgName(i))
  }

  /** Names of the children each class registers, in registration order. */
  function ChildNames(e: Expr): seq<string>
  {
    match e
    case Linear(_, _, _) => ["input", "min", "max"]
    case Rgb(_, _, _) => ["r", "g", "b"]
    case Rgba(_, _, _, _) => ["r", "g", "b", "a"]
    case In(_, cats) => ["value"] + ArgNames(|cats|)
    case Nin(_, cats) => ["value"] + ArgNames(|cats|)
    case Buckets(_, args, _) => ["input"] + ArgNames(|args|)
    case Top(_, _) => ["property", "buckets"]
    case Fade(_, _) => ["fadeIn", "fadeOut"]
    case Torque(_, _, _) => ["input", "_cycle", "fade"]
    case _ => []
  }

  /** A fixed leading name followed by `arg0`, `arg1`, ... repeats no name. */
  lemma HeadAndArgsDistinct(head: string, n: nat)
    requires head == "input" || head == "value"
    ensures var names := [head] + ArgNames(n);
      forall i, j :: 0 <= i < j < |names| ==> names[i] != names[j]
  {
    var names := [head] + ArgNames(n);
    forall i, j | 0 <= i < j < |names| ensures names[i] != names[j] {
      if i == 0 {
        assert names[j] == ArgName(j - 1);
        assert names[j][..3] == "arg";
        assert head[..3] == "inp" || head[..3] == "val";
      } else {
        assert names[i] == ArgName(i - 1) && names[j] == ArgName(j - 1);
        Strings.PrefixedNamesDistinct("arg", i - 1, j - 1);
      }
    }
  }

  /** No two children of a node share a name, so the child map of the base
      class loses nothing; list arguments get one child each. */
  lemma ChildNamesDistinct(e: Expr)
    ensures forall i, j :: 0 <= i < j < |ChildNames(e)| ==> ChildNames(e)[i] != ChildNames(e)[j]
    ensures (e.In? || e.Nin?) ==> |ChildNames(e)| == 1 + |e.categories|
    ensures e.Buckets? ==> |ChildNames(e)| == 1 + |e.args|
  {
    if e.Buckets? {
      HeadAndArgsDistinct("input", |e.args|);
    } else if e.In? || e.Nin? {
      HeadAndArgsDistinct("value", |e.categories|);
    }
  }
}
