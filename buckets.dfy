/** `buckets(input, args)`: the index of the bucket a value falls into.
    With a numeric input the args are ascending thresholds and the bucket is
    that of the first threshold above the value; with a categorical input
    the bucket is that of the first equal category, and the last bucket
    collects all others. */
module Buckets {
  import opened Wrappers
  import opened Types
  import opened Ast
  import Strings

  /** The only input and argument types buckets accept. */
  predicate Classifiable(t: Ty)
  {
    t == TNumber || t == TCategory
  }

  /** The construction-time check of the arguments: each must be an
      expression; one whose type is known must match the input's type when
      that is known, and must be a number or a category. */
  predicate ArgsLooseOk(looseType: Option<Ty>, args: seq<Option<Expr>>)
  {
    forall i :: 0 <= i < |args| ==>
      args[i].Some? &&
      (LooseType(args[i].value).Some? ==>
        Classifiable(LooseType(args[i].value).value) &&
        (looseType.Some? ==> LooseType(args[i].value) == looseType))
  }

  /** The constructor, with `uid` the value the module counter hands out.
      An omitted or falsy breakpoint list means no breakpoints; a truthy
      value that is not an array is refused. */
  function Make(input: Lit, args: ArgList, uid: nat): (r: Result<Expr>)
    ensures r.Ok? <==>
      !input.LUndefined? && !args.NotArray? &&
      (LooseType(ImplicitCast(input).value).Some? ==> Classifiable(LooseType(ImplicitCast(input).value).value)) &&
      (args.List? ==> ArgsLooseOk(LooseType(ImplicitCast(input).value), CastAll(args.items)))
    ensures r.Ok? ==> r.value.Buckets? && r.value.uid == uid && LooseType(r.value) == Some(TCategory)
    ensures r.Ok? ==> r.value.input == ImplicitCast(input).value
    ensures r.Ok? ==> |r.value.args| == (if args.List? then |args.items| else 0)
    ensures r.Ok? && args.List? ==>
      forall i :: 0 <= i < |args.items| ==> Some(r.value.args[i]) == ImplicitCast(args.items[i])
  {
    var inp := ImplicitCast(input);
    if args.NotArray? then Err("buckets(): invalid second parameter 'args'")
    else if inp.None? then Err("buckets(): invalid first parameter 'input'")
    else
      var looseType := LooseType(inp.value);
      var cs := CastAll(if args.List? then args.items else []);
      if looseType.Some? && !Classifiable(looseType.value) then
        Err("buckets(): invalid first parameter type")
      else if !ArgsLooseOk(looseType, cs) then Err("buckets(): invalid parameter type")
      else
        var es := seq(|cs|, i requires 0 <= i < |cs| && ArgsLooseOk(looseType, cs) => cs[i].value);
        Ok(Ast.Buckets(inp.value, es, uid))
  }

  /** The module-level `bucketUID` counter: every constructed node takes the
      next number, so generated GLSL function names never clash. */
  class BucketCounter {
    var next: nat

    constructor()
      ensures next == 0
    {
      next := 0;
    }

    /** `new Buckets(input, args)`: the counter advances only when
        construction succeeds, after the checks. */
    method New(input: Lit, args: ArgList) returns (r: Result<Expr>)
      modifies this
      ensures r == Make(input, args, old(next))
      ensures next == if r.Ok? then old(next) + 1 else old(next)
    {
      r := Make(input, args, next);
      if r.Ok? {
        next := next + 1;
      }
    }
  }

  /** `numCategories`: one bucket per argument and one more. */
  function NumCategories(e: Expr): (n: nat)
    requires e.Buckets?
    ensures n >= 1
  {
    |e.args| + 1
  }

  /** Whether argument value `a` closes the bucket for input value `v`. */
  predicate Hit(inputType: Option<Ty>, v: Value, a: Value)
  {
    (inputType == Some(TCategory) && LooseEq(v, a)) || (inputType == Some(TNumber) && LooseLt(v, a))
  }

  /** The bucket of `v`: the first argument it hits, or the count of
      arguments when it hits none. */
  function BucketIndex(inputType: Option<Ty>, v: Value, args: seq<Value>): (i: nat)
    ensures i <= |args|
    ensures forall j :: 0 <= j < i ==> !Hit(inputType, v, args[j])
    ensures i < |args| ==> Hit(inputType, v, args[i])
    decreases |args|
  {
    if |args| == 0 then 0
    else if Hit(inputType, v, args[0]) then 0
    else
      var rest := BucketIndex(inputType, v, args[1..]);
      assert forall j :: 1 <= j < |args| ==> args[j] == args[1..][j - 1];
      1 + rest
  }

  /** `eval`: the loop over the arguments that returns at the first hit. */
  method Eval(inputType: Option<Ty>, v: Value, args: seq<Value>) returns (i: nat)
    ensures i == BucketIndex(inputType, v, args)
    ensures i < |args| + 1
  {
    i := 0;
    while i < |args|
      invariant 0 <= i <= |args|
      invariant forall j :: 0 <= j < i ==> !Hit(inputType, v, args[j])
    {
      if inputType == Some(TCategory) && LooseEq(v, args[i]) {
        return;
      } else if inputType == Some(TNumber) && LooseLt(v, args[i]) {
        return;
      }
      i := i + 1;
    }
  }

  predicate Ascending(xs: seq<real>)
  {
    forall i, j :: 0 <= i < j < |xs| ==> xs[i] <= xs[j]
  }

  /** How many of `xs` are at most `v`. */
  function CountAtMost(v: real, xs: seq<real>): nat
    decreases |xs|
  {
    if |xs| == 0 then 0 else (if xs[0] <= v then 1 else 0) + CountAtMost(v, xs[1..])
  }

  /** With ascending numeric thresholds the bucket of `v` is the number of
      thresholds at or below `v`. */
  lemma {:induction false} NumericBucketCountsThresholds(v: real, xs: seq<real>)
    requires Ascending(xs)
    ensures BucketIndex(Some(TNumber), Num(v), Nums(xs)) == CountAtMost(v, xs)
    decreases |xs|
  {
    if |xs| > 0 {
      var vs, ts := Nums(xs), Nums(xs[1..]);
      assert vs[1..] == ts;
      if v < xs[0] {
        AllAboveCountZero(v, xs[1..]);
      } else {
        NumericBucketCountsThresholds(v, xs[1..]);
      }
    }
  }

  lemma {:induction false} AllAboveCountZero(v: real, xs: seq<real>)
    requires forall i :: 0 <= i < |xs| ==> v < xs[i]
    ensures CountAtMost(v, xs) == 0
    decreases |xs|
  {
    if |xs| > 0 {
      AllAboveCountZero(v, xs[1..]);
    }
  }

  /** With a categorical input, a value equal to the k-th of distinct
      categories falls into bucket k; one equal to none falls into the last
      bucket, the "others" bucket. */
  lemma CategoryBucket(v: real, xs: seq<real>)
    requires forall i, j :: 0 <= i < j < |xs| ==> xs[i] != xs[j]
    ensures forall k :: 0 <= k < |xs| && xs[k] == v ==> BucketIndex(Some(TCategory), Num(v), Nums(xs)) == k
    ensures (forall k :: 0 <= k < |xs| ==> xs[k] != v) ==> BucketIndex(Some(TCategory), Num(v), Nums(xs)) == |xs|
  {
  }

  /** The documented example: thresholds 30, 80, 120 give four buckets. */
  lemma NumericExample()
    ensures BucketIndex(Some(TNumber), Num(10.0), Nums([30.0, 80.0, 120.0])) == 0
    ensures BucketIndex(Some(TNumber), Num(30.0), Nums([30.0, 80.0, 120.0])) == 1
    ensures BucketIndex(Some(TNumber), Num(80.0), Nums([30.0, 80.0, 120.0])) == 2
    ensures BucketIndex(Some(TNumber), Num(200.0), Nums([30.0, 80.0, 120.0])) == 3
  {
    var vs := Nums([30.0, 80.0, 120.0]);
    assert vs == [Num(30.0), Num(80.0), Num(120.0)];
  }

  /** `_compile`: the input must be a number or a category and every
      argument of the same type; the result says whether the last bucket is
      the "others" bucket (categorical input). */
  function CompileCheck(tinput: Option<Ty>, targs: seq<Option<Ty>>): (r: Result<bool>)
    ensures r.Ok? <==>
      tinput.Some? && Classifiable(tinput.value) && forall i :: 0 <= i < |targs| ==> targs[i] == tinput
    ensures r.Ok? ==> (r.value <==> tinput == Some(TCategory))
  {
    if tinput.None? || !Classifiable(tinput.value) then Err("buckets(): invalid first parameter type")
    else if exists i :: 0 <= i < |targs| && targs[i] != tinput then Err("buckets(): invalid parameter type")
    else Ok(tinput == Some(TCategory))
  }

  /** After compiling, the loose check holds too. */
  lemma CompiledArgsPassLooseCheck(tinput: Ty, args: seq<Expr>)
    requires CompileCheck(Some(tinput), seq(|args|, i requires 0 <= i < |args| => LooseType(args[i]))).Ok?
    ensures ArgsLooseOk(Some(tinput), seq(|args|, i requires 0 <= i < |args| => Some(args[i])))
  {
    var ts := seq(|args|, i requires 0 <= i < |args| => LooseType(args[i]));
    var cs := seq(|args|, i requires 0 <= i < |args| => Some(args[i]));
    assert Classifiable(tinput);
    forall i | 0 <= i < |args|
      ensures cs[i].Some? && LooseType(cs[i].value) == Some(tinput)
    {
      assert ts[i] == Some(tinput);
    }
  }

  function Spaces(n: nat): (s: string)
    ensures |s| == n && forall i :: 0 <= i < n ==> s[i] == ' '
  {
    seq(n, _ => ' ')
  }

  /** The comparison the GLSL uses: `==` for categories, `<` otherwise. */
  function Cmp(inputType: Option<Ty>): string
  {
    if inputType == Some(TCategory) then "==" else "<"
  }

  /** The GLSL function name of node `uid`. */
  function FuncName(uid: nat): string
  {
    "buckets" + Strings.NatToString(uid)
  }

  /** Distinct nodes get distinct GLSL functions. */
  lemma FuncNamesDistinct(a: nat, b: nat)
    requires a != b
    ensures FuncName(a) != FuncName(b)
  {
    Strings.PrefixedNamesDistinct("buckets", a, b);
  }

  /** One `if` branch of the generated function; all but the first are `else if`. */
  function Branch(index: nat, cmp: string, arg: string): string
  {
    (if index > 0 then "else" else "") + " if (x" + cmp + "(" + arg + ")){\n" +
    Spaces(16) + "return " + Strings.NatToString(index) + ".;\n" + Spaces(12) + "}"
  }

  function Branches(cmp: string, args: seq<string>): (bs: seq<string>)
    ensures |bs| == |args| && forall i :: 0 <= i < |args| ==> bs[i] == Branch(i, cmp, args[i])
  {
    seq(|args|, i requires 0 <= i < |args| => Branch(i, cmp, args[i]))
  }

  /** The preface `_applyToShaderSource` adds: the bucket function, whose
      fall-through returns the last bucket, `numCategories - 1`. The
      `_prefaceCode` wrapper of the base class is not part of this model. */
  function FuncText(uid: nat, inputType: Option<Ty>, args: seq<string>): (s: string)
  {
    "float " + FuncName(uid) + "(" + FuncRest(inputType, args)
  }

  /** The function text after its name: the parameter, the branches and
      the fall-through `return`. */
  function FuncRest(inputType: Option<Ty>, args: seq<string>): string
  {
    "float x){\n" + Spaces(12) + Strings.Join("", Branches(Cmp(inputType), args)) +
    "\n" + Spaces(12) + "return " + Strings.NatToString(|args|) + ".;\n" + Spaces(8) + "}"
  }

  /** The inline part: a call of the bucket function on the input's GLSL. */
  function Inline(uid: nat, input: string): string
  {
    FuncName(uid) + "(" + input + ")"
  }

  /** The inline calls the function this node's preface defines, and no
      other node's: its text begins with `buckets<uid>(`, the preface's
      function text begins with `float buckets<uid>(`, and no other uid's
      name followed by `(` begins the inline. */
  lemma InlineCallsOwnFunction(uid: nat, input: string, inputType: Option<Ty>, args: seq<string>)
    ensures var call := FuncName(uid) + "(";
      call <= Inline(uid, input) && "float " + call <= FuncText(uid, inputType, args)
    ensures forall other: nat :: other != uid ==> !(FuncName(other) + "(" <= Inline(uid, input))
  {
    CallPrefix(FuncName(uid) + "(", input + ")");
    DefinitionPrefix(uid, inputType, args);
    forall other: nat | other != uid
      ensures !(FuncName(other) + "(" <= Inline(uid, input))
    {
      Strings.NumberedCallsDistinct("buckets", uid, other, input + ")");
    }
  }

  lemma CallPrefix(call: string, rest: string)
    ensures call <= call + rest
  {
    assert (call + rest)[..|call|] == call;
  }

  lemma DefinitionPrefix(uid: nat, inputType: Option<Ty>, args: seq<string>)
    ensures "float " + FuncName(uid) + "(" <= FuncText(uid, inputType, args)
  {
    CallPrefix("float " + FuncName(uid) + "(", FuncRest(inputType, args));
  }

  /** The children prefaces come first, then the bucket function: the text
      given to the `_prefaceCode` wrapper, which is not part of this model. */
  function Preface(uid: nat, inputType: Option<Ty>, childPrefaces: seq<string>, args: seq<string>): (s: string)
    ensures |s| >= |FuncText(uid, inputType, args)|
    ensures s[|s| - |FuncText(uid, inputType, args)|..] == FuncText(uid, inputType, args)
  {
    Strings.Join("", childPrefaces) + FuncText(uid, inputType, args)
  }

  /** What the GLSL `if`/`else if` chain returns, from branch `start` on:
      the index written in the first branch whose test holds, else the
      final `return`. */
  function GpuChain(isCategory: bool, x: real, args: seq<real>, start: nat): real
    requires start <= |args|
    decreases |args| - start
  {
    if start == |args| then |args| as real
    else if (if isCategory then x == args[start] else x < args[start]) then start as real
    else GpuChain(isCategory, x, args, start + 1)
  }

  /** The shader's bucket function computes the host's bucket index on
      numeric values, for both input types. */
  lemma {:induction false} GpuAgreesWithEval(inputType: Ty, x: real, args: seq<real>, start: nat)
    requires Classifiable(inputType) && start <= |args|
    ensures GpuChain(inputType == TCategory, x, args, start) ==
            (start + BucketIndex(Some(inputType), Num(x), Nums(args[start..]))) as real
    decreases |args| - start
  {
    if start < |args| {
      GpuAgreesWithEval(inputType, x, args, start + 1);
      assert Nums(args[start..])[1..] == Nums(args[start + 1..]);
    }
  }
}
