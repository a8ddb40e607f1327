/** The closed set of expression types, the values expressions evaluate to,
    dataset metadata, and the JavaScript numeric helpers the expressions use.
    The source's `utils.js` (type checkers, `clamp`) is not part of this
    model; its checkers are stated here as small total functions. */
module Types {
  import opened Wrappers

  /** The `type` tag of an expression node. `TFloat` is the tag the older
      `style` expressions (ramp) test for. */
  datatype Ty =
    | TNumber | TCategory | TColor | TDate | TPalette | TCustomPalette
    | TFade | TOrderer | TPropertyReference | TFloat

  /** A color as `eval` returns it: `r`, `g`, `b` in [0, 255], `a` in [0, 1]. */
  datatype ColorValue = ColorValue(r: real, g: real, b: real, a: real)

  /** What an expression evaluates to on the host. Category values are the
      numeric category IDs the dataframe stores; `Record` is the
      `{r, g, b, a}` object a color expression returns, whose channels are
      whatever its children evaluated to; `Undef` is JavaScript's
      `undefined` and `NaN` the number NaN. */
  datatype Value = Num(x: real) | Record(r: Value, g: Value, b: Value, a: Value) | Undef | NaN

  /** JavaScript `==` on the values above: numbers compare by value,
      `undefined == undefined`, NaN equals nothing, and records are distinct
      objects. */
  predicate LooseEq(a: Value, b: Value)
  {
    (a.Num? && b.Num? && a.x == b.x) || (a.Undef? && b.Undef?)
  }

  /** Numbers as values. */
  function Nums(xs: seq<real>): (vs: seq<Value>)
    ensures |vs| == |xs| && forall i :: 0 <= i < |xs| ==> vs[i] == Num(xs[i])
  {
    seq(|xs|, i requires 0 <= i < |xs| => Num(xs[i]))
  }

  /** JavaScript `<` on the values above: false unless both are numbers. */
  predicate LooseLt(a: Value, b: Value)
  {
    a.Num? && b.Num? && a.x < b.x
  }

  /** One column of the dataset metadata. */
  datatype Column = Column(name: string, ty: Ty, categoryNames: seq<string>, min: real, max: real)

  /** Dataset metadata: the columns, and the maps from category names to
      numeric IDs and back. */
  datatype Metadata = Metadata(columns: seq<Column>, categoryIDs: map<string, int>, categoryIDsToName: map<int, string>)

  /** `columns.find(c => c.name == name)`: the first column with that name. */
  function FindColumn(columns: seq<Column>, name: string): (r: Option<Column>)
    ensures r.Some? <==> exists i :: 0 <= i < |columns| && columns[i].name == name
    ensures r.Some? ==> r.value in columns && r.value.name == name
    ensures r.Some? ==> exists i :: 0 <= i < |columns| && columns[i] == r.value &&
                                   forall j :: 0 <= j < i ==> columns[j].name != name
    decreases |columns|
  {
    if |columns| == 0 then None
    else if columns[0].name == name then Some(columns[0])
    else
      var r := FindColumn(columns[1..], name);
      assert forall i :: 0 < i < |columns| ==> columns[i] == columns[1..][i - 1];
      if r.Some? then
        assert exists i :: 0 <= i < |columns| && columns[i] == r.value &&
                           forall j :: 0 <= j < i ==> columns[j].name != name by {
          var k :| 0 <= k < |columns[1..]| && columns[1..][k] == r.value &&
                   forall j :: 0 <= j < k ==> columns[1..][j].name != name;
          assert columns[k + 1] == r.value;
          assert forall j :: 0 <= j < k + 1 ==> columns[j].name != name by {
            forall j | 0 <= j < k + 1 ensures columns[j].name != name {
              if j > 0 { assert columns[j] == columns[1..][j - 1]; }
            }
          }
        }
        r
      else r
  }

  /** JavaScript `Math.round`: the nearest integer, halves rounded up. */
  function Round(x: real): (n: int)
    ensures x - 0.5 < n as real <= x + 0.5
  {
    (x + 0.5).Floor
  }

  function Floor(x: real): int { x.Floor }

  /** JavaScript `Math.ceil`. */
  function Ceil(x: real): (n: int)
    ensures x <= n as real < x + 1.0
  {
    -((-x).Floor)
  }

  /** `clamp(x, lo, hi)` = `Math.min(Math.max(x, lo), hi)`. */
  function Clamp(x: real, lo: real, hi: real): real
  {
    if x < lo then lo else if x > hi then hi else x
  }

  function Abs(x: real): real { if x < 0.0 then -x else x }

  function Min(x: real, y: real): real { if x <= y then x else y }

  /** JavaScript `x % y` for finite `x` and `y != 0`: the remainder takes the
      sign of `x` (truncating division). */
  function JsRem(x: real, y: real): real
    requires y != 0.0
  {
    var q := x / y;
    var t := if q >= 0.0 then q.Floor else -((-q).Floor);
    x - y * t as real
  }

  /** A prefix one element longer is the shorter prefix plus that element. */
  lemma TakeOneMore<T>(s: seq<T>, k: nat)
    requires k < |s|
    ensures s[..k + 1] == s[..k] + [s[k]]
  {
  }
}
