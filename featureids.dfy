/** The feature-ID buffer `bind` uploads: every vertex carries the texel
    coordinates of its feature in the style textures, which are
    `RTT_WIDTH` texels wide and as many rows high as the features need. */
module FeatureIds {
  import opened Arith
  import HitTest

  /** `numFeatures`: the number of breakpoints, or one feature per vertex
      pair when there are none (points). */
  function NumFeatures(numCoords: nat, bp: seq<int>): nat
  {
    if |bp| > 0 then |bp| else numCoords / 2
  }

  /** `Math.ceil(numFeatures / width)`: the rows the style textures need. */
  function TextureHeight(numFeatures: nat, width: nat): (h: nat)
    requires width > 0
    ensures numFeatures <= h * width
    ensures h > 0 ==> (h - 1) * width < numFeatures
  {
    var h := (numFeatures + width - 1) / width;
    assert h * width <= numFeatures + width - 1 < (h + 1) * width;
    h
  }

  /** Whether the id loop advances `index` at coordinate `i`: at every
      vertex but the first when there are no breakpoints, else when `i`
      reaches the next breakpoint. */
  predicate Advances(bp: seq<int>, index: nat, i: nat)
  {
    (|bp| == 0 && i > 0) || (index < |bp| && i == bp[index])
  }

  /** The feature index the loop holds at vertex `k` (coordinate `2k`). */
  function IndexAt(bp: seq<int>, k: nat): nat
    decreases k
  {
    var prev := if k == 0 then 0 else IndexAt(bp, k - 1);
    if Advances(bp, prev, 2 * k) then prev + 1 else prev
  }

  /** The texel column of feature `index`, scaled to [0, 1]. */
  function IdX(index: nat, width: nat): real
    requires width >= 2
  {
    (index % width) as real / (width - 1) as real
  }

  /** The texel row of feature `index`, scaled to [0, 1]; 0.5 when the
      textures have a single row. */
  function IdY(index: nat, width: nat, height: nat): real
    requires width >= 2
  {
    if height > 1 then (index / width) as real / (height - 1) as real else 0.5
  }

  /** The whole buffer: two coordinates per vertex. */
  function Ids(bp: seq<int>, numCoords: nat, width: nat, height: nat): (ids: seq<real>)
    requires width >= 2 && numCoords % 2 == 0
    ensures |ids| == numCoords
  {
    seq(numCoords, j requires 0 <= j < numCoords =>
      if j % 2 == 0 then IdX(IndexAt(bp, j / 2), width) else IdY(IndexAt(bp, j / 2), width, height))
  }

  /** The id loop of `bind`, writing the Float32Array in place. */
  method FillIds(numCoords: nat, bp: seq<int>, width: nat, height: nat) returns (ids: array<real>)
    requires width >= 2 && numCoords % 2 == 0
    ensures fresh(ids) && ids[..] == Ids(bp, numCoords, width, height)
  {
    ids := new real[numCoords];
    var index := 0;
    var i := 0;
    while i < numCoords
      invariant 0 <= i <= numCoords && i % 2 == 0
      invariant index == if i == 0 then 0 else IndexAt(bp, i / 2 - 1)
      invariant forall j :: 0 <= j < i ==> ids[j] == Ids(bp, numCoords, width, height)[j]
      decreases numCoords - i
    {
      if (|bp| == 0 && i > 0) || (index < |bp| && i == bp[index]) {
        index := index + 1;
      }
      assert index == IndexAt(bp, i / 2);
      ids[i + 0] := (index % width) as real / (width - 1) as real;
      ids[i + 1] := if height > 1 then (index / width) as real / (height - 1) as real else 0.5;
      i := i + 2;
    }
    assert ids[..] == Ids(bp, numCoords, width, height);
  }

  /** Without breakpoints, vertex `k` is feature `k`. */
  lemma {:induction false} OneFeaturePerVertex(bp: seq<int>, k: nat)
    requires |bp| == 0
    ensures IndexAt(bp, k) == k
  {
    if k > 0 {
      OneFeaturePerVertex(bp, k - 1);
    }
  }

  /** The index never decreases and steps by at most one per vertex. */
  lemma {:induction false} IndexAtMonotone(bp: seq<int>, k: nat, k2: nat)
    requires k <= k2
    ensures IndexAt(bp, k) <= IndexAt(bp, k2) <= IndexAt(bp, k) + (k2 - k)
    decreases k2
  {
    if k2 > k {
      IndexAtMonotone(bp, k, k2 - 1);
    }
  }

  /** Breakpoints as the decoder writes them for lines and polygons. */
  predicate EvenBreakpoints(bp: seq<int>)
  {
    |bp| > 0 &&
    (forall j :: 0 <= j < |bp| ==> bp[j] > 0 && bp[j] % 2 == 0) &&
    (forall j, k :: 0 <= j < k < |bp| ==> bp[j] < bp[k])
  }

  /** With increasing even breakpoints, vertex `k` gets the feature whose
      run holds its coordinate, the same feature the hit-test scan uses. */
  lemma {:induction false} IndexIsOwner(bp: seq<int>, k: nat)
    requires EvenBreakpoints(bp)
    ensures IndexAt(bp, k) == HitTest.Leading(bp, 2 * k)
  {
    if k == 0 {
      HitTest.LeadingUnique(bp, 0, 0);
    } else {
      IndexIsOwner(bp, k - 1);
      OwnerStep(bp, k);
    }
  }

  /** One vertex on, the loop's step agrees with the owning feature. */
  lemma OwnerStep(bp: seq<int>, k: nat)
    requires EvenBreakpoints(bp) && k > 0
    ensures var prev := HitTest.Leading(bp, 2 * k - 2);
      (if Advances(bp, prev, 2 * k) then prev + 1 else prev) == HitTest.Leading(bp, 2 * k)
  {
    var prev := HitTest.Leading(bp, 2 * k - 2);
    assert forall j :: 0 <= j < prev ==> bp[j] <= 2 * k;
    if prev < |bp| {
      EvenAbove(bp[prev], 2 * k);
    }
    if prev < |bp| && 2 * k == bp[prev] {
      assert prev + 1 < |bp| ==> bp[prev + 1] > 2 * k;
      HitTest.LeadingUnique(bp, 2 * k, prev + 1);
    } else {
      HitTest.LeadingUnique(bp, 2 * k, prev);
    }
  }

  lemma EvenAbove(a: int, b: int)
    requires a % 2 == 0 && b % 2 == 0 && a > b - 2
    ensures a >= b
  {
  }

  /** Every ID lies in [0, 1] when the feature fits the textures. */
  lemma IdsInUnitSquare(index: nat, width: nat, height: nat)
    requires width >= 2 && index < width * height
    ensures 0.0 <= IdX(index, width) <= 1.0
    ensures 0.0 <= IdY(index, width, height) <= 1.0
    ensures height <= 1 ==> IdY(index, width, height) == 0.5
  {
    DivUnitInterval((index % width) as real, (width - 1) as real);
    if height > 1 {
      QuotientBelow(index, width, height);
      DivUnitInterval((index / width) as real, (height - 1) as real);
    }
  }

  /** Different features that fit the textures get different IDs. */
  lemma IdsDistinguishFeatures(a: nat, b: nat, width: nat, height: nat)
    requires width >= 2 && a < width * height && b < width * height && a != b
    ensures IdX(a, width) != IdX(b, width) || IdY(a, width, height) != IdY(b, width, height)
  {
    if a % width != b % width {
      DivInjective((a % width) as real, (b % width) as real, (width - 1) as real);
    } else {
      if a / width == b / width {
        DivModDetermine(a, b, width);
      }
      QuotientBelow(a, width, height);
      QuotientBelow(b, width, height);
      if height > 1 {
        DivInjective((a / width) as real, (b / width) as real, (height - 1) as real);
      }
    }
  }

  /** For geometry as the decoder produces it (points without
      breakpoints, or well-formed triangle runs), every vertex carries a
      feature index below `numFeatures`, and so IDs inside the textures. */
  lemma BufferIdsInUnitSquare(bp: seq<int>, numCoords: nat, width: nat, k: nat)
    requires width >= 2 && numCoords % 2 == 0 && 2 * k < numCoords
    requires |bp| == 0 || HitTest.WellFormed(bp, numCoords)
    ensures var height := TextureHeight(NumFeatures(numCoords, bp), width);
      var ids := Ids(bp, numCoords, width, height);
      IndexAt(bp, k) < NumFeatures(numCoords, bp) &&
      0.0 <= ids[2 * k] <= 1.0 && 0.0 <= ids[2 * k + 1] <= 1.0
  {
    var n := NumFeatures(numCoords, bp);
    var height := TextureHeight(n, width);
    if |bp| == 0 {
      OneFeaturePerVertex(bp, k);
    } else {
      WellFormedIsEven(bp, numCoords);
      IndexIsOwner(bp, k);
      HitTest.LeadingIsOwner(bp, numCoords, 2 * k);
    }
    IdsInUnitSquare(IndexAt(bp, k), width, height);
    IdsAt(bp, numCoords, width, height, k);
  }

  lemma IdsAt(bp: seq<int>, numCoords: nat, width: nat, height: nat, k: nat)
    requires width >= 2 && numCoords % 2 == 0 && 2 * k < numCoords
    ensures Ids(bp, numCoords, width, height)[2 * k] == IdX(IndexAt(bp, k), width)
    ensures Ids(bp, numCoords, width, height)[2 * k + 1] == IdY(IndexAt(bp, k), width, height)
  {
    var ids := Ids(bp, numCoords, width, height);
    var j := 2 * k + 1;
    assert j / 2 == k && j % 2 == 1;
    var index := IndexAt(bp, j / 2);
    assert ids[j] == IdY(index, width, height);
    assert (2 * k) / 2 == k && (2 * k) % 2 == 0;
  }

  lemma WellFormedIsEven(bp: seq<int>, n: int)
    requires HitTest.WellFormed(bp, n) && |bp| > 0
    ensures EvenBreakpoints(bp)
  {
    forall j | 0 <= j < |bp|
      ensures bp[j] % 2 == 0
    {
      var q := bp[j] / 6;
      assert bp[j] == 2 * (3 * q);
    }
  }
}
