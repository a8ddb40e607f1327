/** `top(property, buckets)`: the `buckets` most frequent categories of a
    categorical property get buckets 1 .. buckets; every other category
    gets bucket 0, the "others" bucket. On the GPU the bucket comes from a
    1024-pixel lookup texture indexed by category ID. */
module Top {
  import opened Wrappers
  import opened Types
  import opened Ast
  import Strings
  import Draw

  /** Width of the lookup texture, in pixels of 4 bytes. */
  const TextureWidth: nat := 1024

  /** `numCategories`: the requested buckets plus the others bucket. */
  function NumCategories(bucketsValue: real): (n: int)
    ensures bucketsValue - 0.5 < (n - 1) as real <= bucketsValue + 0.5
  {
    Round(bucketsValue) + 1
  }

  /** `_compile`: the property must be a category; the node then is one,
      with an others bucket. */
  function CompileCheck(tproperty: Option<Ty>): (r: Result<(Ty, bool)>)
    ensures r.Ok? <==> tproperty == Some(TCategory)
    ensures r.Ok? ==> r.value == (TCategory, true)
  {
    if tproperty != Some(TCategory) then Err("top() first argument must be of type category")
    else Ok((TCategory, true))
  }

  /** Whether a key matches the property value under JavaScript `==`. */
  predicate KeyMatches(key: Option<int>, p: Value)
  {
    key.Some? && p.Num? && key.value as real == p.x
  }

  /** The last position whose key matches `p` (the `map` callback keeps
      overwriting `ret`, so the last match wins). */
  function LastMatch(keys: seq<Option<int>>, p: Value): (r: Option<nat>)
    ensures r.None? <==> forall i :: 0 <= i < |keys| ==> !KeyMatches(keys[i], p)
    ensures r.Some? ==> r.value < |keys| && KeyMatches(keys[r.value], p) &&
                        forall j :: r.value < j < |keys| ==> !KeyMatches(keys[j], p)
    decreases |keys|
  {
    if |keys| == 0 then None
    else if KeyMatches(keys[|keys| - 1], p) then Some(|keys| - 1)
    else
      var r := LastMatch(keys[..|keys| - 1], p);
      assert forall i :: 0 <= i < |keys| - 1 ==> keys[..|keys| - 1][i] == keys[i];
      r
  }

  /** The bucket of the matched rank: `i + 1` for the first `buckets`
      ranks, 0 (others) beyond; `undefined` when nothing matched. */
  function BucketOf(keys: seq<Option<int>>, p: Value, buckets: int): (v: Value)
    ensures v.Undef? <==> LastMatch(keys, p).None?
    ensures v.Num? ==> v.x == if LastMatch(keys, p).value < buckets then LastMatch(keys, p).value as real + 1.0 else 0.0
  {
    match LastMatch(keys, p)
    case None => Undef
    case Some(i) => Num(if i < buckets then i as real + 1.0 else 0.0)
  }

  /** The loop of `eval` over the category names with their keys. */
  method EvalLoop(keys: seq<Option<int>>, p: Value, buckets: int) returns (ret: Value)
    ensures ret == BucketOf(keys, p, buckets)
  {
    ret := Undef;
    var i := 0;
    while i < |keys|
      invariant 0 <= i <= |keys|
      invariant ret == BucketOf(keys[..i], p, buckets)
    {
      assert keys[..i + 1][..i] == keys[..i];
      if KeyMatches(keys[i], p) {
        ret := Num(if i < buckets then i as real + 1.0 else 0.0);
      }
      i := i + 1;
    }
    assert keys[..i] == keys;
  }

  /** Keys as written in `eval`: a name's key is its position, compared
      with the property value, which is a category ID. */
  function RankKeys(names: seq<string>): (ks: seq<Option<int>>)
    ensures |ks| == |names| && forall i :: 0 <= i < |names| ==> ks[i] == Some(i)
  {
    seq(|names|, i requires 0 <= i < |names| => Some(i))
  }

  /** Keys by category ID, as `_preDraw` uses them: a name's key is its ID. */
  function IdKeys(names: seq<string>, ids: map<string, int>): (ks: seq<Option<int>>)
    ensures |ks| == |names|
    ensures forall i :: 0 <= i < |names| ==> ks[i] == if names[i] in ids then Some(ids[names[i]]) else None
  {
    seq(|names|, i requires 0 <= i < |names| => if names[i] in ids then Some(ids[names[i]]) else None)
  }

  /** `eval` as written: ranks compared with category IDs. */
  function EvalAsWritten(names: seq<string>, p: Value, bucketsValue: real): Value
  {
    BucketOf(RankKeys(names), p, Round(bucketsValue))
  }

  /** `eval` corrected to look the property's category up by ID, the way
      the lookup texture does. */
  function EvalById(names: seq<string>, ids: map<string, int>, p: Value, bucketsValue: real): Value
  {
    BucketOf(IdKeys(names, ids), p, Round(bucketsValue))
  }

  /** `eval` with the column lookup: a property without a metadata column
      makes the source throw; otherwise the property value is compared with
      each category's rank, as written. */
  function Eval(meta: Metadata, propertyName: string, p: Value, bucketsValue: real): (r: Result<Value>)
    ensures r.Err? <==> FindColumn(meta.columns, propertyName).None?
    ensures r.Ok? ==> r.value == EvalAsWritten(FindColumn(meta.columns, propertyName).value.categoryNames, p, bucketsValue)
  {
    match FindColumn(meta.columns, propertyName)
    case None => Err("top(): no metadata column for the property")
    case Some(c) => Ok(EvalAsWritten(c.categoryNames, p, bucketsValue))
  }

  /** What the value of `eval` means: the feature of category ID `p` gets
      bucket `p + 1` when `p` is the rank of one of the first `buckets`
      names, the others bucket 0 for a later rank, and `undefined` when `p`
      is no rank at all. The name at that rank plays no part. */
  lemma EvalBucketsByRank(names: seq<string>, p: real, bucketsValue: real)
    ensures var v := EvalAsWritten(names, Num(p), bucketsValue);
      (v.Undef? <==> !(p == p.Floor as real && 0 <= p.Floor < |names|)) &&
      (v.Num? ==> v.x == if p.Floor < Round(bucketsValue) then p + 1.0 else 0.0)
  {
    var keys := RankKeys(names);
    if p == p.Floor as real && 0 <= p.Floor < |names| {
      assert KeyMatches(keys[p.Floor], Num(p));
    }
  }

  /** The `Uint8Array` after the callback has run for the first `k` names:
      all zeros, then for each of the first `buckets` names the alpha byte
      of its ID's pixel set to its rank plus one, wrapped to a byte.
      Writes outside the array (an ID outside [0, 1024) or a name without an
      ID) are dropped, as typed arrays drop them. */
  function PixelsAfter(names: seq<string>, ids: map<string, int>, buckets: int, k: nat): (px: seq<int>)
    requires k <= |names|
    ensures |px| == 4 * TextureWidth
    decreases k
  {
    if k == 0 then seq(4 * TextureWidth, _ => 0)
    else
      var prev := PixelsAfter(names, ids, buckets, k - 1);
      var name := names[k - 1];
      if k - 1 < buckets && name in ids && 0 <= ids[name] < TextureWidth then
        prev[4 * ids[name] + 3 := k % 256]
      else prev
  }

  function TopPixels(names: seq<string>, ids: map<string, int>, buckets: int): seq<int>
  {
    PixelsAfter(names, ids, buckets, |names|)
  }

  /** The texture-filling loop of `_preDraw`. */
  method FillPixels(names: seq<string>, ids: map<string, int>, buckets: int) returns (pixels: array<int>)
    ensures fresh(pixels)
    ensures pixels[..] == TopPixels(names, ids, buckets)
  {
    pixels := new int[4 * TextureWidth](_ => 0);
    assert pixels[..] == PixelsAfter(names, ids, buckets, 0);
    var i := 0;
    while i < |names|
      invariant 0 <= i <= |names|
      invariant pixels[..] == PixelsAfter(names, ids, buckets, i)
      modifies pixels
    {
      var name := names[i];
      if i < buckets && name in ids && 0 <= ids[name] < TextureWidth {
        pixels[4 * ids[name] + 3] := (i + 1) % 256;
      }
      i := i + 1;
    }
  }

  /** Every byte of the texture is a byte, and only alpha bytes are set. */
  lemma {:induction false} PixelsShape(names: seq<string>, ids: map<string, int>, buckets: int, k: nat)
    requires k <= |names|
    ensures forall j :: 0 <= j < 4 * TextureWidth ==> 0 <= PixelsAfter(names, ids, buckets, k)[j] < 256
    ensures forall j :: 0 <= j < 4 * TextureWidth && j % 4 != 3 ==> PixelsAfter(names, ids, buckets, k)[j] == 0
    decreases k
  {
    if k > 0 {
      PixelsShape(names, ids, buckets, k - 1);
    }
  }

  /** Names are distinct and so are their IDs. */
  predicate InjectiveIds(names: seq<string>, ids: map<string, int>)
  {
    (forall i, j :: 0 <= i < j < |names| ==> names[i] != names[j]) &&
    (forall i, j :: 0 <= i < j < |names| && names[i] in ids && names[j] in ids ==> ids[names[i]] != ids[names[j]])
  }

  /** Under distinct IDs, the alpha byte of a category's pixel holds the
      category's rank plus one when the rank is below `buckets`, else 0. */
  lemma {:induction false} AlphaByteOfRank(names: seq<string>, ids: map<string, int>, buckets: int, k: nat, r: nat)
    requires k <= |names| && r < |names| && InjectiveIds(names, ids)
    requires names[r] in ids && 0 <= ids[names[r]] < TextureWidth
    ensures PixelsAfter(names, ids, buckets, k)[4 * ids[names[r]] + 3] ==
            if r < k && r < buckets then (r + 1) % 256 else 0
    decreases k
  {
    if k > 0 {
      AlphaByteOfRank(names, ids, buckets, k - 1, r);
      var n := names[k - 1];
      if k - 1 != r && n in ids && 0 <= ids[n] < TextureWidth {
        assert ids[n] != ids[names[r]];
        assert 4 * ids[n] + 3 != 4 * ids[names[r]] + 3;
      }
    }
  }

  /** What the GLSL `255.*texture2D(topMap, vec2(id/1024., 0.5)).a` reads
      for category ID `id`: the alpha byte of pixel `id`. */
  function GpuTop(pixels: seq<int>, id: int): int
    requires |pixels| == 4 * TextureWidth && 0 <= id < TextureWidth
  {
    pixels[4 * id + 3]
  }

  /** The shader's bucket is the corrected host bucket, for every category
      of the column with an ID inside the texture, when fewer than 256
      buckets keep the bytes from wrapping. */
  lemma GpuAgreesWithEvalById(names: seq<string>, ids: map<string, int>, bucketsValue: real, r: nat)
    requires InjectiveIds(names, ids) && r < |names| && names[r] in ids && 0 <= ids[names[r]] < TextureWidth
    requires 0 <= Round(bucketsValue) <= 255
    ensures EvalById(names, ids, Num(ids[names[r]] as real), bucketsValue) ==
            Num(GpuTop(TopPixels(names, ids, Round(bucketsValue)), ids[names[r]]) as real)
  {
    var p := Num(ids[names[r]] as real);
    var keys := IdKeys(names, ids);
    AlphaByteOfRank(names, ids, Round(bucketsValue), |names|, r);
    assert KeyMatches(keys[r], p);
    assert LastMatch(keys, p) == Some(r);
  }

  /** When every name's ID is its rank, as written and corrected agree. */
  lemma RankAlignedIdsAgree(names: seq<string>, ids: map<string, int>, p: Value, bucketsValue: real)
    requires forall i :: 0 <= i < |names| ==> names[i] in ids && ids[names[i]] == i
    ensures EvalAsWritten(names, p, bucketsValue) == EvalById(names, ids, p, bucketsValue)
  {
    assert RankKeys(names) == IdKeys(names, ids);
  }

  /** The discrepancy: with IDs not in rank order (`a` has ID 1, `b` ID 0)
      and one bucket, `eval` as written puts the feature of category ID 0
      (`b`, rank 1) in bucket 1, while the texture, and the corrected eval,
      put it in the others bucket 0. */
  lemma AsWrittenDisagreesWithTexture()
    ensures EvalAsWritten(["a", "b"], Num(0.0), 1.0) == Num(1.0)
    ensures EvalById(["a", "b"], map["a" := 1, "b" := 0], Num(0.0), 1.0) == Num(0.0)
    ensures GpuTop(TopPixels(["a", "b"], map["a" := 1, "b" := 0], 1), 0) == 0
  {
    var names, ids := ["a", "b"], map["a" := 1, "b" := 0];
    assert RankKeys(names) == [Some(0), Some(1)];
    assert IdKeys(names, ids) == [Some(1), Some(0)];
    assert LastMatch([Some(0), Some(1)], Num(0.0)) == Some(0) by {
      assert LastMatch([Some(0), Some(1)][..1], Num(0.0)) == Some(0);
    }
    AlphaByteOfRank(names, ids, 1, 2, 1);
  }

  /** GLSL of `_applyToShaderSource`: a sampler uniform per node and a
      lookup of the property's category ID in it. The preface is the text
      before the base class's `_prefaceCode` wrapper, which is not part of
      this model. */
  function Preface(uid: nat, propertyPreface: string): string
  {
    propertyPreface + "uniform sampler2D topMap" + Strings.NatToString(uid) + ";\n"
  }

  function Inline(uid: nat, propertyInline: string): string
  {
    "(255.*texture2D(topMap" + Strings.NatToString(uid) + ", vec2(" + propertyInline + "/1024., 0.5)).a)"
  }

  /** The lookup texture side of a compiled `top` node. */
  class TopTexture {
    /** `_meta` column of the property, looked up at draw time. */
    var column: Option<Column>
    var ids: map<string, int>
    /** `_textureBuckets`: `None` is the `null` `_compile` leaves. */
    var textureBuckets: Option<int>
    /** The texture's content as uploaded by `texImage2D`. */
    var texture: seq<int>

    /** The uploaded texture is the one of the cached bucket count. */
    predicate Valid()
      reads this
    {
      textureBuckets.Some? && column.Some? ==>
        texture == TopPixels(column.value.categoryNames, ids, textureBuckets.value)
    }

    /** `_compile`'s part: keep the metadata and forget the texture. */
    constructor(meta: Metadata, propertyName: string)
      ensures column == FindColumn(meta.columns, propertyName) && ids == meta.categoryIDs
      ensures textureBuckets.None? && Valid()
    {
      column := FindColumn(meta.columns, propertyName);
      ids := meta.categoryIDs;
      textureBuckets := None;
      texture := [];
    }

    /** `_preDraw`: the bucket count, capped at the property's number of
        categories, is compared with the cached one; only a different count
        rebuilds and uploads the texture. The texture is then bound to the
        next free unit. A missing metadata column makes the rebuild throw
        after the count is cached: `ok` is false then and no unit is used;
        a later call with the same count skips the rebuild, so it no longer
        throws and takes a unit. */
    method PreDraw(bucketsValue: real, propertyNumCategories: int, dm: Draw.DrawMetadata) returns (ok: bool, unit: int)
      requires Valid()
      modifies this, dm
      ensures Valid()
      ensures var b := if Round(bucketsValue) > propertyNumCategories then propertyNumCategories else Round(bucketsValue);
              textureBuckets == Some(b) &&
              (ok <==> old(textureBuckets) == Some(b) || column.Some?) &&
              (old(textureBuckets) != Some(b) && ok ==> texture == TopPixels(column.value.categoryNames, ids, b)) &&
              (old(textureBuckets) == Some(b) ==> texture == old(texture))
      ensures column == old(column) && ids == old(ids)
      ensures ok ==> unit == old(dm.freeTexUnit) && dm.freeTexUnit == old(dm.freeTexUnit) + 1
      ensures !ok ==> dm.freeTexUnit == old(dm.freeTexUnit)
    {
      var buckets := Round(bucketsValue);
      if buckets > propertyNumCategories {
        buckets := propertyNumCategories;
      }
      unit := dm.freeTexUnit;
      if textureBuckets != Some(buckets) {
        textureBuckets := Some(buckets);
        if column.None? {
          ok := false;
          return;
        }
        var pixels := FillPixels(column.value.categoryNames, ids, buckets);
        texture := pixels[..];
      }
      ok := true;
      unit := dm.TakeUnit();
    }
  }
}
