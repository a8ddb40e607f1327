# carto-vl viz expressions, dataframe and layer — a Dafny model

carto-vl draws large sets of map features with WebGL. A *viz* is written as a
tree of typed expressions such as `rgb`, `hex`, `in`, `buckets`, `top`, `ramp`
and `torque`.

Every expression node supports two things:

- a host-side `eval(feature)`, used for hit-testing and animation bookkeeping;
- a GLSL code generator, whose output must compute the same value on the GPU.

Types are checked twice:

- a loose check when an expression is built, which lets a not-yet-known type through;
- a strict check in `_compile(metadata)`, once the dataset metadata has arrived.

Classifiers that need lookup tables fill byte buffers:

- `top` fills a 1024-texel table, cached on its bucket count;
- `ramp` fills a 256-texel gradient.

Each of them takes one texture unit from the shared draw counter. The shader
compiler gives every property the shader reads a slot, in first-seen order.

A *dataframe* holds one decoded batch of geometry with its property columns.
Its lifecycle:

- it allocates property ids;
- bind builds the per-vertex feature-id buffer;
- `free()` sets every GPU handle to the `'freed'` sentinel.

The dataframe also answers "which features are under this point" with
circle and triangle tests. A *layer* validates its id, source and viz. It lets
only the latest of several overlapping updates commit, and it fires `'loaded'`
once.

The Dafny modules follow the source files:

| module | source |
|---|---|
| `Ordering`, `Rgb`, `Hex`, `Belongs`, `Buckets`, `Top`, `Torque` | one per expression file |
| `Ramp` | the style ramp |
| `ShaderCompiler` | property-slot allocation |
| `Lines` | the line vertex shader |
| `Dataframe`, with its hit tests in `HitTest` and its id buffer in `FeatureIds` | the dataframe |
| `Layer` | the API layer |

Shared modules:

- `Types`: type tags, values, metadata and the JavaScript numeric helpers;
- `Ast`: the closed expression sum, implicit casting and the construction-time type;
- `Wrappers`, `Strings`, `Arith`, `Draw`: small helpers.

The code is modelled in its own form:

- pure code becomes functions with lemmas;
- a loop becomes a method with invariants, proved against a specification function;
- state that the source updates in place becomes a class: `BucketCounter`, `TopTexture`, `Ramp`, `PropertySlots`, `DrawMetadata`, `Dataframe` and `Layer`.

Numbers are `real`, and texture bytes are `int` in `0..255`.

Where a GPU value is compared with `eval`, a function next to the exact GLSL
text computes what the GLSL computes. A lemma then proves that it agrees
with `eval`.

## Model

All source paths are relative to the repository root.

| member | source | states |
|---|---|---|
| Ordering.MakeAsc | src/core/viz/expressions/ordering.js:26-32 | `asc(by)` is built exactly when `by` is a `width()` expression. The result has type orderer and no children. |
| Ordering.MakeDesc | src/core/viz/expressions/ordering.js:56-62 | `desc(by)` is built exactly when `by` is `width()`. The result is an orderer without children. |
| Ordering.MakeNoOrder | src/core/viz/expressions/ordering.js:85-90 | `noOrder()` is an orderer without children. |
| Ordering.MakeWidth | src/core/viz/expressions/ordering.js:113-118 | `width()` is a property reference without children. |
| Ordering.OnlyWidthOrders | src/core/viz/expressions/ordering.js:27-31 | Every argument other than `width()` makes `asc` and `desc` fail, including a number and a missing argument. |
| Ast.ImplicitCast | src/core/viz/expressions/belongs.js:75 | Casting fails only for a missing argument. An expression passes through unchanged. |
| Types.LooseEq | src/core/viz/expressions/belongs.js:29 | JavaScript `==` on the values: numbers by value, undefined equal to undefined, NaN equal to nothing, and records (distinct objects) equal to nothing. |
| Types.JsRem | src/core/viz/expressions/torque.js:128 | JavaScript `%`: the quotient is truncated toward zero, so the remainder keeps the sign of the dividend. |
| Types.Round | src/core/viz/expressions/top.js:34 | `Math.round`: the nearest integer, a half rounding up. |
| Ast.CastAll | src/core/viz/expressions/belongs.js:81 | Casting a list casts each element, in order. |
| Ast.ArgNames | src/core/viz/expressions/belongs.js:89 | The child names `arg0..arg(n-1)`, in order. |
| Ast.ChildNamesDistinct | src/core/viz/expressions/buckets.js:96-99 | A node's child names are pairwise distinct. `in`/`nin` have one child per category plus `value`; `buckets` has one per breakpoint plus `input`. |
| Rgb.Make | src/core/viz/expressions/rgb.js:61-74 | Construction succeeds exactly when r, g and b pass the loose number check, and also a for `rgba`. `rgb` keeps three children and drops a fourth argument. The type is color. |
| Rgb.EvalColor | src/core/viz/expressions/rgb.js:75-82 | The result is always the `{r, g, b, a}` record of the children's values, whatever they are. A NaN or undefined channel keeps its place, and the other channels are still returned unscaled. a is the `a` child for `rgba`, and 1 for `rgb`. |
| Rgb.CompileCheck | src/core/viz/expressions/rgb.js:83-90 | Compile succeeds exactly when every channel used has type number. The type is then color. |
| Rgb.StrictImpliesLoose | src/core/viz/expressions/rgb.js:62-90 | Children that pass the strict compile check, and whose construction-time types were unknown or the same, also pass construction. |
| Rgb.Inline | src/core/viz/expressions/rgb.js:91 | The inline is `vec4(`, then each of r, g and b followed by `/255.` and separated by `, `, then the `a` child for `rgba` or the literal `1.` for `rgb`, then `)`. |
| Rgb.Gpu | src/core/viz/expressions/rgb.js:91 | What the inline computes: each `/255.` divides its channel by 255, and the fourth component is `a` or 1. |
| Rgb.GpuAgreesWithEval | src/core/viz/expressions/rgb.js:75-91 | On numeric children, every channel of the evaluated record is a number, and the GLSL color is that record with r, g and b divided by 255. |
| Hex.HexDigit | src/core/viz/expressions/hex.js:7 | A character is a hex digit exactly when it is 0-9, a-f or A-F. Its value is below 16. |
| Hex.ParseHex | src/core/viz/expressions/hex.js:7 | Parsing succeeds exactly for `#` followed by 3, 4, 6 or 8 hex digits. Channels are in 0..255 and alpha in 0..1. Forms without alpha give alpha 1. |
| Hex.MakeHex | src/core/viz/expressions/hex.js:27-36 | A non-string argument fails. A string succeeds exactly when it parses; otherwise the error ends with "Invalid hexadecimal color string". The result is a color constant. |
| Hex.Gpu | src/core/viz/expressions/hex.js:42 | What the inline `vec4` computes before its `toFixed(4)` rounding: r, g and b over 255, and alpha unchanged. |
| Hex.GpuInUnitCube | src/core/viz/expressions/hex.js:32-42 | For every parsed color, all four GLSL components lie in [0, 1], and two parsed colors with the same GLSL vector are the same color. |
| Hex.HexChar | src/core/viz/expressions/hex.js:7 | Writing a digit as a hex character and reading it back gives the digit. |
| Hex.Format8RoundTrip | src/core/viz/expressions/hex.js:7 | Every `#RRGGBBAA` string written from bytes parses back to those bytes, with alpha divided by 255. |
| Hex.ShorthandDuplicatesDigits | test/unit/core/viz/expressions/hex.test.js:18-23 | `#RGB` and `#RGBA` parse exactly as `#RRGGBB` and `#RRGGBBAA` with each digit doubled. |
| Hex.ShortExamples | test/unit/core/viz/expressions/hex.test.js:18-24 | `#FFF` gives white with alpha 1. `#FFF0` gives alpha 0, and `#FFFF` alpha 1. |
| Hex.LongExamples | test/unit/core/viz/expressions/hex.test.js:25-31 | `#FFFFFF` and `#FFFFFFFF` give alpha 1, `#FFFFFF00` gives alpha 0, and `#808080` gives grey 128. |
| Hex.ConstructorExamples | test/unit/core/viz/expressions/hex.test.js:5-15 | `#AAA` and `#808080` build colors. `#Z08080`, a number, a category and a missing argument fail. |
| Hex.HashRequired | src/core/viz/expressions/hex.js:7 | The documented formats start with `#`: `#808080` is accepted, and `808080` is refused. |
| Belongs.Make | src/core/viz/expressions/belongs.js:74-94 | Construction succeeds exactly when the value is present and loosely a category, the categories are an array or omitted (any falsy value counts as omitted, through `categories \|\| []`), and each category is loosely a category. Omitted categories become the empty list. A truthy non-array is refused. The children are kept in order, and the type is number. |
| Belongs.AnyEq | src/core/viz/expressions/belongs.js:29 | True exactly when some category equals the value, with JavaScript loose equality. |
| Belongs.EvalIn | src/core/viz/expressions/belongs.js:29 | `in` is 1 exactly when some category equals the value, and 0 exactly when none does. |
| Belongs.EvalNin | src/core/viz/expressions/belongs.js:56 | `nin` is 1 exactly when no category equals the value, and 0 exactly when one does. |
| Belongs.NaNBelongsToNothing | src/core/viz/expressions/belongs.js:29-56 | NaN equals nothing, so `in` is 0 and `nin` is 1 for NaN, even against a missing category. An undefined value does match a missing category. |
| Belongs.InNinComplement | src/core/viz/expressions/belongs.js:29-56 | `in + nin == 1` on the same inputs, and both are in [0, 1]. With no categories, `in` is 0 and `nin` is 1. |
| Belongs.CompileCheck | src/core/viz/expressions/belongs.js:98-102 | Compile succeeds exactly when the value and every category have type category. |
| Belongs.Terms | src/core/viz/expressions/belongs.js:62 | One comparison per category, in order. |
| Belongs.Term | src/core/viz/expressions/belongs.js:62 | One bracketed comparison `(<value> <op> <category>)`. |
| Belongs.Inline | src/core/viz/expressions/belongs.js:58-70 | The `IN_INLINE_MAKER` and `NIN_INLINE_MAKER` text: `0.` or `1.` without categories, otherwise the `\|\|`-joined `==` terms or the `&&`-joined `!=` terms, followed by `? 1.: 0.`. |
| Belongs.InlineShape | src/core/viz/expressions/belongs.js:58-70 | With no categories the inline is `0.` for `in` and `1.` for `nin`. Otherwise it is the bracketed comparisons followed by `? 1.: 0.`. |
| Belongs.GpuAny | src/core/viz/expressions/belongs.js:58-62 | What the `\|\|` chain of `==` terms computes: some category id equals the value. |
| Belongs.GpuAll | src/core/viz/expressions/belongs.js:65-70 | What the `&&` chain of `!=` terms computes: every category id differs from the value. |
| Belongs.GpuAgreesWithEval | src/core/viz/expressions/belongs.js:58-70 | The GLSL of `in` (`==` joined by `\|\|`) and of `nin` (`!=` joined by `&&`) computes exactly what `eval` does. |
| Buckets.Make | src/core/viz/expressions/buckets.js:70-105 | Construction succeeds exactly when the input is present, the breakpoints are an array or omitted (any falsy value counts as omitted, through `args \|\| []`), and the loose type rules hold: a known input type is number or category, and a known breakpoint type is number or category and equals a known input type. A truthy non-array is refused. The node has type category, keeps its breakpoints in order and carries the given uid. |
| Buckets.BucketCounter.New | src/core/viz/expressions/buckets.js:101 | The module counter gives each successfully built node the next uid and advances by one. A failed construction leaves it alone. |
| Buckets.NumCategories | src/core/viz/expressions/buckets.js:102 | The number of categories is at least 1: one more than the number of breakpoints. |
| Buckets.Hit | src/core/viz/expressions/buckets.js:110-112 | A breakpoint matches with `==` for category input and `<` for number input. Any other input type matches nothing. |
| Buckets.BucketIndex | src/core/viz/expressions/buckets.js:106-117 | The index is at most the number of breakpoints. No earlier breakpoint matches (`v == arg` for category input, `v < arg` for number input), and if the index is inside the list, the breakpoint there matches. |
| Buckets.Eval | src/core/viz/expressions/buckets.js:106-117 | The loop returns the specified bucket index, which is below `numCategories`. |
| Buckets.NumericBucketCountsThresholds | src/core/viz/expressions/buckets.js:112 | With ascending numeric breakpoints, the bucket is the number of breakpoints less than or equal to the value. |
| Buckets.AllAboveCountZero | src/core/viz/expressions/buckets.js:112 | A value below every breakpoint falls in bucket 0. |
| Buckets.CategoryBucket | src/core/viz/expressions/buckets.js:110-111 | With distinct category breakpoints, a value equal to breakpoint k falls in bucket k. A value equal to none falls in the last ("others") bucket. |
| Buckets.NumericExample | src/core/viz/expressions/buckets.js:106-117 | With breakpoints [30, 80, 120], the inputs 10, 30, 80 and 200 fall in buckets 0, 1, 2 and 3. |
| Buckets.CompileCheck | src/core/viz/expressions/buckets.js:118-134 | Compile succeeds exactly when the input type is number or category and every breakpoint has the input's type. `othersBucket` is then true exactly for category input. |
| Buckets.CompiledArgsPassLooseCheck | src/core/viz/expressions/buckets.js:85-94 | Breakpoints that pass the strict compile check also pass the construction-time loose check. |
| Buckets.FuncNamesDistinct | src/core/viz/expressions/buckets.js:139 | Two different uids give two different GLSL function names. |
| Buckets.Branches | src/core/viz/expressions/buckets.js:141-145 | One branch per breakpoint, in order. |
| Buckets.Branch | src/core/viz/expressions/buckets.js:141-144 | One `if (x<cmp>(<arg>)){ return <index>.; }` branch, with `else` before every branch but the first. |
| Buckets.Inline | src/core/viz/expressions/buckets.js:153 | The inline text: a call of `buckets<uid>` on the input's inline. |
| Buckets.InlineCallsOwnFunction | src/core/viz/expressions/buckets.js:139-153 | The inline begins with `buckets<uid>(`, the function text begins with `float buckets<uid>(`, and no other uid's name followed by `(` begins the inline. So the inline calls exactly the function its own preface defines. |
| Buckets.FuncText | src/core/viz/expressions/buckets.js:146-149 | The preface function: `float buckets<uid>(float x){`, the branches, and the fall-through `return numCategories - 1.`. |
| Buckets.Preface | src/core/viz/expressions/buckets.js:152 | The text given to the `_prefaceCode` wrapper ends with this node's function text, after the children's prefaces. |
| Buckets.GpuChain | src/core/viz/expressions/buckets.js:141-148 | What the `if`/`else if` chain returns: the index of the first branch whose test holds, else the fall-through count. |
| Buckets.GpuAgreesWithEval | src/core/viz/expressions/buckets.js:140-149 | The GLSL if/else chain (`==` for category input, `<` otherwise), with its fallback to `numCategories - 1`, returns the same index as `eval`. |
| Top.NumCategories | src/core/viz/expressions/top.js:54-56 | `numCategories` is `round(buckets) + 1`. |
| Top.CompileCheck | src/core/viz/expressions/top.js:44-53 | Compile succeeds exactly when the property has type category. The node then has type category and an others bucket. |
| Top.LastMatch | src/core/viz/expressions/top.js:37-41 | The last index whose key equals the property value. It is None exactly when no key matches. |
| Top.KeyMatches | src/core/viz/expressions/top.js:38 | The test `i == p`: the key is present and numerically equal to the property value. |
| Top.BucketOf | src/core/viz/expressions/top.js:36-42 | The result is undefined exactly when nothing matches. A match at index i gives i+1 when `i < buckets`, and 0 otherwise. |
| Top.EvalLoop | src/core/viz/expressions/top.js:37-41 | The loop over the category names, assigning each time its key matches, returns exactly that bucket. |
| Top.RankKeys | src/core/viz/expressions/top.js:38 | The key of the category at index i is i itself, as the source compares it. |
| Top.IdKeys | src/core/viz/expressions/top.js:83 | The key of each category is its `categoryIDs` entry, as the texture uses it. |
| Top.Eval | src/core/viz/expressions/top.js:32-43 | Evaluation fails exactly when the property has no metadata column. Otherwise it is the as-written bucket, comparing the value with each category's rank. |
| Top.EvalAsWritten | src/core/viz/expressions/top.js:36-42 | `eval` as written: the bucket of the value among the category ranks. |
| Top.EvalById | src/core/viz/expressions/top.js:83 | The corrected `eval`: the bucket of the value among the category ids, as the texture keys them. |
| Top.EvalBucketsByRank | src/core/viz/expressions/top.js:36-42 | As written, a value that is a rank r gives bucket r+1 below the bucket count and 0 from there on. Any other value, including every id that is not also a rank, gives undefined. The category that has that id plays no part. |
| Top.PixelsAfter | src/core/viz/expressions/top.js:79-85 | The buffer has exactly 4×1024 bytes. |
| Top.TopPixels | src/core/viz/expressions/top.js:79-85 | The filled lookup texture: the buffer after every category of the column has been written. |
| Top.FillPixels | src/core/viz/expressions/top.js:79-85 | The in-place fill of a fresh buffer produces exactly the specified texture. |
| Top.PixelsShape | src/core/viz/expressions/top.js:79-85 | Every byte is in 0..255, and every byte other than an alpha byte is 0. |
| Top.GpuTop | src/core/viz/expressions/top.js:61 | What `255.*texture2D(topMap, vec2(id/1024., 0.5)).a` reads: the alpha byte of pixel `id`. |
| Top.AlphaByteOfRank | src/core/viz/expressions/top.js:81-85 | With injective category ids, the alpha byte at `4*categoryIDs[name]+3` is rank+1 when rank < buckets, and 0 otherwise. |
| Top.GpuAgreesWithEvalById | src/core/viz/expressions/top.js:61 | Sampling the texture at a category's id, and scaling back by 255, gives what evaluation by category id gives. |
| Top.RankAlignedIdsAgree | src/core/viz/expressions/top.js:37-41 | When every category's id equals its index, the rank comparison the source makes agrees with the comparison by id. |
| Top.AsWrittenDisagreesWithTexture | src/core/viz/expressions/top.js:38 | With categories ["a", "b"] and ids a→1 and b→0, evaluation as written returns 1 for value 0, but the texture and evaluation by id return 0. |
| Top.Preface | src/core/viz/expressions/top.js:57-63 | The property's preface followed by `uniform sampler2D topMap<uid>;`: the text given to the `_prefaceCode` wrapper. |
| Top.Inline | src/core/viz/expressions/top.js:61 | The lookup `(255.*texture2D(topMap<uid>, vec2(<property>/1024., 0.5)).a)`. |
| Top.TopTexture.constructor | src/core/viz/expressions/top.js:44-53 | Compile keeps the metadata and resets the texture cache to empty. |
| Top.TopTexture.PreDraw | src/core/viz/expressions/top.js:70-100 | The bucket count is clamped to the property's category count and cached before the rebuild. A changed count rebuilds the buffer to the specified texture, and an unchanged one keeps it. A missing metadata column throws during the rebuild and takes no unit. A later call with the same count skips the rebuild and succeeds. Every successful call takes one texture unit. |
| Ramp.CheckArgs | src/core/style/expressions/ramp.js:32-47 | Construction succeeds exactly when there are no extra arguments, the input is present with an unknown, float or category type, and the palette is a palette or a custom palette. The ramp then has type color. |
| Ramp.GetColors | src/core/style/expressions/ramp.js:71-94 | A custom palette gives its colors unchanged. A named palette picks the sub-palette for the category count, or the longest one, and drops its last color when it is qualitative and the input has no others bucket. |
| Ramp.Uint8 | src/core/style/expressions/ramp.js:117-120 | Storing into a byte gives 0..255. It is the floor for values in [0, 256). |
| Ramp.LowIndex | src/core/style/expressions/ramp.js:111 | The lower palette index is `floor(i/256*(n-1))`, and it is a valid index. |
| Ramp.HighIndex | src/core/style/expressions/ramp.js:112 | The upper palette index is the ceiling: equal to the lower one at an exact position, one above it otherwise. |
| Ramp.Frac | src/core/style/expressions/ramp.js:115 | The blend weight is in [0, 1). It is 0 exactly when both indices coincide. |
| Ramp.Blend | src/core/style/expressions/ramp.js:116 | `low * (1 - m) + high * m`. |
| Ramp.Pixel | src/core/style/expressions/ramp.js:110-121 | The loop body as written: four bytes in 0..255, r, g and b blended between the lower and upper colors, and alpha from the lower color at both ends. |
| Ramp.BlendedPixel | src/core/style/expressions/ramp.js:113-116 | The corrected texel, with the upper end of the alpha blend taken from the upper color. |
| Ramp.BlendUp | src/core/style/expressions/ramp.js:116 | Linear blending stays between the two colors' channels. |
| Ramp.BlendScales | src/core/style/expressions/ramp.js:116 | Scaling both ends of a blend scales the blend. |
| Ramp.AsWrittenAlphaIgnoresUpperColor | src/core/style/expressions/ramp.js:114 | As written, every texel's alpha is `255 * lower.a`, whatever the upper color's alpha. |
| Ramp.AsWrittenAlphaCounterexample | src/core/style/expressions/ramp.js:114 | From opaque red (255, 0, 0, 1) to transparent black, texel 128 has red 127 and alpha 255 as written, while the corrected alpha is 127, equal to the red. |
| Ramp.FirstPixelIsFirstColor | src/core/style/expressions/ramp.js:110-121 | Texel 0 is exactly the first palette color. |
| Ramp.AlphaBlendsLikeColor | src/core/style/expressions/ramp.js:113-116 | In the corrected texel, alpha blends exactly like a color channel: for a palette whose red is its alpha times 255, every texel's alpha byte equals its red byte. The as-written texel fails this. |
| Ramp.SingleColorIsUniform | src/core/style/expressions/ramp.js:110-121 | A one-color palette gives a uniform texture. |
| Ramp.Texture | src/core/style/expressions/ramp.js:107-121 | The as-written gradient: 4×256 bytes, texel by texel. |
| Ramp.TextureAt | src/core/style/expressions/ramp.js:117-120 | Bytes 4i..4i+3 of the texture are texel i. |
| Ramp.FillTexture | src/core/style/expressions/ramp.js:107-121 | The in-place loop fills a fresh buffer with exactly the as-written gradient. |
| Ramp.CategoryKeysSpanTexture | src/core/style/expressions/ramp.js:68 | With category keys from 0 to n-1, the lookup coordinate maps 0 to 0 and n-1 to 1, and increases strictly in between. |
| Ramp.RecompileCanSelectOtherColors | src/core/style/expressions/ramp.js:71-94 | Two category counts can select different sub-palettes whose gradients differ from the first byte. Since `Compile` keeps the old texture, a recompile with such a count leaves a texture built for the old colors. |
| Ramp.Preface | src/core/style/expressions/ramp.js:63-67 | The input's preface followed by the `texRamp`, `keyMin` and `keyWidth` uniforms of this node. |
| Ramp.Inline | src/core/style/expressions/ramp.js:68 | The lookup of `(input-keyMin)/keyWidth` in the ramp texture. |
| Ramp.KeyCoordinate | src/core/style/expressions/ramp.js:68 | The coordinate that lookup computes: `(x - keyMin) / keyWidth`. |
| Ramp.Ramp.constructor | src/core/style/expressions/ramp.js:32-48 | A new ramp has type color, `minKey = 0`, `maxKey = 1`, no texture and `init` unset. |
| Ramp.Ramp.Compile | src/core/style/expressions/ramp.js:49-55 | Compile, whether first or after `_postShaderCompile`, succeeds exactly for float or category input. Category input sets `maxKey = numCategories - 1`. `minKey`, `init` and the texture are unchanged, even when the new input selects other colors. |
| Ramp.Ramp.PostShaderCompile | src/core/style/expressions/ramp.js:95-134 | The texture is built once: the first call sets `init` and builds the as-written gradient of the colors selected then, or fails without a texture on an empty color list. Later calls keep it. |
| Ramp.Ramp.PreDraw | src/core/style/expressions/ramp.js:135-143 | `keyMin` is `minKey`, `keyWidth` is `maxKey - minKey`, and exactly one texture unit is taken. |
| Torque.MakeFade | src/core/viz/expressions/torque.js:43-61 | `fade()` gives 0.15 for both. `fade(x)` gives x for both. Explicit arguments are cast. The type is fade. |
| Torque.MakeTorque | src/core/viz/expressions/torque.js:121-132 | Construction fails exactly for a non-finite duration. The duration defaults to 10 and the fade to `fade()`. A bare property input becomes `linear(p, globalMin(p), globalMax(p))`. |
| Torque.Cycle | src/core/viz/expressions/torque.js:128 | The cycle is NaN exactly for zero duration. It is in [0, 1) for non-negative time and positive duration. |
| Torque.ClampedRatio | src/core/viz/expressions/torque.js:139 | The clamped ratio is in [0, 1]. It is NaN (0/0) only when both operands are 0. |
| Torque.Distance | src/core/viz/expressions/torque.js:139 | `Math.abs(input - cycle) * duration`. |
| Torque.Eval | src/core/viz/expressions/torque.js:133-140 | The result is in [0, 1] whenever it is a number. It is NaN when the input, the cycle or the fade on the input's side is not a number. |
| Torque.OtherFadeUnused | src/core/viz/expressions/torque.js:139 | Only the fade on the input's side is read. Replacing the other one, even with a missing value, leaves the result unchanged. |
| Torque.MissingFadeInAtCycle | src/core/viz/expressions/torque.js:139 | Input and cycle both at 0.5, duration 10, a missing fade-in and fade-out 0.3 give 1. |
| Torque.DistanceSign | src/core/viz/expressions/torque.js:139 | The scaled distance is non-negative, and zero exactly at the cycle position. |
| Torque.Pulse | src/core/viz/expressions/torque.js:133-140 | With positive fades, the result is 1 at the cycle position. It is positive exactly when the distance is below the fade on that side, and is then `1 - d/fade`. |
| Torque.ZeroFade | src/core/viz/expressions/torque.js:139 | With zero fades, the result is 0 off the cycle position and NaN on it (0/0). |
| Torque.CompileCheck | src/core/viz/expressions/torque.js:171-182 | Compile succeeds exactly for number input and fade-typed fade. The type is then number. |
| Torque.GpuAgreesWithEval | src/core/viz/expressions/torque.js:180-181 | The GLSL formula computes what `eval` computes whenever the fade used is nonzero. |
| Torque.Inline | src/core/viz/expressions/torque.js:180-181 | The inline maker's text, with the duration text as a parameter. |
| Torque.Gpu | src/core/viz/expressions/torque.js:180-181 | What that text computes: one minus the clamped ratio of the scaled distance to the fade on the input's side. |
| Torque.SimTime | src/core/viz/expressions/torque.js:150-170 | It fails exactly for an input that is not linear, or for a date minimum with a numeric maximum, which has no `getTime`. Otherwise the result is a date exactly when the minimum is a date, and its time is `min + c*(max - min)`. |
| Torque.SimTimeWithinRange | src/core/viz/expressions/torque.js:150-170 | Whenever the simulated time is defined, c = 0 gives the minimum and c = 1 the maximum. For c in [0, 1] the result lies between them. |
| Torque.SimTimeMonotone | src/core/viz/expressions/torque.js:150-170 | Two cycles over the same range are both defined or both fail. When defined, the simulated time does not decrease as the cycle advances. |
| Torque.SimTimeMixedBounds | src/core/viz/expressions/torque.js:156-162 | A date minimum with a numeric maximum fails. A numeric minimum with a date maximum gives a number. |
| Draw.DrawMetadata.TakeUnit | src/core/viz/expressions/top.js:96-99 | It returns the current free texture unit and advances the counter by exactly one. |
| ShaderCompiler.FirstSeen | src/core/viz/shader-compiler.js:2-6 | The distinct requested names, in first-seen order: no repeats, and exactly the names requested. |
| ShaderCompiler.Sample | src/core/viz/shader-compiler.js:7 | `texture2D(propertyTex<slot>, featureID).a`. |
| ShaderCompiler.Declaration | src/core/viz/shader-compiler.js:9 | `uniform sampler2D propertyTex<slot>;`. |
| ShaderCompiler.PropertySlots.constructor | src/core/viz/shader-compiler.js:2 | The slot table starts empty. |
| ShaderCompiler.PropertySlots.Request | src/core/viz/shader-compiler.js:3-8 | A new name gets slot = the number of names seen so far. A known name keeps its slot and adds nothing. The lookup returns the sampling expression for that slot. |
| ShaderCompiler.FirstSeenStep | src/core/viz/shader-compiler.js:4-6 | One more request extends the first-seen order exactly when the name is new. |
| ShaderCompiler.Declarations | src/core/viz/shader-compiler.js:9 | One `uniform sampler2D propertyTex<i>;` per distinct name, in order. |
| ShaderCompiler.CompileShader | src/core/viz/shader-compiler.js:1-19 | The slots are 0..k-1 in first-seen order over exactly the requested names. Every lookup returns its name's sample. The preface is the root preface followed by the newline-joined declarations. |
| ShaderCompiler.SlotsAreDistinct | src/core/viz/shader-compiler.js:2-6 | Different names get different slots, each below the number of distinct names. |
| ShaderCompiler.SampleInjective | src/core/viz/shader-compiler.js:7-9 | Different slots give different sampling expressions and different uniform declarations. |
| Lines.DecodeWidth | src/core/shaders/renderer/lines.js:20-29 | The decoded width is `255x/4` below 64, `255x - 48` from 64 to 128, and `2*255x - 174` from 128. It is non-negative for non-negative x. |
| Lines.Extruded | src/core/shaders/renderer/lines.js:38 | `vertexScale*vertexPosition + normalScale*normal*size - vertexOffset`, with the decoded width as size. |
| Lines.ContinuousAt64 | src/core/shaders/renderer/lines.js:22-25 | Both pieces give 16 at 64, and the first piece stays below 16. |
| Lines.JumpAt128 | src/core/shaders/renderer/lines.js:24-27 | The width rises from below 80 to 82 at 128. |
| Lines.Monotone | src/core/shaders/renderer/lines.js:20-29 | The decoded width never decreases. |
| Lines.Endpoints | src/core/shaders/renderer/lines.js:20-29 | 0 gives 0 and 1 gives 336. The unit interval maps into [0, 336]. |
| Lines.VertexMain | src/core/shaders/renderer/lines.js:31-43 | Alpha is multiplied by the filter value, and rgb is premultiplied by alpha. The vertex is moved to x = 10000 exactly when the width or the alpha is 0; otherwise it is the extruded position. |
| Lines.FilteredOutIsCulled | src/core/shaders/renderer/lines.js:33-41 | A filtered-out feature is culled, with a fully transparent color. |
| Lines.ZeroWidthIsCulled | src/core/shaders/renderer/lines.js:36-41 | A zero-width line is culled. |
| HitTest.HalfPlaneOnEndpoints | src/core/dataframe.js:317-321 | The half-plane test is 0 at both ends of the edge. |
| HitTest.HalfPlaneAntisymmetric | src/core/dataframe.js:317-321 | Reversing the edge negates the half-plane test. |
| HitTest.HalfPlane | src/core/dataframe.js:317-321 | `halfPlaneTest`: the cross product of (p - b) and (a - b). |
| HitTest.PointInTriangleAsWritten | src/core/dataframe.js:299-311 | `pointInTriangle` as written: the three strict `< 0` flags agree. |
| HitTest.PointInTriangle | src/core/dataframe.js:297 | The corrected test the comment describes: no edge test negative while another is positive. |
| HitTest.AsWrittenSigns | src/core/dataframe.js:299-311 | As written, a point is inside when all three tests are negative, or all are non-negative. |
| HitTest.TrianglesRotationInvariant | src/core/dataframe.js:306-310 | Both the as-written and the corrected triangle tests are invariant under cyclic rotation of the vertices. |
| HitTest.PointInTriangleWindingFree | src/core/dataframe.js:297-311 | The corrected test does not depend on the winding order. |
| HitTest.VerticesAreInside | src/core/dataframe.js:297 | Each vertex of a triangle counts as on it. |
| HitTest.AsWrittenAgreesOffEdges | src/core/dataframe.js:306-310 | Off the edge lines, the as-written test agrees with the corrected one. |
| HitTest.AsWrittenMissesClockwiseEdges | src/core/dataframe.js:306-310 | For a clockwise triangle, a point on an edge is rejected as written and accepted with the other winding. The corrected test accepts it. |
| HitTest.AsWrittenMissesClockwiseEdge | src/core/dataframe.js:306-310 | The point (1,0) on the edge of the clockwise triangle (0,0), (0,2), (2,0) is missed as written, but found with the opposite winding and by the corrected test. |
| HitTest.PointInCircle | src/core/dataframe.js:323-330 | The center is always inside. |
| HitTest.PointRadius | src/core/dataframe.js:100-103 | The hit radius of a point: its width plus stroke width, capped at 126 px, halved and scaled by `widthScale`. |
| HitTest.LineRadius | src/core/dataframe.js:135-137 | The extrusion of a line: its width, capped at 336 px, halved and scaled by `widthScale`. |
| HitTest.PointHit | src/core/dataframe.js:98-104 | A point feature is hit when its circle of that radius around the vertex holds the position. |
| HitTest.CircleBoundaryIncluded | src/core/dataframe.js:329 | Points at exactly the radius are inside. |
| HitTest.LineCapIsDecoderMax | src/core/dataframe.js:135 | The 336 px line-width cap is the largest width the line shader decodes. |
| HitTest.PointHitIsCapped | src/core/dataframe.js:100-104 | A point hit lies within 63 px (half the 126 px diameter cap), scaled, of the point. |
| HitTest.LineHitIsCapped | src/core/dataframe.js:135-137 | The line extrusion is at most 168 px (half of 336), scaled. |
| HitTest.PointHits | src/core/dataframe.js:88-108 | The hit features are exactly those whose circle contains the position. |
| HitTest.PointsAtPosition | src/core/dataframe.js:79-110 | The point loop returns the hit list, in feature order. |
| HitTest.Leading | src/core/dataframe.js:127-129 | The feature index the scan has reached at a vertex offset: the number of breakpoints not above it. |
| HitTest.WellFormed | src/core/dataframe.js:171-192 | The breakpoints the scans rely on: multiples of 6, strictly increasing, the last equal to the vertex count. |
| HitTest.LeadingIsOwner | src/core/dataframe.js:127-129 | With well-formed breakpoints, that index is the unique feature whose vertex range contains the offset. |
| HitTest.HitListMembers | src/core/dataframe.js:171-195 | The hit list holds exactly the features with a triangle containing the position, each once, in increasing order. |
| HitTest.ScanTriangles | src/core/dataframe.js:171-195 | The triangle scan, which skips the rest of a feature after a hit, returns exactly that hit list. |
| HitTest.PolygonsAtPosition | src/core/dataframe.js:162-196 | The polygon features hit, by the as-written triangle test, are exactly those with a triangle containing the position, in feature order and without repeats. |
| HitTest.LinesAtPosition | src/core/dataframe.js:112-160 | The line features hit, by the as-written triangle test, are those with an extruded triangle containing the position, in feature order and without repeats. |
| HitTest.PolygonTriangle | src/core/dataframe.js:174-186 | Whether a polygon triangle holds the position, by the as-written test. |
| HitTest.PolygonTriangleCorrected | src/core/dataframe.js:174-187 | The same triangle of polygon vertices, tested with the corrected, winding-free test. |
| HitTest.LineTriangle | src/core/dataframe.js:131-150 | Whether a line triangle, extruded along its normals by the capped width, holds the position, by the as-written test. |
| HitTest.AsWrittenPolygonScanMissesEdge | src/core/dataframe.js:162-196 | For one polygon feature made of the clockwise triangle (0,0), (0,2), (2,0), the scan at (1,0) reports nothing as written and reports feature 0 with the corrected test. |
| HitTest.SingleTriangleHitList | src/core/dataframe.js:171-195 | A single one-triangle feature is listed exactly when its triangle holds the position. |
| FeatureIds.TextureHeight | src/core/dataframe.js:33 | The height is `ceil(numFeatures / width)`: enough rows for every feature and no extra row. |
| FeatureIds.NumFeatures | src/core/dataframe.js:16 | `breakpoints.length \|\| numVertex`: the breakpoint count, or one feature per vertex when there are none. |
| FeatureIds.Ids | src/core/dataframe.js:44 | The id buffer has one entry per vertex coordinate. |
| FeatureIds.IndexAt | src/core/dataframe.js:45-49 | The loop's feature index at vertex k: it advances at every vertex without breakpoints, and at each breakpoint otherwise. |
| FeatureIds.IdX | src/core/dataframe.js:50 | `(index % width) / (width - 1)`: the texel column, scaled to [0, 1]. |
| FeatureIds.IdY | src/core/dataframe.js:51 | `floor(index / width) / (height - 1)`, or 0.5 for a single row. |
| FeatureIds.FillIds | src/core/dataframe.js:44-52 | The in-place loop fills a fresh buffer with exactly the specified ids. |
| FeatureIds.OneFeaturePerVertex | src/core/dataframe.js:47 | Without breakpoints, vertex k belongs to feature k. |
| FeatureIds.IndexAtMonotone | src/core/dataframe.js:47-48 | The feature index never decreases and advances by at most one per vertex. |
| FeatureIds.IndexIsOwner | src/core/dataframe.js:47-48 | With even, well-formed breakpoints, the loop's feature index at a vertex is that vertex's owning feature. |
| FeatureIds.IdsInUnitSquare | src/core/dataframe.js:50-51 | Both id coordinates are in [0, 1]. The y coordinate is 0.5 for a single-row texture. |
| FeatureIds.IdsDistinguishFeatures | src/core/dataframe.js:50-51 | Different features within the texture get different id pairs. |
| FeatureIds.BufferIdsInUnitSquare | src/core/dataframe.js:44-52 | Every buffer entry is in [0, 1], for a feature index below `numFeatures`. |
| FeatureIds.IdsAt | src/core/dataframe.js:50-51 | Entries `2k` and `2k+1` are the x and y ids of vertex k's feature. |
| Dataframe.OverwriteMeaning | src/core/dataframe.js:250-253 | After storing updates, a name is present if it was before or was updated. The last update for a name decides its column, and names not updated keep theirs. |
| Dataframe.NewNames | src/core/dataframe.js:250-253 | The property names added are all new. |
| Dataframe.Overwrite | src/core/dataframe.js:250-253 | The columns after the updates are applied in order, the later value for a name replacing the earlier. |
| Dataframe.RestoreChangesNothing | src/core/dataframe.js:30 | Re-storing a dataframe's own columns, as bind does, changes neither the columns nor the names. |
| Dataframe.FeatureOf | src/core/dataframe.js:198-214 | The feature has an id exactly when `cartodb_id` is a column. Its properties are exactly the other columns. |
| Dataframe.FeaturesOf | src/core/dataframe.js:198-214 | One feature record per hit, in order. |
| Dataframe.PropAt | src/core/dataframe.js:202 | `properties[name][featureIndex]`: the stored number, or undefined past the end of the column. |
| Dataframe.CategoryName | src/core/dataframe.js:208 | `categoryIDsToName[prop]`: the name for an integral id that is a key, undefined otherwise. |
| Dataframe.Reported | src/core/dataframe.js:206-210 | A category column reports the category name. Every other column reports the stored value. |
| Dataframe.CategoryRoundTrip | src/core/dataframe.js:206-209 | A category column storing a category's id is reported back as that category's name. |
| Dataframe.PlainColumnAsStored | src/core/dataframe.js:202-210 | A non-category column reports the stored number, or undefined past the end of the column. |
| Dataframe.Dataframe.constructor | src/core/dataframe.js:6-21 | `numVertex` is half the coordinate count. `numFeatures` is the breakpoint count, or `numVertex` without breakpoints. There are no property ids and no GPU handles. |
| Dataframe.Dataframe.AddProperty | src/core/dataframe.js:216-241 | An unbound dataframe is unchanged. A bound one gives a new name the next id and increments the count, and a known name keeps its id. The slot's texture is created, or the call fails once the dataframe has been freed. |
| Dataframe.Dataframe.StoreProperty | src/core/dataframe.js:251-252 | On a bound dataframe it fails exactly after `free()`. Otherwise it stores the column, appends the name if new, and gives the name an id while keeping the old ids. |
| Dataframe.Dataframe.StoreAll | src/core/dataframe.js:250-253 | The columns become the old ones overwritten by the updates, and new names are appended in order. Every updated name gets an id, and old ids are kept. It fails after `free()`. |
| Dataframe.Dataframe.AddProperties | src/core/dataframe.js:245-254 | It fails without a renderer. Otherwise it records `height = ceil(numFeatures / RTT_WIDTH)` and then stores every update. |
| Dataframe.Dataframe.BindProperties | src/core/dataframe.js:23-33 | It records the renderer and height, and binds every existing column to an id without changing the columns. |
| Dataframe.Dataframe.Bind | src/core/dataframe.js:23-64 | On success all seven handles are created, a normals buffer exists exactly when there are normals, and the id buffer is the specified one. A failure leaves the buffers alone. |
| Dataframe.Dataframe.Free | src/core/dataframe.js:274-294 | The first call sets all seven handles to `'freed'` and `propertyTex` to null. A second call changes nothing. On a dataframe that was never bound it fails before changing anything. |
| Dataframe.Dataframe.FeaturesAtPosition | src/core/dataframe.js:66-77 | It returns the point, line or polygon hits as feature records, with the as-written triangle test, and `[]` for any other geometry type. Points and lines fail on an unbound dataframe. |
| Layer.CheckId | src/api/layer.js:327-337 | Undefined gives `idRequired`, a non-string `idStringRequired`, and `''` gives `nonValidId`. Exactly the non-empty strings pass. |
| Layer.CheckSource | src/api/layer.js:339-346 | Undefined gives `sourceRequired`, and a non-source `nonValidSource`. Exactly sources pass. |
| Layer.CheckViz | src/api/layer.js:348-358 | Undefined gives `vizRequired`, a non-viz `nonValidViz`, and a viz bound to another layer `sharedViz`. Exactly an unbound viz, or one bound to this layer, passes. |
| Layer.BoundVizBelongsToOneLayer | src/api/layer.js:355-357 | A viz bound to a layer passes for that layer and is `sharedViz` for every other. |
| Layer.Source.Clone | src/api/layer.js:114 | A clone is a new, unfreed source. |
| Layer.Layer.Init | src/api/layer.js:43-61 | The viz is bound to the new layer. State is `init`, the layer is not loaded, has no metadata and no renderer, and the token is unset. |
| Layer.Layer.New | src/api/layer.js:35-41 | The checks run in order, and the first failure is the error. The layer is created exactly when all three pass, and a failure leaves the viz unbound. |
| Layer.Layer.BeginUpdate | src/api/layer.js:108-117 | It validates the source and viz. Without a renderer it returns before touching the token. Otherwise it clones the source and increments the token, starting from 1. |
| Layer.Layer.UpdateAsWritten | src/api/layer.js:108-117 | `update` as written: with a renderer and valid arguments it takes the next token and then fails on the undeclared `style`. Metadata, source, viz and shaders stay unchanged. Without a renderer it returns at once. |
| Layer.Layer.CommitUpdate | src/api/layer.js:119-138 | The intended commit, which `update` as written never reaches. A change whose uid is below the current token fails and changes nothing. Otherwise the metadata, source and viz are set, the old source is freed, and the shaders are compiled. |
| Layer.Layer.SetRenderer | src/api/layer.js:183-186 | Setting the renderer records it and begins an update of the current source and viz. A viz bound to another layer fails with `sharedViz` and keeps the token. An unbound viz, or one bound to this layer, takes the next token and gives the begun change. |
| Layer.Layer.BeginVizChange | src/api/layer.js:316 | It remembers the current source. |
| Layer.Layer.CommitVizChange | src/api/layer.js:317-322 | It fails exactly when the source changed while the metadata was pending. Otherwise it sets the metadata and compiles the new viz. |
| Layer.Layer.OnDataLoaded | src/api/layer.js:269-272 | State becomes `dataLoaded`. |
| Layer.Layer.PaintCallback | src/api/layer.js:231-240 | `'loaded'` fires exactly when the layer was not yet loaded and its data has loaded. It fires at most once in the layer's life. |
| Layer.LatestUpdateWins | src/api/layer.js:115-124 | The intended behaviour: of two overlapping updates, whichever order their answers arrive in, the first fails to commit and the second commits its metadata and viz. |

## Left out

**Source files not part of this model**
- `base.js`, `utils.js`, `property.js`, `linear.js`, `category.js`, the palettes and the decoder are not part of this model.
  - `implicitCast`, `checkLooseType` and `checkType` are small total functions in `Ast`.
  - `hexToRgb` is `Hex.ParseHex`. It follows section 5.2 of CSS Color Module Level 4: `#` followed by 3, 4, 6 or 8 hex digits.
  - Hex.ParseHex: requiring the leading `#`, and refusing the same digits without it, is assumed from the formats hex.js:7 documents, not read from `hexToRgb`.
  - A property is a value lookup.
  - A palette is a record of sub-palettes and tags.
- The shader cache is not part of this model: its implementation is not among the files modelled.

**WebGL**
- All WebGL calls are outside the model:
  - texture and buffer creation, uploads, `texParameteri`, `uniform*` and shader creation are not modelled;
  - handles are modelled by lifecycle alone: unset, created or freed;
  - only the byte and id buffers they consume are modelled.
- The second half of `compileShader` is left out: it replaces each slot number in `tid` with a uniform location from `getUniformLocation`. `ShaderCompiler.CompileShader` returns the slot numbers.

**Numbers and text**
- IEEE rounding, `Float32Array` precision and floating-point formatting are left out.
- Hex.Gpu: states exact division by 255; the source prints each channel with `toFixed(4)`.
- Torque.Inline: prints the duration as given, not with `toFixed(20)`.
- ShaderCompiler.PropertySlots.Request and ShaderCompiler.CompileShader: `tid` is a plain object, so a property named after an inherited `Object.prototype` member (`constructor`, `toString`, `valueOf`, `__proto__`) fails the test `tid[name] === undefined`. The source then allocates no slot and prints the inherited value into the GLSL. The model gives every new name a fresh slot, so it does not capture that case.
- Dataframe.Dataframe.AddProperty and Dataframe.FeatureOf: `propertyID` and the reported `properties` are plain objects. A property named `constructor`, `toString` or `valueOf` finds the inherited member at line 226 of `dataframe.js`, so no id is allocated. A property named `__proto__` is dropped from the feature record at line 210. The model gives such a name a fresh id and reports it like any other column.
- The order of `Object.keys` is not modelled: JavaScript lists integer-like keys first, and the model keeps insertion order.
- `Ramp.Uint8` models the byte store as truncation and wrap-around. A NaN channel is not modelled.

**Parameters standing in for code that is not modelled**
- `Dataframe.Dataframe.FeaturesAtPosition` takes four parameters for code that is not modelled:
  - the position, already converted by `wToR`;
  - `widthScale`, which the source derives from the canvas height, `scale` and zoom;
  - the viz's `width` and `strokeWidth`, as functions of the feature index.
- The time behind `now()` is a parameter of `Torque.Cycle`.
- The decoded geometry is a constructor input. The shape `decodeGeom` guarantees is a precondition: `Dataframe.DecodedShape` and `HitTest.WellFormed`.
- A viz's eval in the point loop is one of those function parameters, rather than an evaluation of a feature record.

**Assumptions and omissions**
- Dataframe.Dataframe.Bind: it requires `RTT_WIDTH >= 2`, because the id loop divides by `width - 1`. Bind as written fails after `addProperties` throws, before creating buffers, and the model keeps that order.
- Dataframe.Dataframe.Free: the normals buffer is created by bind but never freed, and the model keeps that.
- The Layer's asynchronous steps, `await`, events (`mitt`), map integrators, `addTo`, `blendToViz`, `requestData`, `requestMetadata`, `getFeaturesAtPosition` (adding the layer id), `viz.onChange` and the render layer's dataframe freeing are left out.
  - Each awaited update is a begin step and a commit step.
  - The metadata the request returns is a parameter of the commit.
  - Line 117 of `layer.js` reads an undeclared `style`. `Layer.Layer.UpdateAsWritten` models the resulting failure; the intended commit is the Findings row below.
- Layer.Layer.SetRenderer: it returns the begun change for the intended commit. As written, the `update` it calls then fails at line 117 of `layer.js`, as `Layer.Layer.UpdateAsWritten` states.
- Layer.Layer.CommitUpdate: the source's check `this._source !== source` is always true after a fresh clone.
- The no-source branch of `_vizChanged` cannot be reached, because every layer is built with a source. The model has no such state.
- Layer.Layer.PaintCallback: drawing the render layer is not modelled, only the `'loaded'` event.
- Ramp.Ramp.PostShaderCompile: an empty palette makes the source throw on `colors[0].r`. The model reports it as a failed call without a texture.
- `Ramp` has no `eval` in the source, so none is modelled.
- Top.NumCategories and Top.Eval take `buckets` as a real number, so a NaN bucket count, where `Math.round(NaN)` is NaN, is not modelled.
- Buckets.CompileCheck: the source sets `othersBucket` before the type checks that may throw. The model returns `othersBucket` only from a successful compile.
- `Top.TopTexture.PreDraw` and `Ramp.Ramp.PreDraw`: the child's own `_preDraw` is not modelled; each takes its own texture unit only.

## Findings

The operations model the code as written: `Top.Eval`, `Ramp.Texture` and the ramp class, the triangle hit tests and `Layer.Layer.UpdateAsWritten`. Each corrected definition is kept beside them, with the intended property proved about it.

| source | as written | input that shows it | evidently intended | confidence | as-written member | corrected member |
|---|---|---|---|---|---|---|
| src/core/viz/expressions/top.js:37-41 | `eval` compares the category's rank `i` with the property value `p`. That value is a category id, and the texture at line 83 is keyed by `categoryIDs[name]`. | Categories ["a", "b"] with ids a→1, b→0, and one bucket: on value 0 (category "b"), `eval` returns 1 but the GPU texture gives 0 | Compare `p` with `categoryIDs[name]`, so that `eval` agrees with the texture | not executed | Top.AsWrittenDisagreesWithTexture | Top.GpuAgreesWithEvalById |
| src/core/style/expressions/ramp.js:114 | `vhigh`'s alpha is `255 * vlowRaw.a`, so the upper color's alpha is never used | Palette [opaque red (255, 0, 0, 1), transparent black]: texel 128 gets red 127 but alpha 255, where blending gives 127 | `255 * vhighRaw.a`, so alpha blends like the other channels | not executed | Ramp.AsWrittenAlphaCounterexample | Ramp.AlphaBlendsLikeColor |
| src/core/dataframe.js:306-310 | The three flags use a strict `< 0`. A clockwise triangle gives a point on an edge the signs (−, −, 0), so the point is missed, although the comment at line 297 promises edges count. | p = (1,0), triangle (0,0), (0,2), (2,0): the half-plane tests are −2, −2 and 0 | Accept a point when no test is positive or no test is negative, so edges count for both windings | not executed | HitTest.AsWrittenPolygonScanMissesEdge | HitTest.PointInTriangleWindingFree |
| src/api/layer.js:117 | `update` passes `style` to `requestMetadata`, but no `style` is declared in its scope, so the call throws a ReferenceError after the token has been taken | Any `update(source, viz)` on a layer that has a renderer | Pass the new `viz`, then commit the change once its metadata arrives | not executed | Layer.Layer.UpdateAsWritten | Layer.LatestUpdateWins |
