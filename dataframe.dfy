/** A dataframe: one decoded batch of geometry with its per-feature
    property arrays, and the GPU resources it creates when bound to a
    renderer. WebGL objects are modelled by their life-cycle state only. */
module Dataframe {
  import opened Wrappers
  import opened Types
  import HitTest
  import FeatureIds

  datatype GeometryType = PointGeometry | LineGeometry | PolygonGeometry | OtherGeometry

  /** A WebGL texture or buffer field: never created, created, or set to
      the `'freed'` sentinel. */
  datatype Handle = Unset | Created | Freed

  /** The seven handles `bind` creates and `free` releases. */
  datatype Resources = Resources(
    vertexBuffer: Handle, featureIDBuffer: Handle,
    texColor: Handle, texWidth: Handle, texStrokeColor: Handle, texStrokeWidth: Handle, texFilter: Handle)

  /** What the dataframe uses of its renderer: `RTT_WIDTH`. */
  datatype Renderer = Renderer(rttWidth: nat)

  /** A property value as `_addFeatureToArray` reports it: a number, the
      category name it stands for, or `undefined`. */
  datatype PropValue = PNum(x: real) | PName(name: string) | PUndefined

  /** A hit-test result: `id` is None for the empty string the source uses
      when there is no `cartodb_id` column. */
  datatype Feature = Feature(id: Option<PropValue>, properties: map<string, PropValue>)

  const IdColumn: string := "cartodb_id"

  /** The shape `decodeGeom` gives each geometry type: coordinate pairs;
      no breakpoints for points; whole triangle runs for lines and
      polygons; one normal per coordinate for lines. */
  predicate DecodedShape(ty: GeometryType, vertices: seq<real>, bp: seq<int>, normals: Option<seq<real>>)
  {
    |vertices| % 2 == 0 &&
    (ty == PointGeometry ==> |bp| == 0) &&
    (ty == LineGeometry || ty == PolygonGeometry ==> HitTest.WellFormed(bp, |vertices|)) &&
    (ty == LineGeometry ==> normals.Some? && |normals.value| == |vertices|)
  }

  predicate Distinct(s: seq<string>)
  {
    forall i, j :: 0 <= i < j < |s| ==> s[i] != s[j]
  }

  /** `properties[name][featureIndex]`, `undefined` past the array's end. */
  function PropAt(values: seq<real>, k: nat): PropValue
  {
    if k < |values| then PNum(values[k]) else PUndefined
  }

  /** `categoryIDsToName[prop]`: object keys are the IDs' decimal forms,
      so only an integral number that is a key finds a name. */
  function CategoryName(metadata: Metadata, v: PropValue): PropValue
  {
    if v.PNum? && v.x == v.x.Floor as real && v.x.Floor in metadata.categoryIDsToName
    then PName(metadata.categoryIDsToName[v.x.Floor])
    else PUndefined
  }

  /** What `_addFeatureToArray` reports for a value of column `name`:
      category columns translated to names, anything else as stored. */
  function Reported(metadata: Metadata, name: string, v: PropValue): PropValue
  {
    var column := FindColumn(metadata.columns, name);
    if column.Some? && column.value.ty == TCategory then CategoryName(metadata, v) else v
  }

  /** Apply `addProperties`' overwrites in order: the last value given for
      a name wins; names not given keep their arrays. */
  function Overwrite(properties: map<string, seq<real>>, updates: seq<(string, seq<real>)>): map<string, seq<real>>
    decreases |updates|
  {
    if |updates| == 0 then properties
    else
      var last := updates[|updates| - 1];
      Overwrite(properties, updates[..|updates| - 1])[last.0 := last.1]
  }

  /** Overwriting keeps every key, adds the given names, and leaves the
      arrays of names not given untouched; a given name holds its last
      value. */
  lemma {:induction false} OverwriteMeaning(properties: map<string, seq<real>>, updates: seq<(string, seq<real>)>, n: string)
    ensures var r := Overwrite(properties, updates);
      (n in r <==> n in properties || exists i :: 0 <= i < |updates| && updates[i].0 == n) &&
      ((forall i :: 0 <= i < |updates| ==> updates[i].0 != n) ==> (n in r <==> n in properties) && (n in properties ==> r[n] == properties[n])) &&
      (forall i :: 0 <= i < |updates| && updates[i].0 == n && (forall j :: i < j < |updates| ==> updates[j].0 != n) ==> n in r && r[n] == updates[i].1)
    decreases |updates|
  {
    if |updates| > 0 {
      var butLast := updates[..|updates| - 1];
      OverwriteMeaning(properties, butLast, n);
      assert forall i :: 0 <= i < |butLast| ==> butLast[i] == updates[i];
    }
  }

  /** Names of `updates` not in `known`, in order of first appearance:
      the keys a JavaScript object gains when they are assigned. */
  function NewNames(known: seq<string>, updates: seq<(string, seq<real>)>): (r: seq<string>)
    ensures forall n :: n in r ==> n !in known
    decreases |updates|
  {
    if |updates| == 0 then []
    else
      var prev := NewNames(known, updates[..|updates| - 1]);
      var name := updates[|updates| - 1].0;
      if name in known || name in prev then prev else prev + [name]
  }

  /** Property IDs are 0, 1, ... in order of first binding, one per name:
      `names[i]` is the name with ID `i`. */
  ghost predicate Allocation(names: seq<string>, ids: map<string, nat>)
  {
    Distinct(names) &&
    (forall n :: n in ids <==> n in names) &&
    (forall i :: 0 <= i < |names| ==> ids[names[i]] == i)
  }

  /** Giving a new name the next ID keeps the allocation consecutive and
      leaves every earlier ID alone. */
  lemma AllocateNext(names: seq<string>, ids: map<string, nat>, name: string)
    requires Allocation(names, ids) && name !in ids
    ensures Allocation(names + [name], ids[name := |names|])
  {
    assert forall i :: 0 <= i < |names| ==> names[i] != name;
  }

  /** A name with an ID is one of the allocated names, with an ID below the
      count. */
  lemma AllocatedBelow(names: seq<string>, ids: map<string, nat>, name: string)
    requires Allocation(names, ids) && name in ids
    ensures ids[name] < |names|
  {
    var i :| 0 <= i < |names| && names[i] == name;
  }

  /** The keys of `properties`, listed once each in `names`. */
  ghost predicate Keys(names: seq<string>, properties: map<string, seq<real>>)
  {
    Distinct(names) && forall n :: n in properties <==> n in names
  }

  /** Storing one more update keeps the key list in step with the map. */
  lemma StoreStep(names0: seq<string>, props0: map<string, seq<real>>, done: seq<(string, seq<real>)>, u: (string, seq<real>))
    requires Keys(names0, props0) && Keys(names0 + NewNames(names0, done), Overwrite(props0, done))
    ensures var names, props := names0 + NewNames(names0, done), Overwrite(props0, done);
      var names2 := if u.0 in props then names else names + [u.0];
      Keys(names2, props[u.0 := u.1]) &&
      props[u.0 := u.1] == Overwrite(props0, done + [u]) &&
      names2 == names0 + NewNames(names0, done + [u])
  {
    var names, props := names0 + NewNames(names0, done), Overwrite(props0, done);
    assert (done + [u])[..|done|] == done;
    assert NewNames(names0, done + [u]) ==
      if u.0 in names0 || u.0 in NewNames(names0, done) then NewNames(names0, done) else NewNames(names0, done) + [u.0];
    KeysStore(names, props, u.0, u.1);
  }

  lemma KeysStore(names: seq<string>, props: map<string, seq<real>>, name: string, values: seq<real>)
    requires Keys(names, props)
    ensures Keys(if name in props then names else names + [name], props[name := values])
  {
    if name !in props {
      assert forall i :: 0 <= i < |names| ==> names[i] != name;
    }
  }

  /** `Object.keys(properties)` paired with the arrays: what `bind` hands
      to `addProperties`. */
  function Entries(names: seq<string>, properties: map<string, seq<real>>): (r: seq<(string, seq<real>)>)
    requires forall n :: n in names ==> n in properties
    ensures |r| == |names| && forall i :: 0 <= i < |r| ==> r[i].0 == names[i] && r[i].1 == properties[names[i]]
  {
    seq(|names|, i requires 0 <= i < |names| => (names[i], properties[names[i]]))
  }

  /** Writing back arrays already stored under known names changes neither
      the arrays nor the key list. */
  lemma {:induction false} RestoreChangesNothing(names: seq<string>, properties: map<string, seq<real>>, updates: seq<(string, seq<real>)>)
    requires forall i :: 0 <= i < |updates| ==>
      updates[i].0 in names && updates[i].0 in properties && properties[updates[i].0] == updates[i].1
    ensures Overwrite(properties, updates) == properties && NewNames(names, updates) == []
    decreases |updates|
  {
    if |updates| > 0 {
      RestoreChangesNothing(names, properties, updates[..|updates| - 1]);
    }
  }

  /** Binding every entry binds every name. */
  lemma EntriesBound(names: seq<string>, properties: map<string, seq<real>>, entries: seq<(string, seq<real>)>, ids: map<string, nat>)
    requires |entries| == |names| && forall i :: 0 <= i < |entries| ==> entries[i].0 == names[i]
    requires forall i :: 0 <= i < |entries| ==> entries[i].0 in ids
    ensures forall n :: n in names ==> n in ids
  {
    forall n | n in names
      ensures n in ids
    {
      var i :| 0 <= i < |names| && names[i] == n;
      assert entries[i].0 in ids;
    }
  }

  /** `_addFeatureToArray` for feature `k`: the `cartodb_id` column's value
      is the id (the empty string, None, without that column); every other
      column is reported under its name, category IDs as category names. */
  function FeatureOf(metadata: Metadata, properties: map<string, seq<real>>, k: nat): (f: Feature)
    ensures f.id.Some? <==> IdColumn in properties
    ensures forall n :: n in f.properties <==> n in properties && n != IdColumn
  {
    Feature(if IdColumn in properties then Some(PropAt(properties[IdColumn], k)) else None,
            map n | n in properties && n != IdColumn :: Reported(metadata, n, PropAt(properties[n], k)))
  }

  /** The reported features for a list of feature indices, in order. */
  function FeaturesOf(metadata: Metadata, properties: map<string, seq<real>>, hits: seq<nat>): (r: seq<Feature>)
    ensures |r| == |hits| && forall i :: 0 <= i < |hits| ==> r[i] == FeatureOf(metadata, properties, hits[i])
  {
    seq(|hits|, i requires 0 <= i < |hits| => FeatureOf(metadata, properties, hits[i]))
  }

  /** A category column stores the category's numeric ID; the reported
      feature carries the category's name back, provided the metadata's two
      maps are inverse on it. */
  lemma CategoryRoundTrip(metadata: Metadata, properties: map<string, seq<real>>, k: nat, column: string, category: string)
    requires column in properties && column != IdColumn && k < |properties[column]|
    requires FindColumn(metadata.columns, column).Some? && FindColumn(metadata.columns, column).value.ty == TCategory
    requires category in metadata.categoryIDs
    requires metadata.categoryIDs[category] in metadata.categoryIDsToName
    requires metadata.categoryIDsToName[metadata.categoryIDs[category]] == category
    requires properties[column][k] == metadata.categoryIDs[category] as real
    ensures FeatureOf(metadata, properties, k).properties[column] == PName(category)
  {
    var id := metadata.categoryIDs[category];
    assert (id as real).Floor == id;
  }

  /** A column that is not a category column is reported as stored, and as
      `undefined` past the end of its array. */
  lemma PlainColumnAsStored(metadata: Metadata, properties: map<string, seq<real>>, k: nat, column: string)
    requires column in properties && column != IdColumn
    requires FindColumn(metadata.columns, column).None? || FindColumn(metadata.columns, column).value.ty != TCategory
    ensures FeatureOf(metadata, properties, k).properties[column] ==
      if k < |properties[column]| then PNum(properties[column][k]) else PUndefined
  {
  }

  /** Names already bound stay bound, and the name just bound joins them. */
  lemma BoundKept(updates: seq<(string, seq<real>)>, k: nat, before: map<string, nat>, after: map<string, nat>)
    requires k < |updates|
    requires forall i :: 0 <= i < k ==> updates[i].0 in before
    requires forall n :: n in before ==> n in after
    requires updates[k].0 in after
    ensures forall i :: 0 <= i < k + 1 ==> updates[i].0 in after
  {
  }

  class Dataframe {
    const geometryType: GeometryType
    const vertices: seq<real>
    const breakpoints: seq<int>
    const normals: Option<seq<real>>
    const metadata: Metadata
    const numVertex: nat
    const numFeatures: nat

    /** `Object.keys(this.properties)`, in insertion order; JavaScript would
        list integer-like names first, in ascending order, which is not
        modelled. */
    var propertyNames: seq<string>
    var properties: map<string, seq<real>>
    /** `propertyTex`: None once freed (`null`). */
    var propertyTex: Option<seq<Handle>>
    var propertyID: map<string, nat>
    var propertyCount: nat
    /** The names in `propertyID` by their ID. */
    ghost var pidNames: seq<string>
    var renderer: Option<Renderer>
    var height: Option<nat>
    /** `vertexBuffer`, `featureIDBuffer` and the five style textures. */
    var resources: Resources
    var normalBuffer: Handle
    /** What `bind` uploaded into `featureIDBuffer`. */
    var featureIDs: seq<real>

    ghost predicate Valid()
      reads this
    {
      DecodedShape(geometryType, vertices, breakpoints, normals) &&
      numVertex == |vertices| / 2 &&
      numFeatures == FeatureIds.NumFeatures(|vertices|, breakpoints) &&
      Keys(propertyNames, properties) &&
      Allocation(pidNames, propertyID) && propertyCount == |pidNames| &&
      (propertyTex.Some? ==> |propertyTex.value| == propertyCount) &&
      (renderer.Some? ==> renderer.value.rttWidth >= 2)
    }

    /** The constructor: counts derived from the decoded geometry, no
        property bound yet. */
    constructor(geometryType: GeometryType, vertices: seq<real>, breakpoints: seq<int>, normals: Option<seq<real>>,
                propertyNames: seq<string>, properties: map<string, seq<real>>, metadata: Metadata)
      requires DecodedShape(geometryType, vertices, breakpoints, normals)
      requires Keys(propertyNames, properties)
      ensures Valid()
      ensures this.geometryType == geometryType && this.vertices == vertices && this.breakpoints == breakpoints
      ensures this.normals == normals && this.metadata == metadata
      ensures numVertex == |vertices| / 2
      ensures numFeatures == if |breakpoints| > 0 then |breakpoints| else numVertex
      ensures this.propertyNames == propertyNames && this.properties == properties
      ensures propertyTex == Some([]) && propertyID == map[] && propertyCount == 0
      ensures renderer == None && height == None && featureIDs == []
      ensures resources == Resources(Unset, Unset, Unset, Unset, Unset, Unset, Unset) && normalBuffer == Unset
    {
      this.geometryType := geometryType;
      this.vertices := vertices;
      this.breakpoints := breakpoints;
      this.normals := normals;
      this.metadata := metadata;
      numVertex := |vertices| / 2;
      numFeatures := FeatureIds.NumFeatures(|vertices|, breakpoints);
      this.propertyNames := propertyNames;
      this.properties := properties;
      propertyTex := Some([]);
      propertyID := map[];
      propertyCount := 0;
      pidNames := [];
      renderer := None;
      height := None;
      resources := Resources(Unset, Unset, Unset, Unset, Unset, Unset, Unset);
      normalBuffer := Unset;
      featureIDs := [];
    }

    /** `_addProperty`: unbound, nothing happens. Bound, the name gets the
        next property ID unless it has one, and its texture slot is
        (re)created; after `free` the slot array is gone and the write
        fails, the ID having been allocated first. */
    method AddProperty(name: string) returns (r: Result<()>)
      requires Valid()
      modifies this
      ensures Valid()
      ensures old(renderer).None? ==>
        r.Ok? && propertyID == old(propertyID) && propertyCount == old(propertyCount) && propertyTex == old(propertyTex)
      ensures old(renderer).Some? ==> name in propertyID
      ensures old(renderer).Some? && name in old(propertyID) ==>
        propertyID == old(propertyID) && propertyCount == old(propertyCount)
      ensures old(renderer).Some? && name !in old(propertyID) ==>
        propertyID == old(propertyID)[name := old(propertyCount)] && propertyCount == old(propertyCount) + 1
      ensures old(renderer).Some? && old(propertyTex).None? ==> r.Err? && propertyTex == None
      ensures old(renderer).Some? && old(propertyTex).Some? ==>
        (var t, pid := old(propertyTex).value, propertyID[name];
         r.Ok? && propertyTex == Some(if pid < |t| then t[pid := Created] else t + [Created]))
      ensures renderer == old(renderer) && properties == old(properties) && propertyNames == old(propertyNames)
      ensures height == old(height) && featureIDs == old(featureIDs)
      ensures resources == old(resources) && normalBuffer == old(normalBuffer)
    {
      if renderer.None? {
        return Ok(());
      }
      if name !in propertyID {
        AllocateNext(pidNames, propertyID, name);
        propertyID := propertyID[name := propertyCount];
        pidNames := pidNames + [name];
        propertyCount := propertyCount + 1;
      } else {
        AllocatedBelow(pidNames, propertyID, name);
      }
      var pid := propertyID[name];
      if propertyTex.None? {
        return Err("Cannot set properties of null");
      }
      var t := propertyTex.value;
      propertyTex := Some(if pid < |t| then t[pid := Created] else t + [Created]);
      r := Ok(());
    }

    /** One step of `addProperties`' loop: bind the name with
        `_addProperty`, then store its array under it. */
    method StoreProperty(name: string, values: seq<real>) returns (r: Result<()>)
      requires Valid() && renderer.Some?
      modifies this
      ensures Valid()
      ensures r.Err? <==> old(propertyTex).None?
      ensures r.Err? ==> properties == old(properties) && propertyNames == old(propertyNames) && propertyTex == None
      ensures r.Ok? ==>
        properties == old(properties)[name := values] &&
        propertyNames == (if name in old(properties) then old(propertyNames) else old(propertyNames) + [name]) &&
        propertyTex.Some?
      ensures name in propertyID
      ensures forall n :: n in old(propertyID) ==> n in propertyID && propertyID[n] == old(propertyID)[n]
      ensures renderer == old(renderer) && height == old(height) && featureIDs == old(featureIDs)
      ensures resources == old(resources) && normalBuffer == old(normalBuffer)
    {
      r := AddProperty(name);
      if r.Err? {
        return;
      }
      KeysStore(propertyNames, properties, name, values);
      if name !in properties {
        propertyNames := propertyNames + [name];
      }
      properties := properties[name := values];
    }

    /** `addProperties`' loop: bind and store each given array in order.
        Only the given names change, and the last array given for a name
        wins; after `free` the first binding fails and nothing is stored. */
    method StoreAll(updates: seq<(string, seq<real>)>) returns (r: Result<()>)
      requires Valid() && renderer.Some?
      modifies this
      ensures Valid()
      ensures old(propertyTex).Some? || |updates| == 0 ==>
        r.Ok? &&
        properties == Overwrite(old(properties), updates) &&
        propertyNames == old(propertyNames) + NewNames(old(propertyNames), updates) &&
        (forall i :: 0 <= i < |updates| ==> updates[i].0 in propertyID) &&
        (forall n :: n in old(propertyID) ==> n in propertyID && propertyID[n] == old(propertyID)[n])
      ensures old(propertyTex).None? && |updates| > 0 ==>
        r.Err? && properties == old(properties) && propertyNames == old(propertyNames) && propertyTex == None
      ensures renderer == old(renderer) && height == old(height) && featureIDs == old(featureIDs)
      ensures resources == old(resources) && normalBuffer == old(normalBuffer)
    {
      var k := 0;
      while k < |updates|
        invariant 0 <= k <= |updates| && Valid()
        invariant renderer == old(renderer) && height == old(height)
        invariant propertyTex.Some? <==> old(propertyTex).Some?
        invariant old(propertyTex).None? ==> k == 0
        invariant properties == Overwrite(old(properties), updates[..k])
        invariant propertyNames == old(propertyNames) + NewNames(old(propertyNames), updates[..k])
        invariant forall i :: 0 <= i < k ==> updates[i].0 in propertyID
        invariant forall n :: n in old(propertyID) ==> n in propertyID && propertyID[n] == old(propertyID)[n]
        invariant featureIDs == old(featureIDs)
        invariant resources == old(resources) && normalBuffer == old(normalBuffer)
        decreases |updates| - k
      {
        StoreStep(old(propertyNames), old(properties), updates[..k], updates[k]);
        ghost var before := propertyID;
        var stored := StoreProperty(updates[k].0, updates[k].1);
        if stored.Err? {
          return stored;
        }
        BoundKept(updates, k, before, propertyID);
        TakeOneMore(updates, k);
        k := k + 1;
      }
      assert updates[..k] == updates;
      r := Ok(());
    }

    /** `addProperties`: needs a renderer (it reads `RTT_WIDTH` first);
        records the texture height, then binds and stores each given
        array in order. */
    method AddProperties(updates: seq<(string, seq<real>)>) returns (r: Result<()>)
      requires Valid()
      modifies this
      ensures Valid()
      ensures old(renderer).None? ==>
        r.Err? && properties == old(properties) && propertyNames == old(propertyNames) &&
        propertyID == old(propertyID) && height == old(height)
      ensures old(renderer).Some? ==> height == Some(FeatureIds.TextureHeight(numFeatures, old(renderer).value.rttWidth))
      ensures old(renderer).Some? && (old(propertyTex).Some? || |updates| == 0) ==>
        r.Ok? &&
        properties == Overwrite(old(properties), updates) &&
        propertyNames == old(propertyNames) + NewNames(old(propertyNames), updates) &&
        (forall i :: 0 <= i < |updates| ==> updates[i].0 in propertyID) &&
        (forall n :: n in old(propertyID) ==> n in propertyID && propertyID[n] == old(propertyID)[n])
      ensures old(renderer).Some? && old(propertyTex).None? && |updates| > 0 ==>
        r.Err? && properties == old(properties) && propertyNames == old(propertyNames) && propertyTex == None
      ensures renderer == old(renderer) && featureIDs == old(featureIDs)
      ensures resources == old(resources) && normalBuffer == old(normalBuffer)
    {
      if renderer.None? {
        return Err("Cannot read property RTT_WIDTH of undefined");
      }
      height := Some(FeatureIds.TextureHeight(numFeatures, renderer.value.rttWidth));
      r := StoreAll(updates);
    }

    /** The first half of `bind`: keep the renderer and pass every stored
        property array to `addProperties`, which binds each name and leaves
        the arrays as they are. */
    method BindProperties(rd: Renderer) returns (r: Result<()>)
      requires Valid() && rd.rttWidth >= 2
      modifies this
      ensures Valid() && renderer == Some(rd)
      ensures r.Ok? <==> old(propertyTex).Some? || |old(propertyNames)| == 0
      ensures properties == old(properties) && propertyNames == old(propertyNames)
      ensures height == Some(FeatureIds.TextureHeight(numFeatures, rd.rttWidth))
      ensures r.Ok? ==>
        (forall n :: n in propertyNames ==> n in propertyID) &&
        (forall n :: n in old(propertyID) ==> n in propertyID && propertyID[n] == old(propertyID)[n])
      ensures r.Err? ==> propertyTex == None
      ensures resources == old(resources) && normalBuffer == old(normalBuffer) && featureIDs == old(featureIDs)
    {
      renderer := Some(rd);
      var entries := Entries(propertyNames, properties);
      RestoreChangesNothing(propertyNames, properties, entries);
      r := AddProperties(entries);
      if r.Ok? {
        EntriesBound(propertyNames, properties, entries, propertyID);
      }
    }

    /** `bind`: keep the renderer, bind every stored property array, then
        create the buffers and the five style textures, the normal buffer
        when the geometry has normals, and upload each vertex's feature
        position in the style textures. Binding after `free` fails at the
        first property, before any buffer is created. */
    method Bind(rd: Renderer) returns (r: Result<()>)
      requires Valid() && rd.rttWidth >= 2
      modifies this
      ensures Valid() && renderer == Some(rd)
      ensures r.Ok? <==> old(propertyTex).Some? || |old(propertyNames)| == 0
      ensures properties == old(properties) && propertyNames == old(propertyNames)
      ensures height == Some(FeatureIds.TextureHeight(numFeatures, rd.rttWidth))
      ensures r.Ok? ==>
        (forall n :: n in propertyNames ==> n in propertyID) &&
        (forall n :: n in old(propertyID) ==> n in propertyID && propertyID[n] == old(propertyID)[n])
      ensures r.Ok? ==>
        resources == Resources(Created, Created, Created, Created, Created, Created, Created) &&
        normalBuffer == (if normals.Some? then Created else old(normalBuffer)) &&
        featureIDs == FeatureIds.Ids(breakpoints, |vertices|, rd.rttWidth, FeatureIds.TextureHeight(numFeatures, rd.rttWidth))
      ensures r.Err? ==>
        propertyTex == None && resources == old(resources) && normalBuffer == old(normalBuffer) && featureIDs == old(featureIDs)
    {
      r := BindProperties(rd);
      if r.Err? {
        return;
      }
      var width := rd.rttWidth;
      var h := FeatureIds.TextureHeight(numFeatures, width);
      resources := Resources(Created, Created, Created, Created, Created, Created, Created);
      var ids := FeatureIds.FillIds(|vertices|, breakpoints, width, h);
      if normals.Some? {
        normalBuffer := Created;
      }
      featureIDs := ids[..];
    }

    /** `free`: with property textures still held, every texture and buffer
        is deleted and set to the `'freed'` sentinel, and the property
        textures are dropped; unbound, reaching for the renderer's context
        fails. Once freed, freeing again does nothing. The normal buffer is
        not released. */
    method Free() returns (r: Result<()>)
      requires Valid()
      modifies this
      ensures Valid()
      ensures old(propertyTex).None? ==> r.Ok? && propertyTex == None && resources == old(resources)
      ensures old(propertyTex).Some? && old(renderer).None? ==>
        r.Err? && propertyTex == old(propertyTex) && resources == old(resources)
      ensures old(propertyTex).Some? && old(renderer).Some? ==>
        r.Ok? && propertyTex == None && resources == Resources(Freed, Freed, Freed, Freed, Freed, Freed, Freed)
      ensures normalBuffer == old(normalBuffer) && renderer == old(renderer) && height == old(height)
      ensures properties == old(properties) && propertyNames == old(propertyNames) && featureIDs == old(featureIDs)
      ensures propertyID == old(propertyID) && propertyCount == old(propertyCount)
    {
      if propertyTex.None? {
        return Ok(());
      }
      if renderer.None? {
        return Err("Cannot read property gl of undefined");
      }
      resources := Resources(Freed, Freed, Freed, Freed, Freed, Freed, Freed);
      propertyTex := None;
      r := Ok(());
    }

    /** `getFeaturesAtPosition` at a position already in the renderer's
        coordinates: the hit features of this geometry type, in feature
        order, each reported as `_addFeatureToArray` does. Points and lines
        read the canvas height from the renderer and fail unbound. */
    method FeaturesAtPosition(p: HitTest.Point, widthScale: real, width: nat -> real, strokeWidth: nat -> real)
      returns (r: Result<seq<Feature>>)
      requires Valid()
      ensures geometryType == PointGeometry ==>
        if renderer.None? then r.Err?
        else r == Ok(FeaturesOf(metadata, properties,
                       HitTest.PointHits(p, vertices, widthScale, width, strokeWidth, |vertices| / 2)))
      ensures geometryType == LineGeometry ==>
        if renderer.None? then r.Err?
        else r == Ok(FeaturesOf(metadata, properties,
                       HitTest.HitList(breakpoints,
                         (f: nat, t: nat) => HitTest.LineTriangle(p, vertices, normals.value, widthScale, width, f, t),
                         |vertices|, |breakpoints|)))
      ensures geometryType == PolygonGeometry ==>
        r == Ok(FeaturesOf(metadata, properties,
                  HitTest.HitList(breakpoints, (f: nat, t: nat) => HitTest.PolygonTriangle(p, vertices, t), |vertices|, |breakpoints|)))
      ensures geometryType == OtherGeometry ==> r == Ok([])
    {
      match geometryType {
        case PointGeometry =>
          if renderer.None? {
            return Err("Cannot read property gl of undefined");
          }
          var hits := HitTest.PointsAtPosition(p, vertices, widthScale, width, strokeWidth);
          r := Ok(FeaturesOf(metadata, properties, hits));
        case LineGeometry =>
          if renderer.None? {
            return Err("Cannot read property gl of undefined");
          }
          var hits := HitTest.LinesAtPosition(p, vertices, normals.value, breakpoints, widthScale, width);
          r := Ok(FeaturesOf(metadata, properties, hits));
        case PolygonGeometry =>
          var hits := HitTest.PolygonsAtPosition(p, vertices, breakpoints);
          r := Ok(FeaturesOf(metadata, properties, hits));
        case OtherGeometry =>
          r := Ok([]);
      }
    }
  }
}
