/** A map layer: a source (what data) and a viz (how to draw it), the
    validation of both, the change token that lets only the latest update
    commit, and the one-shot `'loaded'` event. Awaited requests are split
    into a begin step and a commit step; whatever the network answers is a
    parameter of the commit. */
module Layer {
  import opened Wrappers
  import opened Types

  /** The messages of the plain errors `update` and `_vizChanged` throw. */
  const ConcurrentChange: string := "Another atomic change was done before this one committed"
  /** The `ReferenceError` of reading the undeclared `style`. */
  const StyleNotDefined: string := "style is not defined"
  const StaleMetadata: string := "A source change was made before the metadata was retrieved, therefore, metadata is stale and it cannot be longer consumed"

  /** A data source. Only its identity and whether it was freed matter
      here. */
  class Source {
    var freed: bool

    constructor()
      ensures !freed
    {
      freed := false;
    }

    /** `_clone`: a new source object, never freed. */
    method Clone() returns (c: Source)
      ensures fresh(c) && !c.freed
    {
      c := new Source();
    }
  }

  /** A viz, with the layer it was first given to (`_boundLayer`). */
  class Viz {
    var boundLayer: Option<Layer>

    constructor()
      ensures boundLayer == None
    {
      boundLayer := None;
    }
  }

  /** What a caller may pass where an id, a source or a viz is expected. */
  datatype IdArg = UndefinedId | StringId(s: string) | OtherId
  datatype SourceArg = UndefinedSource | NotASource | ASource(source: Source)
  datatype VizArg = UndefinedViz | NotAViz | AViz(viz: Viz)

  /** `_checkId`: the error key thrown, None when the id is accepted. */
  function CheckId(id: IdArg): (r: Option<string>)
    ensures r.None? <==> id.StringId? && id.s != ""
    ensures id.UndefinedId? ==> r == Some("idRequired")
    ensures id.OtherId? ==> r == Some("idStringRequired")
    ensures id == StringId("") ==> r == Some("nonValidId")
  {
    match id
    case UndefinedId => Some("idRequired")
    case OtherId => Some("idStringRequired")
    case StringId(s) => if s == "" then Some("nonValidId") else None
  }

  /** `_checkSource`: the error key thrown, None when accepted. */
  function CheckSource(s: SourceArg): (r: Option<string>)
    ensures r.None? <==> s.ASource?
    ensures s.UndefinedSource? ==> r == Some("sourceRequired")
    ensures s.NotASource? ==> r == Some("nonValidSource")
  {
    match s
    case UndefinedSource => Some("sourceRequired")
    case NotASource => Some("nonValidSource")
    case ASource(_) => None
  }

  /** `_checkViz` on behalf of layer `self` (null while the layer is being
      constructed, when no viz can be bound to it yet): a viz already bound
      to another layer is refused. */
  function CheckViz(v: VizArg, self: Layer?): (r: Option<string>)
    reads if v.AViz? then {v.viz} else {}
    ensures r.None? <==> v.AViz? && (v.viz.boundLayer.None? || v.viz.boundLayer.value == self)
    ensures v.UndefinedViz? ==> r == Some("vizRequired")
    ensures v.NotAViz? ==> r == Some("nonValidViz")
    ensures v.AViz? && v.viz.boundLayer.Some? && v.viz.boundLayer.value != self ==> r == Some("sharedViz")
  {
    match v
    case UndefinedViz => Some("vizRequired")
    case NotAViz => Some("nonValidViz")
    case AViz(viz) =>
      if viz.boundLayer.Some? && viz.boundLayer.value != self then Some("sharedViz") else None
  }

  /** A viz bound to a layer passes that layer's check and fails every
      other layer's. */
  lemma BoundVizBelongsToOneLayer(viz: Viz, l: Layer, other: Layer?)
    requires viz.boundLayer == Some(l) && other != l
    ensures CheckViz(AViz(viz), l).None?
    ensures CheckViz(AViz(viz), other) == Some("sharedViz")
  {
  }

  /** `state`: `'init'` or `'dataLoaded'`. */
  datatype LoadState = Initial | DataLoaded

  /** An update that passed its checks and took a change token: the token,
      the source's clone and the new viz. */
  datatype Change = Change(uid: nat, clone: Source, viz: Viz)

  class Layer {
    const id: string
    var state: LoadState
    var isLoaded: bool
    /** How many times `'loaded'` has been fired. */
    var loadedEvents: nat
    var metadata: Option<Metadata>
    var source: Source
    var viz: Viz
    /** Whether the render layer has a renderer. */
    var hasRenderer: bool
    /** `_atomicChangeUID`; 0 stands for `undefined`, which `+ 1 || 1`
        turns into 1 like 0 would. */
    var atomicChangeUID: nat
    /** The viz and metadata the shaders were last compiled with. */
    var compiled: Option<(Viz, Metadata)>

    /** `'loaded'` has fired exactly when `isLoaded` is set, which happens
        only once the data has loaded. */
    ghost predicate Valid()
      reads this
    {
      id != "" &&
      (isLoaded ==> state == DataLoaded) &&
      loadedEvents == (if isLoaded then 1 else 0)
    }

    /** `_init`, after the checks: the viz is bound to this layer; the
        first `update` finds no renderer and returns at once. */
    constructor Init(id: string, source: Source, viz: Viz)
      requires id != ""
      modifies viz
      ensures Valid() && viz.boundLayer == Some(this)
      ensures this.id == id && this.source == source && this.viz == viz
      ensures state == Initial && !isLoaded && loadedEvents == 0 && metadata == None
      ensures !hasRenderer && atomicChangeUID == 0 && compiled == None
    {
      this.id := id;
      state := Initial;
      isLoaded := false;
      loadedEvents := 0;
      metadata := None;
      this.source := source;
      this.viz := viz;
      hasRenderer := false;
      atomicChangeUID := 0;
      compiled := None;
      new;
      viz.boundLayer := Some(this);
    }

    /** `new Layer(id, source, viz)`: the id, the source and the viz are
        checked in that order and the first failure is thrown. */
    static method New(id: IdArg, source: SourceArg, viz: VizArg) returns (r: Result<Layer>)
      modifies if viz.AViz? then {viz.viz} else {}
      ensures CheckId(id).Some? ==> r == Err(CheckId(id).value)
      ensures CheckId(id).None? && CheckSource(source).Some? ==> r == Err(CheckSource(source).value)
      ensures CheckId(id).None? && CheckSource(source).None? && old(CheckViz(viz, null)).Some? ==>
        r == Err(old(CheckViz(viz, null)).value)
      ensures r.Ok? <==> CheckId(id).None? && CheckSource(source).None? && old(CheckViz(viz, null)).None?
      ensures r.Ok? ==>
        fresh(r.value) && r.value.Valid() && r.value.id == id.s &&
        r.value.source == source.source && r.value.viz == viz.viz && viz.viz.boundLayer == Some(r.value) &&
        !r.value.hasRenderer && r.value.atomicChangeUID == 0 && r.value.metadata == None
      ensures r.Err? && viz.AViz? ==> viz.viz.boundLayer == old(viz.viz.boundLayer)
    {
      var idError := CheckId(id);
      if idError.Some? {
        return Err(idError.value);
      }
      var sourceError := CheckSource(source);
      if sourceError.Some? {
        return Err(sourceError.value);
      }
      var vizError := CheckViz(viz, null);
      if vizError.Some? {
        return Err(vizError.value);
      }
      var l := new Layer.Init(id.s, source.source, viz.viz);
      r := Ok(l);
    }

    /** The synchronous half of `update`: check the arguments; without a
        renderer, return before the change token is touched; otherwise
        clone the source and take the next token. */
    method BeginUpdate(s: SourceArg, v: VizArg) returns (r: Result<Option<Change>>)
      requires Valid()
      modifies this
      ensures Valid()
      ensures CheckSource(s).Some? ==> r == Err(CheckSource(s).value)
      ensures CheckSource(s).None? && CheckViz(v, this).Some? ==> r == Err(CheckViz(v, this).value)
      ensures CheckSource(s).None? && CheckViz(v, this).None? && !hasRenderer ==> r == Ok(None)
      ensures CheckSource(s).None? && CheckViz(v, this).None? && hasRenderer ==>
        atomicChangeUID == old(atomicChangeUID) + 1 &&
        r.Ok? && r.value.Some? &&
        r.value.value.uid == atomicChangeUID && fresh(r.value.value.clone) && !r.value.value.clone.freed &&
        r.value.value.viz == v.viz
      ensures !(r.Ok? && r.value.Some?) ==> atomicChangeUID == old(atomicChangeUID)
      ensures state == old(state) && isLoaded == old(isLoaded) && loadedEvents == old(loadedEvents)
      ensures metadata == old(metadata) && source == old(source) && viz == old(viz)
      ensures hasRenderer == old(hasRenderer) && compiled == old(compiled)
    {
      var sourceError := CheckSource(s);
      if sourceError.Some? {
        return Err(sourceError.value);
      }
      var vizError := CheckViz(v, this);
      if vizError.Some? {
        return Err(vizError.value);
      }
      if !hasRenderer {
        return Ok(None);
      }
      var clone := s.source.Clone();
      atomicChangeUID := atomicChangeUID + 1;
      r := Ok(Some(Change(atomicChangeUID, clone, v.viz)));
    }

    /** The half of `update` after the metadata arrived: a change whose
        token was overtaken by a later one is refused and changes nothing;
        otherwise the metadata, the source (freeing the old one) and the viz
        are committed and the shaders compiled against the new metadata. */
    method CommitUpdate(c: Change, md: Metadata) returns (r: Result<()>)
      requires Valid()
      modifies this, source
      ensures Valid()
      ensures r.Ok? <==> old(atomicChangeUID) <= c.uid
      ensures r.Err? ==>
        metadata == old(metadata) && source == old(source) && viz == old(viz) &&
        compiled == old(compiled) && old(source).freed == old(source.freed)
      ensures r.Ok? ==>
        metadata == Some(md) && source == c.clone && viz == c.viz && compiled == Some((c.viz, md)) &&
        (old(source) != c.clone ==> old(source).freed)
      ensures atomicChangeUID == old(atomicChangeUID) && hasRenderer == old(hasRenderer)
      ensures state == old(state) && isLoaded == old(isLoaded) && loadedEvents == old(loadedEvents)
    {
      if atomicChangeUID > c.uid {
        return Err(ConcurrentChange);
      }
      metadata := Some(md);
      if source != c.clone {
        source.freed := true;
      }
      source := c.clone;
      viz := c.viz;
      compiled := Some((c.viz, md));
      r := Ok(());
    }

    /** `update` as written: once the checks pass and a renderer is set, it
        clones the source and takes the change token, and then reading the
        undeclared `style` for the metadata request rejects the promise. So
        nothing is committed: metadata, source, viz and shaders stay as they
        were, and only the token has moved on. */
    method UpdateAsWritten(s: SourceArg, v: VizArg) returns (r: Result<()>)
      requires Valid()
      modifies this
      ensures Valid()
      ensures CheckSource(s).Some? ==> r == Err(CheckSource(s).value)
      ensures CheckSource(s).None? && CheckViz(v, this).Some? ==> r == Err(CheckViz(v, this).value)
      ensures CheckSource(s).None? && CheckViz(v, this).None? ==>
        if hasRenderer then r == Err(StyleNotDefined) && atomicChangeUID == old(atomicChangeUID) + 1
        else r == Ok(()) && atomicChangeUID == old(atomicChangeUID)
      ensures metadata == old(metadata) && source == old(source) && viz == old(viz) && compiled == old(compiled)
      ensures state == old(state) && isLoaded == old(isLoaded) && loadedEvents == old(loadedEvents)
      ensures hasRenderer == old(hasRenderer)
    {
      var b := BeginUpdate(s, v);
      match b {
        case Err(e) => r := Err(e);
        case Ok(None) => r := Ok(());
        case Ok(Some(_)) => r := Err(StyleNotDefined);
      }
    }

    /** `setRenderer`: the render layer gets a renderer, and the current
        source and viz are updated through it. */
    method SetRenderer() returns (r: Result<Option<Change>>)
      requires Valid()
      modifies this
      ensures Valid() && hasRenderer
      ensures CheckViz(AViz(viz), this).Some? ==>
        r == Err(CheckViz(AViz(viz), this).value) && atomicChangeUID == old(atomicChangeUID)
      ensures CheckViz(AViz(viz), this).None? ==>
        atomicChangeUID == old(atomicChangeUID) + 1 &&
        r.Ok? && r.value.Some? && r.value.value.uid == atomicChangeUID && r.value.value.viz == viz &&
        fresh(r.value.value.clone)
      ensures metadata == old(metadata) && source == old(source) && viz == old(viz) && compiled == old(compiled)
      ensures state == old(state) && isLoaded == old(isLoaded) && loadedEvents == old(loadedEvents)
    {
      hasRenderer := true;
      r := BeginUpdate(ASource(source), AViz(viz));
    }

    /** The synchronous half of `_vizChanged`: remember which source the
        metadata is being requested from. */
    method BeginVizChange() returns (pending: Source)
      ensures pending == source
    {
      pending := source;
    }

    /** The half of `_vizChanged` after the metadata arrived: if the source
        was replaced meanwhile the metadata is stale and refused; otherwise
        it is kept and the shaders are compiled with it. */
    method CommitVizChange(pending: Source, newViz: Viz, md: Metadata) returns (r: Result<()>)
      requires Valid()
      modifies this
      ensures Valid()
      ensures r.Ok? <==> source == pending
      ensures r.Err? ==> metadata == old(metadata) && compiled == old(compiled)
      ensures r.Ok? ==> metadata == Some(md) && compiled == Some((newViz, md))
      ensures source == old(source) && viz == old(viz) && atomicChangeUID == old(atomicChangeUID)
      ensures hasRenderer == old(hasRenderer)
      ensures state == old(state) && isLoaded == old(isLoaded) && loadedEvents == old(loadedEvents)
    {
      if source != pending {
        return Err(StaleMetadata);
      }
      metadata := Some(md);
      compiled := Some((newViz, md));
      r := Ok(());
    }

    /** `_onDataLoaded`. */
    method OnDataLoaded()
      requires Valid()
      modifies this
      ensures Valid() && state == DataLoaded
      ensures isLoaded == old(isLoaded) && loadedEvents == old(loadedEvents)
      ensures metadata == old(metadata) && source == old(source) && viz == old(viz)
      ensures atomicChangeUID == old(atomicChangeUID) && hasRenderer == old(hasRenderer) && compiled == old(compiled)
    {
      state := DataLoaded;
    }

    /** `$paintCallback`'s bookkeeping: the first paint after the data has
        loaded fires `'loaded'`; no other paint does. Returns whether it
        fired. */
    method PaintCallback() returns (fired: bool)
      requires Valid()
      modifies this
      ensures Valid()
      ensures fired <==> !old(isLoaded) && old(state) == DataLoaded
      ensures loadedEvents == old(loadedEvents) + (if fired then 1 else 0)
      ensures isLoaded == (old(isLoaded) || fired)
      ensures state == old(state) && metadata == old(metadata) && source == old(source) && viz == old(viz)
      ensures atomicChangeUID == old(atomicChangeUID) && hasRenderer == old(hasRenderer) && compiled == old(compiled)
    {
      fired := false;
      if !isLoaded && state == DataLoaded {
        loadedEvents := loadedEvents + 1;
        fired := true;
        isLoaded := true;
      }
    }
  }

  /** Two updates begun one after the other, answered in either order: the
      first one's commit is refused once the second has taken its token, and
      the second one commits, whether its answer comes first or last. */
  method LatestUpdateWins(l: Layer, s1: Source, v1: Viz, s2: Source, v2: Viz, md1: Metadata, md2: Metadata,
                          secondAnsweredFirst: bool)
    returns (first: Result<()>, second: Result<()>)
    requires l.Valid() && l.hasRenderer
    requires v1.boundLayer == Some(l) && v2.boundLayer == Some(l)
    modifies l, l.source
    ensures first.Err? && second.Ok?
    ensures l.metadata == Some(md2) && l.viz == v2
  {
    var b1 := l.BeginUpdate(ASource(s1), AViz(v1));
    var b2 := l.BeginUpdate(ASource(s2), AViz(v2));
    if secondAnsweredFirst {
      second := l.CommitUpdate(b2.value.value, md2);
      first := l.CommitUpdate(b1.value.value, md1);
    } else {
      first := l.CommitUpdate(b1.value.value, md1);
      second := l.CommitUpdate(b2.value.value, md2);
    }
  }
}
