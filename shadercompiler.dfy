/** `compileShader`: while the expression tree writes its GLSL, every
    property it reads asks for a texture slot by name. The first request
    for a name allocates the next slot; later requests reuse it. One
    `uniform sampler2D propertyTex<slot>;` declaration per slot is then
    appended to the tree's preface. */
module ShaderCompiler {
  import Strings
  import Types

  /** The GLSL that reads property slot `slot` for the current feature. */
  function Sample(slot: nat): string
  {
    "texture2D(propertyTex" + Strings.NatToString(slot) + ", featureID).a"
  }

  /** The declaration of slot `slot`'s texture. */
  function Declaration(slot: nat): string
  {
    "uniform sampler2D propertyTex" + Strings.NatToString(slot) + ";"
  }

  predicate Distinct(s: seq<string>)
  {
    forall i, j :: 0 <= i < j < |s| ==> s[i] != s[j]
  }

  /** The names of `requests` in order of first request. */
  function FirstSeen(requests: seq<string>): (names: seq<string>)
    ensures Distinct(names)
    ensures forall n :: n in names <==> n in requests
    ensures |names| <= |requests|
    decreases |requests|
  {
    if |requests| == 0 then []
    else
      var prev := FirstSeen(requests[..|requests| - 1]);
      var last := requests[|requests| - 1];
      assert forall n :: n in requests <==> n in requests[..|requests| - 1] || n == last by {
        assert requests == requests[..|requests| - 1] + [last];
      }
      if last in prev then prev else prev + [last]
  }

  /** The `tid` map during compilation: each name keyed to its slot, slots
      allocated in order of first request. */
  class PropertySlots {
    var tid: map<string, nat>
    /** `Object.keys(tid)`, in insertion order; JavaScript would list
        integer-like names first, in ascending order, which is not modelled. */
    var keys: seq<string>

    /** Slots are 0, 1, ... in key order, one per key. */
    ghost predicate Valid()
      reads this
    {
      Distinct(keys) &&
      (forall n :: n in tid <==> n in keys) &&
      (forall i :: 0 <= i < |keys| ==> tid[keys[i]] == i)
    }

    constructor()
      ensures tid == map[] && keys == [] && Valid()
    {
      tid := map[];
      keys := [];
    }

    /** The callback handed to `_applyToShaderSource`. */
    method Request(name: string) returns (glsl: string)
      requires Valid()
      modifies this
      ensures Valid()
      ensures name in old(tid) ==> tid == old(tid) && keys == old(keys)
      ensures name !in old(tid) ==> keys == old(keys) + [name] && tid == old(tid)[name := |old(keys)|]
      ensures name in tid && glsl == Sample(tid[name])
      ensures forall n :: n in old(tid) ==> n in tid && tid[n] == old(tid)[n]
    {
      if name !in tid {
        assert forall i :: 0 <= i < |keys| ==> keys[i] != name;
        tid := tid[name := |keys|];
        keys := keys + [name];
      }
      glsl := Sample(tid[name]);
    }
  }

  lemma FirstSeenStep(requests: seq<string>, name: string)
    ensures FirstSeen(requests + [name]) ==
      if name in FirstSeen(requests) then FirstSeen(requests) else FirstSeen(requests) + [name]
  {
    assert (requests + [name])[..|requests|] == requests;
  }

  function Declarations(keys: seq<string>): (ds: seq<string>)
    ensures |ds| == |keys| && forall i :: 0 <= i < |keys| ==> ds[i] == Declaration(i)
  {
    seq(|keys|, i requires 0 <= i < |keys| => Declaration(i))
  }

  /** The slot allocation and preface extension of `compileShader`, for the
      sequence of property names the tree requests while writing its GLSL.
      The names get the slots of their first request, in order; the preface
      gains one declaration per slot, joined by newlines. */
  method CompileShader(rootPreface: string, requests: seq<string>) returns (preface: string, tid: map<string, nat>, glsl: seq<string>)
    ensures var names := FirstSeen(requests);
      (forall n :: n in tid <==> n in requests) &&
      (forall i :: 0 <= i < |names| ==> tid[names[i]] == i) &&
      preface == rootPreface + Strings.Join("\n", Declarations(names))
    ensures |glsl| == |requests| && forall i :: 0 <= i < |requests| ==> requests[i] in tid && glsl[i] == Sample(tid[requests[i]])
  {
    var slots := new PropertySlots();
    glsl := [];
    var k := 0;
    while k < |requests|
      invariant 0 <= k <= |requests|
      invariant slots.Valid() && slots.keys == FirstSeen(requests[..k])
      invariant Samples(requests[..k], glsl, slots.tid)
      modifies slots
    {
      FirstSeenStep(requests[..k], requests[k]);
      Types.TakeOneMore(requests, k);
      ghost var before := slots.tid;
      var s := slots.Request(requests[k]);
      SamplesKept(requests[..k], glsl, before, slots.tid);
      SamplesExtend(requests[..k], glsl, slots.tid, requests[k], s);
      glsl := glsl + [s];
      k := k + 1;
    }
    assert requests[..k] == requests;
    tid := slots.tid;
    assert Samples(requests, glsl, tid);
    var names := slots.keys;
    preface := rootPreface + Strings.Join("\n", Declarations(names));
  }

  predicate Samples(requests: seq<string>, glsl: seq<string>, tid: map<string, nat>)
  {
    |glsl| == |requests| && forall i :: 0 <= i < |requests| ==> requests[i] in tid && glsl[i] == Sample(tid[requests[i]])
  }

  lemma SamplesKept(requests: seq<string>, glsl: seq<string>, before: map<string, nat>, after: map<string, nat>)
    requires Samples(requests, glsl, before)
    requires forall n :: n in before ==> n in after && after[n] == before[n]
    ensures Samples(requests, glsl, after)
  {
  }

  lemma SamplesExtend(requests: seq<string>, glsl: seq<string>, tid: map<string, nat>, name: string, s: string)
    requires Samples(requests, glsl, tid)
    requires name in tid && s == Sample(tid[name])
    ensures Samples(requests + [name], glsl + [s], tid)
  {
  }

  /** Different property names never share a slot, and the slots are
      exactly 0 .. (number of distinct names - 1). */
  lemma SlotsAreDistinct(requests: seq<string>, tid: map<string, nat>, a: string, b: string)
    requires forall n :: n in tid <==> n in requests
    requires forall i :: 0 <= i < |FirstSeen(requests)| ==> tid[FirstSeen(requests)[i]] == i
    requires a in tid && b in tid && a != b
    ensures tid[a] != tid[b]
    ensures tid[a] < |FirstSeen(requests)|
  {
    var names := FirstSeen(requests);
    var i :| 0 <= i < |names| && names[i] == a;
    var j :| 0 <= j < |names| && names[j] == b;
  }

  /** The same slot always reads through the same GLSL text, and different
      slots through different text. */
  lemma SampleInjective(a: nat, b: nat)
    requires a != b
    ensures Sample(a) != Sample(b) && Declaration(a) != Declaration(b)
  {
    Strings.PrefixedNamesDistinct("texture2D(propertyTex", a, b);
    Strings.PrefixedNamesDistinct("uniform sampler2D propertyTex", a, b);
    var sa, sb := Strings.NatToString(a), Strings.NatToString(b);
    if Sample(a) == Sample(b) {
      var p := "texture2D(propertyTex";
      SuffixCancel(p + sa, p + sb, ", featureID).a");
    }
    if Declaration(a) == Declaration(b) {
      SuffixCancel("uniform sampler2D propertyTex" + sa, "uniform sampler2D propertyTex" + sb, ";");
    }
  }

  lemma SuffixCancel(x: string, y: string, suffix: string)
    requires x + suffix == y + suffix
    ensures x == y
  {
    assert |x| == |y|;
    assert x == (x + suffix)[..|x|];
    assert y == (y + suffix)[..|y|];
  }
}
