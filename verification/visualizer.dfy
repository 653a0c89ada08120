/** The `Visualizer`: a list of meshes, each with a table of shader
    uniforms, and the three uniform names it owns. Its constructor installs
    the three uniforms on every mesh; each tick's spike and colour updates
    broadcast the same derived values to every mesh. */
module AudioVisualizer {
  import opened Frame
  import Spike
  import Color

  /** The value held by one uniform record (`{value: ...}`): a number or
      an array of numbers. */
  datatype UniformValue = Scalar(x: real) | Samples(xs: seq<real>)

  /** A material's uniform table, by uniform name. */
  type Uniforms = map<string, UniformValue>

  /** A renderable mesh: its name, whether it is drawn, and its material's uniforms. */
  datatype Mesh = Mesh(name: string, visible: bool, uniforms: Uniforms)

  /** The visualizer's state: the names of the average-frequency,
      spike-size and colour uniforms, and the registered meshes. */
  datatype Visualizer = Visualizer(
    avgName: string,
    spikeName: string,
    colorName: string,
    meshes: seq<Mesh>)

  /** The three owned uniform names are pairwise different. */
  predicate DistinctNames(v: Visualizer)
  {
    v.avgName != v.spikeName && v.avgName != v.colorName && v.spikeName != v.colorName
  }

  /** Every mesh carries the three owned uniforms (without them the update
      methods would write through a missing record) and, when the names are
      distinct, the average frequency is a number and the profiles arrays. */
  predicate Ready(v: Visualizer)
  {
    forall i :: 0 <= i < |v.meshes| ==>
      && v.avgName in v.meshes[i].uniforms
      && v.spikeName in v.meshes[i].uniforms
      && v.colorName in v.meshes[i].uniforms
      && (DistinctNames(v) ==>
            && v.meshes[i].uniforms[v.avgName].Scalar?
            && v.meshes[i].uniforms[v.spikeName].Samples?
            && v.meshes[i].uniforms[v.colorName].Samples?)
  }

  /** The two mesh lists have the same length, names and visibility. */
  predicate SameShape(a: seq<Mesh>, b: seq<Mesh>)
  {
    && |a| == |b|
    && forall i :: 0 <= i < |a| ==> a[i].name == b[i].name && a[i].visible == b[i].visible
  }

  /** Writes `value` under `name` into every mesh's uniform table. */
  function SetUniform(meshes: seq<Mesh>, name: string, value: UniformValue): (r: seq<Mesh>)
    ensures SameShape(meshes, r)
    ensures forall i :: 0 <= i < |r| ==> r[i].uniforms.Keys == meshes[i].uniforms.Keys + {name}
    ensures forall i :: 0 <= i < |r| ==> r[i].uniforms[name] == value
    ensures forall i, k :: 0 <= i < |r| && k in meshes[i].uniforms && k != name ==>
              r[i].uniforms[k] == meshes[i].uniforms[k]
  {
    seq(|meshes|, i requires 0 <= i < |meshes| =>
      meshes[i].(uniforms := meshes[i].uniforms[name := value]))
  }

  /** The constructor: registers the meshes and installs the average
      frequency `0`, an empty spike profile and an empty colour profile on
      each of them, in that order. */
  function Create(avgName: string, spikeName: string, colorName: string, meshes: seq<Mesh>)
    : (v: Visualizer)
    ensures v.avgName == avgName && v.spikeName == spikeName && v.colorName == colorName
    ensures SameShape(meshes, v.meshes)
    ensures Ready(v)
    ensures forall i :: 0 <= i < |v.meshes| ==>
              && v.meshes[i].uniforms.Keys == meshes[i].uniforms.Keys + {avgName, spikeName, colorName}
              && v.meshes[i].uniforms[spikeName] == Samples([])
              && v.meshes[i].uniforms[colorName] == Samples([])
              && (DistinctNames(v) ==> v.meshes[i].uniforms[avgName] == Scalar(0.0))
    ensures forall i, k ::
              (0 <= i < |v.meshes| && k in meshes[i].uniforms
               && k != avgName && k != spikeName && k != colorName) ==>
              v.meshes[i].uniforms[k] == meshes[i].uniforms[k]
  {
    var withAvg := SetUniform(meshes, avgName, Scalar(0.0));
    var withSpike := SetUniform(withAvg, spikeName, Samples([]));
    var withColor := SetUniform(withSpike, colorName, Samples([]));
    Visualizer(avgName, spikeName, colorName, withColor)
  }

  /** `updateSpike`: reads the average frequency `avg` and one analyser
      frame, then writes the spike scalar and the spike profile into every
      mesh. */
  function UpdateSpike(v: Visualizer, avg: real, bins: seq<Byte>): (r: Visualizer)
    requires Ready(v)
    requires |bins| == BinCount
    ensures r.avgName == v.avgName && r.spikeName == v.spikeName && r.colorName == v.colorName
    ensures SameShape(v.meshes, r.meshes)
    ensures Ready(r)
    ensures forall i :: 0 <= i < |r.meshes| ==>
              && r.meshes[i].uniforms.Keys == v.meshes[i].uniforms.Keys
              && r.meshes[i].uniforms[v.spikeName] == Samples(Spike.Profile(Normalize(bins)))
              && (v.avgName != v.spikeName ==>
                    r.meshes[i].uniforms[v.avgName] == Scalar(Spike.Scalar(avg)))
    ensures forall i, k ::
              (0 <= i < |r.meshes| && k in v.meshes[i].uniforms
               && k != v.avgName && k != v.spikeName) ==>
              r.meshes[i].uniforms[k] == v.meshes[i].uniforms[k]
  {
    var freq := Spike.Scalar(avg);
    var spikeData := Spike.Profile(Normalize(bins));
    var withAvg := SetUniform(v.meshes, v.avgName, Scalar(freq));
    v.(meshes := SetUniform(withAvg, v.spikeName, Samples(spikeData)))
  }

  /** `updateColor`: reads one analyser frame and writes the colour profile
      into every mesh. */
  function UpdateColor(v: Visualizer, bins: seq<Byte>): (r: Visualizer)
    requires Ready(v)
    requires |bins| == BinCount
    ensures r.avgName == v.avgName && r.spikeName == v.spikeName && r.colorName == v.colorName
    ensures SameShape(v.meshes, r.meshes)
    ensures Ready(r)
    ensures forall i :: 0 <= i < |r.meshes| ==>
              && r.meshes[i].uniforms.Keys == v.meshes[i].uniforms.Keys
              && r.meshes[i].uniforms[v.colorName] == Samples(Color.Profile(Normalize(bins)))
    ensures forall i, k :: 0 <= i < |r.meshes| && k in v.meshes[i].uniforms && k != v.colorName ==>
              r.meshes[i].uniforms[k] == v.meshes[i].uniforms[k]
  {
    v.(meshes := SetUniform(v.meshes, v.colorName, Samples(Color.Profile(Normalize(bins)))))
  }

  /** After a spike update all meshes hold identical spike uniforms, with
      32 entries in [0,1]; a hidden mesh is updated like a visible one. */
  lemma SpikeBroadcastIdentical(v: Visualizer, avg: real, bins: seq<Byte>, i: nat, j: nat)
    requires Ready(v) && DistinctNames(v)
    requires |bins| == BinCount
    requires i < |v.meshes| && j < |v.meshes|
    ensures var r := UpdateSpike(v, avg, bins);
            && r.meshes[i].uniforms[v.avgName] == r.meshes[j].uniforms[v.avgName]
            && r.meshes[i].uniforms[v.spikeName] == r.meshes[j].uniforms[v.spikeName]
            && |r.meshes[i].uniforms[v.spikeName].xs| == Spike.BucketCount
            && InUnit(r.meshes[i].uniforms[v.spikeName].xs)
  {
    Spike.ProfileInUnit(Normalize(bins));
  }

  /** After a colour update all meshes hold identical colour uniforms, with
      12 entries in [0,1]. */
  lemma ColorBroadcastIdentical(v: Visualizer, bins: seq<Byte>, i: nat, j: nat)
    requires Ready(v)
    requires |bins| == BinCount
    requires i < |v.meshes| && j < |v.meshes|
    ensures var r := UpdateColor(v, bins);
            && r.meshes[i].uniforms[v.colorName] == r.meshes[j].uniforms[v.colorName]
            && |r.meshes[i].uniforms[v.colorName].xs| == Color.ChannelCount
            && InUnit(r.meshes[i].uniforms[v.colorName].xs)
  {
    Color.ProfileInUnit(Normalize(bins));
  }
}
