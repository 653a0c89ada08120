/** The scene around the visualizer: the two balls as `init` builds them,
    the ball-selection handler, and the per-tick glitch-factor switch. */
module Scene {
  import opened Frame
  import Spike
  import opened AudioVisualizer
  import Color

  const NoisyName: string := "noisy-ball"
  const SpikyName: string := "spiky-ball"

  /** The values the ball-selection control offers. */
  const BallOptions: set<string> := {NoisyName, SpikyName}

  /** The ball selected when the page opens. */
  const InitialBall: string := SpikyName

  const TimeUniform: string := "uTime"
  const AvgFreqUniform: string := "uAudioAverageFrequency"
  const SpikeSizeUniform: string := "uSpikeSize"
  const ColorUniform: string := "uColors"

  /** Glitch factor before the first tick. */
  const SoftGlitchInitial: real := 0.8
  /** Level of the average-frequency uniform above which the glitch is strong. */
  const GlitchThreshold: real := 0.6
  const StrongGlitch: real := 0.7
  const WeakGlitch: real := 0.1

  /** Everything a tick reads or writes: the visualizer with its meshes
      (noisy ball first, spiky ball second) and the glitch pass factor. */
  datatype Scene = Scene(vis: Visualizer, glitchFactor: real)

  /** The noisy ball as `init` builds it: hidden, with only a time uniform. */
  function NoisyBall(): Mesh
  {
    Mesh(NoisyName, false, map[TimeUniform := Scalar(0.0)])
  }

  /** The spiky ball as `init` builds it: visible, with time, bin count and
      the three spike-shape uniforms. */
  function SpikyBall(): Mesh
  {
    Mesh(SpikyName, true, map[
      TimeUniform := Scalar(0.0),
      "freqNum" := Scalar(BinCount as real),
      "spikeAmp" := Scalar(0.4),
      "spikeWidth" := Scalar(0.01),
      "spikeHeight" := Scalar(0.01)])
  }

  /** The scene's shape: the visualizer owns the three fixed uniform names,
      holds the noisy and the spiky ball in that order, and every mesh
      carries the owned uniforms. */
  predicate Valid(s: Scene)
  {
    && s.vis.avgName == AvgFreqUniform
    && s.vis.spikeName == SpikeSizeUniform
    && s.vis.colorName == ColorUniform
    && |s.vis.meshes| == 2
    && s.vis.meshes[0].name == NoisyName
    && s.vis.meshes[1].name == SpikyName
    && Ready(s.vis)
  }

  /** Number of visible meshes. */
  function VisibleCount(meshes: seq<Mesh>): nat
  {
    if |meshes| == 0 then 0
    else (if meshes[0].visible then 1 else 0) + VisibleCount(meshes[1..])
  }

  /** A two-mesh list shows exactly as many meshes as have their flag set. */
  lemma VisibleCountOfPair(meshes: seq<Mesh>)
    requires |meshes| == 2
    ensures VisibleCount(meshes) ==
              (if meshes[0].visible then 1 else 0) + (if meshes[1].visible then 1 else 0)
  {
    var rest := meshes[1..];
    assert rest[1..] == [];
    assert VisibleCount(rest) == (if rest[0].visible then 1 else 0) + VisibleCount(rest[1..]);
  }

  /** The scene `init` builds: both balls registered with a visualizer that
      owns the three audio uniforms, and the initial glitch factor. */
  function Init(): (s: Scene)
    ensures Valid(s)
    ensures s.glitchFactor == SoftGlitchInitial
    ensures forall i :: 0 <= i < |s.vis.meshes| ==>
              && (s.vis.meshes[i].visible <==> s.vis.meshes[i].name == InitialBall)
              && s.vis.meshes[i].uniforms[AvgFreqUniform] == Scalar(0.0)
              && s.vis.meshes[i].uniforms[SpikeSizeUniform] == Samples([])
              && s.vis.meshes[i].uniforms[ColorUniform] == Samples([])
    ensures VisibleCount(s.vis.meshes) == 1
  {
    var balls := [NoisyBall(), SpikyBall()];
    var vis := Create(AvgFreqUniform, SpikeSizeUniform, ColorUniform, balls);
    assert DistinctNames(vis);
    VisibleCountOfPair(vis.meshes);
    Scene(vis, SoftGlitchInitial)
  }

  /** The ball-selection handler: every mesh becomes visible exactly when
      its name equals the selected value. */
  function SelectBall(meshes: seq<Mesh>, value: string): (r: seq<Mesh>)
    ensures |r| == |meshes|
    ensures forall i :: 0 <= i < |r| ==>
              && r[i].name == meshes[i].name
              && r[i].uniforms == meshes[i].uniforms
              && (r[i].visible <==> meshes[i].name == value)
  {
    seq(|meshes|, i requires 0 <= i < |meshes| =>
      meshes[i].(visible := meshes[i].name == value))
  }

  /** Applies a selection change to the scene. */
  function Select(s: Scene, value: string): (r: Scene)
    requires Valid(s)
    ensures Valid(r)
    ensures r.glitchFactor == s.glitchFactor
    ensures forall i :: 0 <= i < |r.vis.meshes| ==>
              && r.vis.meshes[i].uniforms == s.vis.meshes[i].uniforms
              && (r.vis.meshes[i].visible <==> r.vis.meshes[i].name == value)
  {
    s.(vis := s.vis.(meshes := SelectBall(s.vis.meshes, value)))
  }

  /** Choosing one of the offered balls leaves exactly one mesh visible:
      the one with the chosen name. */
  lemma SelectShowsExactlyOne(s: Scene, value: string)
    requires Valid(s)
    requires value in BallOptions
    ensures VisibleCount(Select(s, value).vis.meshes) == 1
  {
    VisibleCountOfPair(Select(s, value).vis.meshes);
  }

  /** The initial visibility is what selecting the initial option yields. */
  lemma InitMatchesInitialSelection()
    ensures Select(Init(), InitialBall) == Init()
  {
    var s := Init();
    var r := Select(s, InitialBall);
    assert r.vis.meshes[0] == s.vis.meshes[0];
    assert r.vis.meshes[1] == s.vis.meshes[1];
    assert r.vis.meshes == s.vis.meshes;
  }

  /** A JavaScript number as seen by a relational comparison: finite, or NaN. */
  datatype JsNumber = Finite(x: real) | NaN

  /** The left operand of the glitch comparison: missing (`undefined`), a
      plain number, or a uniform record `{value: ...}`. */
  datatype JsValue = Undefined | Number(n: real) | Record(value: UniformValue)

  /** JavaScript's numeric conversion for these operands: `undefined` is
      NaN, and so is a plain object, whose primitive form is the string
      "[object Object]". */
  function ToNumber(v: JsValue): JsNumber
  {
    match v
    case Undefined => NaN
    case Number(n) => Finite(n)
    case Record(_) => NaN
  }

  /** `a > b` for a number `b`: false whenever `a` converts to NaN. */
  function GreaterThan(a: JsValue, b: real): (r: bool)
    ensures r ==> ToNumber(a).Finite?
    ensures a.Number? ==> (r <==> a.n > b)
  {
    match ToNumber(a)
    case NaN => false
    case Finite(x) => x > b
  }

  /** `uniforms[name]`: the record itself, not its value. */
  function Lookup(u: Uniforms, name: string): JsValue
  {
    if name in u then Record(u[name]) else Undefined
  }

  /** The glitch factor as the render loop computes it: the noisy ball's
      average-frequency uniform record is compared with the threshold. */
  function GlitchFactorAsWritten(s: Scene): (r: real)
    requires Valid(s)
    ensures r == StrongGlitch || r == WeakGlitch
  {
    if GreaterThan(Lookup(s.vis.meshes[0].uniforms, AvgFreqUniform), GlitchThreshold)
    then StrongGlitch else WeakGlitch
  }

  /** As written, the comparison sees NaN on every tick, so the glitch is
      always weak whatever the music does. */
  lemma AsWrittenGlitchNeverStrong(s: Scene)
    requires Valid(s)
    ensures GlitchFactorAsWritten(s) == WeakGlitch
  {
  }

  /** The intended two-level switch on the uniform's value. */
  function GlitchFactor(level: real): (r: real)
    ensures r == StrongGlitch || r == WeakGlitch
    ensures r == StrongGlitch <==> level > GlitchThreshold
  {
    if level > GlitchThreshold then StrongGlitch else WeakGlitch
  }

  /** One animation tick: the spike update (average frequency `avg`, frame
      `spikeBins`), the colour update (frame `colorBins`: the analyser is
      read once per update), then the glitch factor from the noisy ball's
      average-frequency value. Visibility is untouched. */
  function Tick(s: Scene, avg: real, spikeBins: seq<Byte>, colorBins: seq<Byte>): (r: Scene)
    requires Valid(s)
    requires |spikeBins| == BinCount && |colorBins| == BinCount
    ensures Valid(r)
    ensures SameShape(s.vis.meshes, r.vis.meshes)
    ensures forall i :: 0 <= i < |r.vis.meshes| ==>
              && r.vis.meshes[i].uniforms[AvgFreqUniform] == Scalar(Spike.Scalar(avg))
              && r.vis.meshes[i].uniforms[SpikeSizeUniform] == Samples(Spike.Profile(Normalize(spikeBins)))
              && r.vis.meshes[i].uniforms[ColorUniform] == Samples(Color.Profile(Normalize(colorBins)))
    ensures r.glitchFactor == StrongGlitch || r.glitchFactor == WeakGlitch
    ensures r.glitchFactor == StrongGlitch <==> avg > 130.0
  {
    assert DistinctNames(s.vis);
    var vis := UpdateColor(UpdateSpike(s.vis, avg, spikeBins), colorBins);
    Scene(vis, GlitchFactor(vis.meshes[0].uniforms[AvgFreqUniform].x))
  }

  /** Meshes of the same shape show the same number of visible meshes. */
  lemma {:induction false} VisibleCountSameShape(a: seq<Mesh>, b: seq<Mesh>)
    requires SameShape(a, b)
    ensures VisibleCount(a) == VisibleCount(b)
    decreases |a|
  {
    if |a| > 0 {
      assert SameShape(a[1..], b[1..]);
      VisibleCountSameShape(a[1..], b[1..]);
    }
  }

  /** A tick never changes which mesh is shown: with exactly one mesh
      visible before it, exactly the same mesh is visible after it. */
  lemma TickKeepsExactlyOne(s: Scene, avg: real, spikeBins: seq<Byte>, colorBins: seq<Byte>)
    requires Valid(s)
    requires |spikeBins| == BinCount && |colorBins| == BinCount
    requires VisibleCount(s.vis.meshes) == 1
    ensures VisibleCount(Tick(s, avg, spikeBins, colorBins).vis.meshes) == 1
    ensures forall i :: 0 <= i < |s.vis.meshes| ==>
              (Tick(s, avg, spikeBins, colorBins).vis.meshes[i].visible <==> s.vis.meshes[i].visible)
  {
    VisibleCountSameShape(s.vis.meshes, Tick(s, avg, spikeBins, colorBins).vis.meshes);
  }

  /** Concrete witness of the defect: after a tick at full volume the noisy
      ball's average-frequency value is 3.1, above the threshold, so the
      intended factor is strong, but the comparison as written yields weak. */
  lemma AsWrittenGlitchCounterexample()
    ensures var full := seq(BinCount, _ => 255 as Byte);
            var s := Tick(Init(), 255.0, full, full);
            && s.vis.meshes[0].uniforms[AvgFreqUniform] == Scalar(3.1)
            && s.glitchFactor == StrongGlitch
            && GlitchFactorAsWritten(s) == WeakGlitch
  {
  }
}
