/** Shared vocabulary of the visualizer: the analyser's frame size, byte
    magnitudes, their normalisation to [0,1], and sums and means over exact
    reals (the source's floating-point divisions are modelled exactly). */
module Frame {

  /** Size of the FFT the audio analyser is created with. */
  const FftSize: nat := 4096

  /** Number of frequency bins the analyser returns each tick: half the FFT
      size (`FftSize / 2`, see `SizesAgree`). */
  const BinCount: nat := 2048

  lemma SizesAgree()
    ensures BinCount == FftSize / 2
  {
  }

  /** One frequency-bin magnitude as the analyser reports it: an unsigned byte. */
  type Byte = x: int | 0 <= x < 256

  /** Sum of a sequence of reals, accumulated left to right as a running total. */
  function Sum(s: seq<real>): real
  {
    if |s| == 0 then 0.0 else Sum(s[..|s| - 1]) + s[|s| - 1]
  }

  /** Arithmetic mean of a non-empty sequence. */
  function Mean(s: seq<real>): real
    requires |s| > 0
  {
    Sum(s) / |s| as real
  }

  /** Every element lies in the closed unit interval. */
  predicate InUnit(s: seq<real>)
  {
    forall i :: 0 <= i < |s| ==> 0.0 <= s[i] <= 1.0
  }

  /** Maps each byte to a fraction of full scale (`v / 255`). */
  function Normalize(bins: seq<Byte>): (r: seq<real>)
    ensures |r| == |bins|
    ensures InUnit(r)
    ensures forall i :: 0 <= i < |r| ==> r[i] * 255.0 == bins[i] as real
  {
    seq(|bins|, i requires 0 <= i < |bins| => bins[i] as real / 255.0)
  }

  /** Extending a sequence by one element adds that element to the running total. */
  lemma SumSnoc(s: seq<real>, x: real)
    ensures Sum(s + [x]) == Sum(s) + x
  {
    assert (s + [x])[..|s|] == s;
  }

  /** The sum of a concatenation is the sum of its parts. */
  lemma {:induction false} SumConcat(a: seq<real>, b: seq<real>)
    ensures Sum(a + b) == Sum(a) + Sum(b)
    decreases |b|
  {
    if |b| == 0 {
      assert a + b == a;
    } else {
      var b' := b[..|b| - 1];
      assert a + b == (a + b') + [b[|b| - 1]];
      SumSnoc(a + b', b[|b| - 1]);
      SumConcat(a, b');
      assert b == b' + [b[|b| - 1]];
      SumSnoc(b', b[|b| - 1]);
    }
  }

  /** A sum of unit-interval values lies between zero and the number of values. */
  lemma {:induction false} SumInUnit(s: seq<real>)
    requires InUnit(s)
    ensures 0.0 <= Sum(s) <= |s| as real
    decreases |s|
  {
    if |s| > 0 {
      SumInUnit(s[..|s| - 1]);
    }
  }

  /** A mean of unit-interval values is itself in the unit interval. */
  lemma MeanInUnit(s: seq<real>)
    requires |s| > 0
    requires InUnit(s)
    ensures 0.0 <= Mean(s) <= 1.0
  {
    SumInUnit(s);
  }

  /** A sequence whose every element is `c` sums to `|s| * c`. */
  lemma {:induction false} SumConstant(s: seq<real>, c: real)
    requires forall i :: 0 <= i < |s| ==> s[i] == c
    ensures Sum(s) == |s| as real * c
    decreases |s|
  {
    if |s| > 0 {
      SumConstant(s[..|s| - 1], c);
    }
  }

  /** A sequence whose every element is `c` has mean `c`. */
  lemma MeanConstant(s: seq<real>, c: real)
    requires |s| > 0
    requires forall i :: 0 <= i < |s| ==> s[i] == c
    ensures Mean(s) == c
  {
    SumConstant(s, c);
  }
}
