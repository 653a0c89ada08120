/** The colour payload of one tick: twelve channels, each the mean of a
    fixed, hand-tuned group of low-mid frequency bins. */
module Color {
  import opened Frame

  /** Number of colour channels. */
  const ChannelCount: nat := 12

  /** The calibration groups of bin indices, one per channel, in channel order. */
  const Groups: seq<seq<nat>> :=
    [[24], [25], [26, 27], [28], [29, 30], [31, 32], [33, 34], [35, 36],
     [37, 38], [39, 40], [41, 42, 43], [44, 45]]

  /** Lowest bin any group reads. */
  const BandStart: nat := 24

  /** One past the highest bin any group reads. */
  const BandEnd: nat := 46

  /** Every group is non-empty and reads only bins in `[BandStart, BandEnd)`. */
  predicate GroupsInBand()
  {
    && |Groups| == ChannelCount
    && forall c :: 0 <= c < |Groups| ==>
         && |Groups[c]| > 0
         && forall i :: 0 <= i < |Groups[c]| ==> BandStart <= Groups[c][i] < BandEnd
  }

  lemma GroupsAreInBand()
    ensures GroupsInBand()
  {
  }

  /** Samples at the indices of one group, in group order. */
  function Gather(freq: seq<real>, g: seq<nat>): (r: seq<real>)
    requires forall i :: 0 <= i < |g| ==> g[i] < |freq|
    ensures |r| == |g|
  {
    seq(|g|, i requires 0 <= i < |g| => freq[g[i]])
  }

  /** Reference definition of a channel: the mean of its group's samples. */
  function Channel(freq: seq<real>, c: nat): real
    requires |freq| >= BandEnd
    requires c < ChannelCount
  {
    GroupsAreInBand();
    Mean(Gather(freq, Groups[c]))
  }

  /** `updateColor`'s colour array as written: single bins, pairs averaged
      by halving, and one triple averaged by thirds. */
  function Profile(freq: seq<real>): (r: seq<real>)
    requires |freq| >= BandEnd
    ensures |r| == ChannelCount
  {
    [ freq[24],
      freq[25],
      (freq[26] + freq[27]) / 2.0,
      freq[28],
      (freq[29] + freq[30]) / 2.0,
      (freq[31] + freq[32]) / 2.0,
      (freq[33] + freq[34]) / 2.0,
      (freq[35] + freq[36]) / 2.0,
      (freq[37] + freq[38]) / 2.0,
      (freq[39] + freq[40]) / 2.0,
      (freq[41] + freq[42] + freq[43]) / 3.0,
      (freq[44] + freq[45]) / 2.0 ]
  }

  /** The literal colour array agrees, channel by channel, with the means of
      the calibration groups. */
  lemma ProfileIsGroupMeans(freq: seq<real>)
    requires |freq| >= BandEnd
    ensures forall c :: 0 <= c < ChannelCount ==> Profile(freq)[c] == Channel(freq, c)
  {
    forall c | 0 <= c < ChannelCount
      ensures Profile(freq)[c] == Channel(freq, c)
    {
      GroupsAreInBand();
      MeanOfSmallGroup(freq, Groups[c]);
    }
  }

  /** The mean of a one-, two- or three-bin group, written out. */
  lemma MeanOfSmallGroup(freq: seq<real>, g: seq<nat>)
    requires forall i :: 0 <= i < |g| ==> g[i] < |freq|
    ensures |g| == 1 ==> Mean(Gather(freq, g)) == freq[g[0]]
    ensures |g| == 2 ==> Mean(Gather(freq, g)) == (freq[g[0]] + freq[g[1]]) / 2.0
    ensures |g| == 3 ==> Mean(Gather(freq, g)) == (freq[g[0]] + freq[g[1]] + freq[g[2]]) / 3.0
  {
    var s := Gather(freq, g);
    if |g| == 1 {
      SumOfOne(s);
    } else if |g| == 2 {
      SumOfTwo(s);
    } else if |g| == 3 {
      SumOfThree(s);
    }
  }

  lemma SumOfOne(s: seq<real>)
    requires |s| == 1
    ensures Sum(s) == s[0]
  {
    assert s[..0] == [];
  }

  lemma SumOfTwo(s: seq<real>)
    requires |s| == 2
    ensures Sum(s) == s[0] + s[1]
  {
    SumOfOne(s[..1]);
  }

  lemma SumOfThree(s: seq<real>)
    requires |s| == 3
    ensures Sum(s) == s[0] + s[1] + s[2]
  {
    SumOfTwo(s[..2]);
  }

  /** The profile reads only bins `BandStart .. BandEnd - 1`: frames that
      agree there give the same colours, so any frame of at least
      `BandEnd` bins is safe. */
  lemma ProfileReadsOnlyBand(freq: seq<real>, other: seq<real>)
    requires |freq| >= BandEnd && |other| >= BandEnd
    requires forall i :: BandStart <= i < BandEnd ==> freq[i] == other[i]
    ensures Profile(freq) == Profile(other)
  {
  }

  /** Unit-interval samples give unit-interval colours. */
  lemma ProfileInUnit(freq: seq<real>)
    requires |freq| >= BandEnd
    requires InUnit(freq)
    ensures InUnit(Profile(freq))
  {
  }

  /** A frame constant at `c` over the band gives `c` on every channel. */
  lemma ProfileOfConstant(freq: seq<real>, c: real)
    requires |freq| >= BandEnd
    requires forall i :: BandStart <= i < BandEnd ==> freq[i] == c
    ensures Profile(freq) == seq(ChannelCount, _ => c)
  {
  }

  /** Silence gives all-zero colours; a saturated frame gives all-one colours. */
  lemma ProfileExtremes()
    ensures Profile(Normalize(seq(BinCount, _ => 0))) == seq(ChannelCount, _ => 0.0)
    ensures Profile(Normalize(seq(BinCount, _ => 255))) == seq(ChannelCount, _ => 1.0)
  {
    ProfileOfConstant(Normalize(seq(BinCount, _ => 0)), 0.0);
    ProfileOfConstant(Normalize(seq(BinCount, _ => 255)), 1.0);
  }
}
