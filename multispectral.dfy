/**
 * `LoadMultiSpectralDataset`: it validates a requested channel list against
 * the fixed 3-band and 1-band registries, then stacks the requested channels
 * of a batch of samples along the band axis into one `multispectral` image.
 *
 * An image is its pixels in row-major order, each pixel the sequence of its
 * band values; a column is the batch of images stored under one channel name.
 */
module MultiSpectral {
  import opened Wrappers
  import opened Names

  type Pixel = seq<int>
  type Image = seq<Pixel>
  type Column = seq<Image>

  /** `_available_3_channels` and `_available_1_channel`. */
  const THREE_BAND_CHANNELS: seq<string> := ["RGB", "CIR"]
  const ONE_BAND_CHANNELS: seq<string> := ["R", "G", "B", "NIR", "RE", "NDVI"]

  /** The key the assembled image is stored under. */
  const MULTISPECTRAL: string := "multispectral"

  /** No channel is in both registries. */
  lemma RegistriesDisjoint()
    ensures forall c :: c in THREE_BAND_CHANNELS ==> c !in ONE_BAND_CHANNELS
  {
  }

  /* ---------------------------------------------------------------------- */
  /* Validation                                                              */
  /* ---------------------------------------------------------------------- */

  /**
   * The length the constructor's assertion compares with the request: the
   * requested names found in the 3-band registry plus those found in the
   * 1-band registry, each name counted once.
   */
  function RegisteredCount(input: seq<string>): nat
  {
    |SetOf(THREE_BAND_CHANNELS) * SetOf(input)| + |SetOf(ONE_BAND_CHANNELS) * SetOf(input)|
  }

  /** The constructor's assertion holds. */
  predicate SelectionAccepted(input: seq<string>)
  {
    RegisteredCount(input) == |input|
  }

  predicate Registered(c: string)
  {
    c in THREE_BAND_CHANNELS || c in ONE_BAND_CHANNELS
  }

  /** A proper subset is strictly smaller. */
  lemma SubsetCard(x: set<string>, y: set<string>)
    requires x <= y
    ensures |x| <= |y|
    ensures |x| == |y| ==> x == y
  {
    assert y == x + (y - x);
    assert x * (y - x) == {};
  }

  /**
   * The constructor accepts a request exactly when every name is in one of
   * the registries and no name is repeated.
   */
  lemma SelectionAcceptedIff(input: seq<string>)
    ensures SelectionAccepted(input) <==> (forall c :: c in input ==> Registered(c)) && Distinct(input)
  {
    var s := SetOf(input);
    var three, one := SetOf(THREE_BAND_CHANNELS), SetOf(ONE_BAND_CHANNELS);
    var found := (three + one) * s;
    assert three * one == {};
    assert (three * s) * (one * s) == {};
    assert found == (three * s) + (one * s);
    assert RegisteredCount(input) == |found|;
    SubsetCard(found, s);
    DistinctCard(input);
    if forall c :: c in input ==> Registered(c) {
      assert found == s;
    }
    if found == s {
      forall c | c in input
        ensures Registered(c)
      {
        assert c in s;
      }
    }
  }

  /** A repeated 1-band name is refused: the intersection counts it once. */
  lemma RepeatedChannelRefused()
    ensures !SelectionAccepted(["R", "R"])
  {
    SelectionAcceptedIff(["R", "R"]);
    var s := ["R", "R"];
    assert s[0] == s[1];
  }

  /* ---------------------------------------------------------------------- */
  /* Colour conversion                                                       */
  /* ---------------------------------------------------------------------- */

  /**
   * A stand-in for one pixel of PIL's `convert("RGB")`: a grey value (with
   * or without alpha) is replicated, colour bands beyond the third dropped.
   */
  function ConvertPixel(p: Pixel): (q: Pixel)
    ensures |q| == 3
    ensures |p| == 3 ==> q == p
  {
    if |p| >= 3 then p[..3]
    else if |p| >= 1 then [p[0], p[0], p[0]]
    else [0, 0, 0]
  }

  /** `image.convert("RGB")`: same pixels, three bands each. */
  function ConvertRGB(img: Image): (r: Image)
    ensures |r| == |img|
    ensures forall k :: 0 <= k < |r| ==> |r[k]| == 3
    ensures (forall k :: 0 <= k < |img| ==> |img[k]| == 3) ==> r == img
  {
    seq(|img|, k requires 0 <= k < |img| => ConvertPixel(img[k]))
  }

  /** `[image.convert("RGB") for image in column]`. */
  function ConvertColumn(col: Column): (r: Column)
    ensures |r| == |col|
    ensures forall b :: 0 <= b < |r| ==> |r[b]| == |col[b]| && forall k :: 0 <= k < |r[b]| ==> |r[b][k]| == 3
  {
    seq(|col|, b requires 0 <= b < |col| => ConvertRGB(col[b]))
  }

  /** Converting a converted column changes nothing. */
  lemma ConvertColumnIdempotent(col: Column)
    ensures ConvertColumn(ConvertColumn(col)) == ConvertColumn(col)
  {
    var once := ConvertColumn(col);
    forall b | 0 <= b < |once|
      ensures ConvertRGB(once[b]) == once[b]
    {
    }
  }

  /* ---------------------------------------------------------------------- */
  /* Band layout                                                             */
  /* ---------------------------------------------------------------------- */

  /** The bands a requested channel contributes. */
  function BandCount(c: string): nat
  {
    if c in THREE_BAND_CHANNELS then 3 else 1
  }

  /** The band depth of the assembled image. */
  function Depth(channels: seq<string>): nat
  {
    if channels == [] then 0 else BandCount(channels[0]) + Depth(channels[1..])
  }

  /** The first band of the block of `channels[j]`. */
  function Offset(channels: seq<string>, j: nat): nat
    requires j <= |channels|
  {
    Depth(channels[..j])
  }

  /** The number of requested channels that belong to `registry`. */
  function CountIn(channels: seq<string>, registry: seq<string>): nat
  {
    if channels == [] then 0
    else (if channels[0] in registry then 1 else 0) + CountIn(channels[1..], registry)
  }

  /** Three bands per requested 3-band channel, one per requested 1-band channel. */
  lemma {:induction false} DepthByRegistry(channels: seq<string>)
    requires AllRegistered(channels)
    ensures Depth(channels) == 3 * CountIn(channels, THREE_BAND_CHANNELS) + CountIn(channels, ONE_BAND_CHANNELS)
  {
    if channels != [] {
      assert forall c :: c in channels[1..] ==> c in channels;
      assert channels[0] in channels;
      RegistriesDisjoint();
      DepthByRegistry(channels[1..]);
    }
  }

  /** The band values of a pixel position across a sequence of pixels, end to end. */
  function ConcatPixels(ps: seq<Pixel>): Pixel
  {
    if ps == [] then [] else ps[0] + ConcatPixels(ps[1..])
  }

  function SumLens(ps: seq<Pixel>): nat
  {
    if ps == [] then 0 else |ps[0]| + SumLens(ps[1..])
  }

  lemma {:induction false} ConcatLength(ps: seq<Pixel>)
    ensures |ConcatPixels(ps)| == SumLens(ps)
  {
    if ps != [] {
      ConcatLength(ps[1..]);
    }
  }

  /** Pixel `j` of the concatenation starts after the bands of the pixels before it. */
  lemma {:induction false} ConcatBlock(ps: seq<Pixel>, j: nat)
    requires j < |ps|
    ensures SumLens(ps[..j]) + |ps[j]| <= |ConcatPixels(ps)|
    ensures ConcatPixels(ps)[SumLens(ps[..j])..SumLens(ps[..j]) + |ps[j]|] == ps[j]
  {
    ConcatLength(ps);
    ConcatLength(ps[1..]);
    if j > 0 {
      ConcatBlock(ps[1..], j - 1);
      assert ps[..j] == [ps[0]] + ps[1..][..j - 1];
      assert ps[..j][1..] == ps[1..][..j - 1];
    } else {
      assert ps[..0] == [];
    }
  }

  /** Pixels of the requested band counts add up to the depth. */
  lemma {:induction false} SumLensDepth(ps: seq<Pixel>, channels: seq<string>)
    requires |ps| == |channels|
    requires forall j :: 0 <= j < |ps| ==> |ps[j]| == BandCount(channels[j])
    ensures SumLens(ps) == Depth(channels)
  {
    if ps != [] {
      SumLensDepth(ps[1..], channels[1..]);
    }
  }

  /* ---------------------------------------------------------------------- */
  /* Assembly                                                                */
  /* ---------------------------------------------------------------------- */

  /**
   * The slot a channel fills: the converted images of a 3-band channel, the
   * images themselves for a 1-band channel (`np.expand_dims(..., -1)` gives
   * them back the single band axis every pixel here already carries).
   */
  function Slot(c: string, col: Column): Column
  {
    if c in THREE_BAND_CHANNELS then ConvertColumn(col) else col
  }

  predicate AllRegistered(channels: seq<string>)
  {
    forall c :: c in channels ==> Registered(c)
  }

  predicate Present(columns: map<string, Column>, channels: seq<string>)
  {
    forall c :: c in channels ==> c in columns
  }

  /** `multispectral_list` once the loop is done. */
  function Slots(columns: map<string, Column>, channels: seq<string>): (slots: seq<Column>)
    requires Present(columns, channels)
    ensures |slots| == |channels|
  {
    seq(|channels|, j requires 0 <= j < |channels| => Slot(channels[j], columns[channels[j]]))
  }

  /**
   * The requested channels can be stacked: every one is present, all hold
   * the same number of images, all images of a channel have the same number
   * of pixels, image `b` has the same number of pixels in every channel, and
   * the pixels of a 1-band channel have one band.
   */
  predicate Conformable(columns: map<string, Column>, channels: seq<string>)
  {
    && Present(columns, channels)
    && (channels != [] ==>
          forall c :: c in channels ==>
            |columns[c]| == |columns[channels[0]]| &&
            forall b :: 0 <= b < |columns[c]| ==> |columns[c][b]| == |columns[channels[0]][b]|)
    && (forall c, b :: c in channels && 0 <= b < |columns[c]| ==> |columns[c][b]| == |columns[c][0]|)
    && (forall c :: c in channels && c in ONE_BAND_CHANNELS ==>
          forall b, k :: 0 <= b < |columns[c]| && 0 <= k < |columns[c][b]| ==> |columns[c][b][k]| == 1)
  }

  /** The slots can be joined along the band axis. */
  predicate Aligned(slots: seq<Column>)
  {
    slots != [] &&
    forall j :: 0 <= j < |slots| ==>
      |slots[j]| == |slots[0]| && forall b :: 0 <= b < |slots[0]| ==> |slots[j][b]| == |slots[0][b]|
  }

  /** The pixels at position `k` of image `b`, one per slot. */
  function PixelsAt(slots: seq<Column>, b: nat, k: nat): seq<Pixel>
    requires Aligned(slots)
    requires b < |slots[0]| && k < |slots[0][b]|
  {
    seq(|slots|, j requires 0 <= j < |slots| => slots[j][b][k])
  }

  /** `np.concatenate(multispectral_list, axis=-1)`. */
  function Concatenate(slots: seq<Column>): (r: Column)
    requires Aligned(slots)
    ensures |r| == |slots[0]|
    ensures forall b :: 0 <= b < |r| ==> |r[b]| == |slots[0][b]|
  {
    seq(|slots[0]|, b requires 0 <= b < |slots[0]| =>
      seq(|slots[0][b]|, k requires 0 <= k < |slots[0][b]| => ConcatPixels(PixelsAt(slots, b, k))))
  }

  /** The slots of a conformable request can be joined, and each pixel has its channel's band count. */
  lemma SlotsAligned(columns: map<string, Column>, channels: seq<string>)
    requires AllRegistered(channels) && Conformable(columns, channels) && channels != []
    ensures Aligned(Slots(columns, channels))
    ensures forall j, b, k ::
              (0 <= j < |channels| && 0 <= b < |Slots(columns, channels)[j]| &&
               0 <= k < |Slots(columns, channels)[j][b]|) ==>
              |Slots(columns, channels)[j][b][k]| == BandCount(channels[j])
  {
    var slots := Slots(columns, channels);
    forall j | 0 <= j < |channels|
      ensures |slots[j]| == |slots[0]|
      ensures forall b :: 0 <= b < |slots[0]| ==> |slots[j][b]| == |slots[0][b]|
    {
      assert channels[j] in channels && channels[0] in channels;
    }
    forall j, b, k | 0 <= j < |channels| && 0 <= b < |slots[j]| && 0 <= k < |slots[j][b]|
      ensures |slots[j][b][k]| == BandCount(channels[j])
    {
      assert channels[j] in channels;
    }
  }

  /** Every pixel of the assembled image has as many bands as the request's depth. */
  lemma AssembledDepth(columns: map<string, Column>, channels: seq<string>, b: nat, k: nat)
    requires AllRegistered(channels) && Conformable(columns, channels) && channels != []
    requires b < |columns[channels[0]]| && k < |columns[channels[0]][b]|
    ensures Aligned(Slots(columns, channels))
    ensures var image := Concatenate(Slots(columns, channels));
            b < |image| && k < |image[b]| && |image[b][k]| == Depth(channels)
  {
    var slots := Slots(columns, channels);
    SlotsAligned(columns, channels);
    var ps := PixelsAt(slots, b, k);
    ConcatLength(ps);
    SumLensDepth(ps, channels);
  }

  /**
   * Channel `j` occupies the bands from the depth of the channels before it,
   * for as many bands as it contributes, and they hold its slot's pixel.
   */
  lemma AssembledBlock(columns: map<string, Column>, channels: seq<string>, b: nat, k: nat, j: nat)
    requires AllRegistered(channels) && Conformable(columns, channels) && j < |channels|
    requires b < |columns[channels[0]]| && k < |columns[channels[0]][b]|
    ensures Aligned(Slots(columns, channels))
    ensures var image := Concatenate(Slots(columns, channels));
            b < |image| && k < |image[b]| &&
            Offset(channels, j) + BandCount(channels[j]) <= |image[b][k]| &&
            image[b][k][Offset(channels, j)..Offset(channels, j) + BandCount(channels[j])] ==
              Slot(channels[j], columns[channels[j]])[b][k]
  {
    var slots := Slots(columns, channels);
    SlotsAligned(columns, channels);
    var ps := PixelsAt(slots, b, k);
    ConcatBlock(ps, j);
    SumLensDepth(ps[..j], channels[..j]);
  }

  /** The block of a 1-band channel is that channel's pixel as the caller supplied it. */
  lemma OneBandBlockReproduced(columns: map<string, Column>, channels: seq<string>, b: nat, k: nat, j: nat)
    requires AllRegistered(channels) && Conformable(columns, channels) && j < |channels| && channels[j] in ONE_BAND_CHANNELS
    requires b < |columns[channels[0]]| && k < |columns[channels[0]][b]|
    ensures Aligned(Slots(columns, channels))
    ensures var image := Concatenate(Slots(columns, channels));
            b < |image| && k < |image[b]| && Offset(channels, j) < |image[b][k]| &&
            [image[b][k][Offset(channels, j)]] == columns[channels[j]][b][k]
  {
    AssembledBlock(columns, channels, b, k, j);
    RegistriesDisjoint();
  }

  /* ---------------------------------------------------------------------- */
  /* The in-place overwrite of 3-band channels                               */
  /* ---------------------------------------------------------------------- */

  /** The columns after the loop has converted the 3-band channels of `channels`, in order. */
  function ConvertChannels(columns: map<string, Column>, channels: seq<string>): (r: map<string, Column>)
    requires Present(columns, channels)
    ensures r.Keys == columns.Keys
  {
    if channels == [] then columns
    else
      var init := channels[..|channels| - 1];
      var last := channels[|channels| - 1];
      assert forall c :: c in init ==> c in channels;
      var before := ConvertChannels(columns, init);
      if last in THREE_BAND_CHANNELS then before[last := ConvertColumn(before[last])] else before
  }

  /**
   * The loop replaces each requested 3-band channel by its converted images
   * and leaves every other entry as it was.
   */
  lemma {:induction false} ConvertChannelsEffect(columns: map<string, Column>, channels: seq<string>)
    requires Present(columns, channels)
    ensures forall c :: c in columns ==>
              ConvertChannels(columns, channels)[c] ==
                if c in channels && c in THREE_BAND_CHANNELS then ConvertColumn(columns[c]) else columns[c]
  {
    if channels != [] {
      var init := channels[..|channels| - 1];
      var last := channels[|channels| - 1];
      assert forall c :: c in init ==> c in channels;
      assert forall c :: c in channels <==> c in init || c == last;
      ConvertChannelsEffect(columns, init);
      if last in THREE_BAND_CHANNELS {
        ConvertColumnIdempotent(columns[last]);
      }
    }
  }

  /**
   * One more turn of the loop: the channel at `index` is converted in place
   * when it is a 3-band one, and its slot is what the dictionary then holds.
   */
  lemma ConvertStep(columns: map<string, Column>, channels: seq<string>, index: nat)
    requires Present(columns, channels) && index < |channels|
    ensures var current := ConvertChannels(columns, channels[..index]);
            var c := channels[index];
            && c in current
            && ConvertChannels(columns, channels[..index + 1]) ==
                 (if c in THREE_BAND_CHANNELS then current[c := ConvertColumn(current[c])] else current)
            && Slots(columns, channels)[index] ==
                 (if c in THREE_BAND_CHANNELS then ConvertColumn(current[c]) else current[c])
  {
    var c := channels[index];
    assert channels[..index + 1][..index] == channels[..index];
    assert channels[..index + 1][index] == c;
    assert c in channels;
    ConvertChannelsEffect(columns, channels[..index]);
    ConvertColumnIdempotent(columns[c]);
  }

  /** The batch dictionary the caller passes in and gets back. */
  class SampleBatch {
    var columns: map<string, Column>

    constructor (columns: map<string, Column>)
      ensures this.columns == columns
    {
      this.columns := columns;
    }
  }

  class LoadMultiSpectralDataset {
    const available3Channels: seq<string>
    const available1Channel: seq<string>
    const inputChannels: seq<string>

    /** The registries are the fixed ones and the request passed the constructor's assertion. */
    predicate Valid()
    {
      available3Channels == THREE_BAND_CHANNELS &&
      available1Channel == ONE_BAND_CHANNELS &&
      SelectionAccepted(inputChannels)
    }

    /** `__init__` on a request its assertion accepts. */
    constructor (inputChannels: seq<string>)
      requires SelectionAccepted(inputChannels)
      ensures Valid() && this.inputChannels == inputChannels
    {
      available3Channels := THREE_BAND_CHANNELS;
      available1Channel := ONE_BAND_CHANNELS;
      this.inputChannels := inputChannels;
    }

    /**
     * One turn of the loop of `create_multispectral_feature`: a 3-band channel
     * is converted in the dictionary and its converted images fill its slot,
     * a 1-band channel's images fill its slot as they are.
     */
    method FillSlot(samples: SampleBatch, slots: array<Column>, index: nat,
                    ghost original: map<string, Column>)
      requires Valid() && AllRegistered(inputChannels) && Present(original, inputChannels)
      requires index < |inputChannels| == slots.Length
      requires samples.columns == ConvertChannels(original, inputChannels[..index])
      modifies samples, slots
      ensures samples.columns == ConvertChannels(original, inputChannels[..index + 1])
      ensures slots[..index + 1] == old(slots[..index]) + [Slots(original, inputChannels)[index]]
      ensures slots[index + 1..] == old(slots[index + 1..])
    {
      var channel := inputChannels[index];
      assert channel in inputChannels;
      ConvertStep(original, inputChannels, index);
      if channel in available3Channels {
        samples.columns := samples.columns[channel := ConvertColumn(samples.columns[channel])];
        slots[index] := samples.columns[channel];
      } else if channel in available1Channel {
        slots[index] := samples.columns[channel];
      }
    }

    /**
     * The loop of `create_multispectral_feature`: `multispectral_list`
     * preallocated with one slot per requested channel, filled in order.
     */
    method FillSlots(samples: SampleBatch) returns (slots: array<Column>)
      requires Valid() && AllRegistered(inputChannels) && Present(samples.columns, inputChannels)
      modifies samples
      ensures fresh(slots)
      ensures slots[..] == Slots(old(samples.columns), inputChannels)
      ensures samples.columns == ConvertChannels(old(samples.columns), inputChannels)
    {
      ghost var original := samples.columns;
      ghost var expected := Slots(original, inputChannels);
      slots := new Column[|inputChannels|];
      var index := 0;
      while index < |inputChannels|
        invariant 0 <= index <= |inputChannels|
        invariant samples.columns == ConvertChannels(original, inputChannels[..index])
        invariant slots[..index] == expected[..index]
      {
        FillSlot(samples, slots, index, original);
        assert expected[..index + 1] == expected[..index] + [expected[index]];
        index := index + 1;
      }
      assert inputChannels[..index] == inputChannels;
      assert slots[..] == slots[..index];
      assert expected[..index] == expected;
    }

    /**
     * `create_multispectral_feature`: fills one slot per requested channel,
     * converting 3-band channels in the caller's dictionary as it goes, then
     * stores the concatenated slots under `multispectral` and returns the
     * same dictionary. With no channel requested, `np.concatenate` has
     * nothing to join and raises: `None`, with the dictionary untouched.
     */
    method CreateMultispectralFeature(samples: SampleBatch) returns (result: Option<SampleBatch>)
      requires Valid()
      requires Conformable(samples.columns, inputChannels)
      modifies samples
      ensures inputChannels == [] ==> result == None && samples.columns == old(samples.columns)
      ensures inputChannels != [] ==>
                result == Some(samples) &&
                Aligned(Slots(old(samples.columns), inputChannels)) &&
                samples.columns ==
                  ConvertChannels(old(samples.columns), inputChannels)
                    [MULTISPECTRAL := Concatenate(Slots(old(samples.columns), inputChannels))]
    {
      ghost var original := samples.columns;
      SelectionAcceptedIff(inputChannels);
      var slots := FillSlots(samples);
      if |inputChannels| == 0 {
        return None;
      }
      SlotsAligned(original, inputChannels);
      var multispectral := Concatenate(slots[..]);
      samples.columns := samples.columns[MULTISPECTRAL := multispectral];
      return Some(samples);
    }
  }

  /**
   * `__init__`: a loader for the request when the constructor's assertion
   * holds, `None` where it raises `AssertionError`.
   */
  method NewLoader(inputChannels: seq<string>) returns (loader: Option<LoadMultiSpectralDataset>)
    ensures loader.Some? <==> SelectionAccepted(inputChannels)
    ensures loader.Some? ==>
              fresh(loader.value) && loader.value.Valid() && loader.value.inputChannels == inputChannels
  {
    if RegisteredCount(inputChannels) == |inputChannels| {
      var l := new LoadMultiSpectralDataset(inputChannels);
      loader := Some(l);
    } else {
      loader := None;
    }
  }
}
