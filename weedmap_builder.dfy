/**
 * The two steps that consume `create_list_paths`: the positional pairing of
 * image groups with masks (`images_and_masks`) and the per-variant record
 * built for every pair (`_generate_examples`).
 */
module WeedMapBuilder {
  import opened Wrappers
  import opened Names
  import opened WeedMapPaths

  /** One element of `images_and_masks`: an image group and the mask it is paired with. */
  datatype Pair = Pair(images: map<string, DeepPath>, mask: DeepPath)

  /** One yielded example: its running index and its record. */
  datatype Example = Example(index: nat, record: map<string, DeepPath>)

  const ANNOTATION: string := "annotation"

  /** `zip(images_dict, masks)`: the i-th group with the i-th mask, as far as the shorter goes. */
  function ImagesAndMasks(groups: seq<map<string, DeepPath>>, masks: seq<DeepPath>): (pairs: seq<Pair>)
    ensures |pairs| <= |groups| && |pairs| <= |masks|
    ensures |pairs| == |groups| || |pairs| == |masks|
    ensures forall i :: 0 <= i < |pairs| ==> pairs[i].images == groups[i] && pairs[i].mask == masks[i]
  {
    if groups == [] || masks == [] then []
    else [Pair(groups[0], masks[0])] + ImagesAndMasks(groups[1..], masks[1..])
  }

  /**
   * The first channel of `keys`, in order, that the group lacks: the key
   * whose lookup raises `KeyError` while the record literal is evaluated.
   */
  function FirstMissing(keys: seq<string>, images: map<string, DeepPath>): (r: Option<string>)
    ensures r.None? <==> forall k :: k in keys ==> k in images
    ensures r.Some? ==> exists j :: 0 <= j < |keys| && keys[j] == r.value && r.value !in images &&
                                    forall l :: 0 <= l < j ==> keys[l] in images
  {
    if keys == [] then None
    else if keys[0] !in images then Some(keys[0])
    else
      var r := FirstMissing(keys[1..], images);
      assert forall k :: k in keys ==> k == keys[0] || k in keys[1..];
      if r.Some? then
        var j :| 0 <= j < |keys[1..]| && keys[1..][j] == r.value && r.value !in images &&
                 forall l :: 0 <= l < j ==> keys[1..][l] in images;
        assert keys[j + 1] == r.value;
        r
      else r
  }

  /** Every channel of the variant is in the group. */
  predicate HasAllChannels(subset: Subset, images: map<string, DeepPath>)
  {
    forall c :: c in Channels(subset) ==> c in images
  }

  /** The record yielded for a pair: the variant's channels, then the mask under `annotation`. */
  function MakeRecord(subset: Subset, pair: Pair): (record: map<string, DeepPath>)
    requires HasAllChannels(subset, pair.images)
    ensures record.Keys == SetOf(Channels(subset)) + {ANNOTATION}
    ensures record[ANNOTATION] == pair.mask
    ensures forall c :: c in Channels(subset) ==> record[c] == pair.images[c]
  {
    (map c | c in Channels(subset) :: pair.images[c])[ANNOTATION := pair.mask]
  }

  /**
   * `_generate_examples`: records numbered 0, 1, 2, ... for the pairs in
   * order, until a pair lacks one of the variant's channels; that lookup
   * raises `KeyError`, reported as the missing channel after the examples
   * already yielded.
   */
  method GenerateExamples(subset: Subset, pairs: seq<Pair>)
    returns (examples: seq<Example>, missing: Option<string>)
    ensures |examples| <= |pairs|
    ensures forall i :: 0 <= i < |examples| ==>
              HasAllChannels(subset, pairs[i].images) &&
              examples[i] == Example(i, MakeRecord(subset, pairs[i]))
    ensures missing.None? ==> |examples| == |pairs|
    ensures missing.Some? ==>
              |examples| < |pairs| && missing == FirstMissing(Channels(subset), pairs[|examples|].images)
  {
    examples, missing := [], None;
    var idx := 0;
    while idx < |pairs|
      invariant 0 <= idx <= |pairs|
      invariant |examples| == idx
      invariant forall i :: 0 <= i < idx ==>
                  HasAllChannels(subset, pairs[i].images) &&
                  examples[i] == Example(i, MakeRecord(subset, pairs[i]))
    {
      var pair := pairs[idx];
      var absent := FirstMissing(Channels(subset), pair.images);
      if absent.Some? {
        missing := absent;
        return;
      }
      examples := examples + [Example(idx, MakeRecord(subset, pair))];
      idx := idx + 1;
    }
  }

  /**
   * Over a listing, generating stops with `KeyError` at a group exactly when
   * some channel of the variant has no kept image at all, since every group
   * is keyed by the channel folders met.
   */
  lemma KeyErrorIffChannelAbsent(kept: seq<DeepPath>, subset: Subset, i: nat)
    ensures i < |ImageGroups(kept)| ==>
              (FirstMissing(Channels(subset), ImageGroups(kept)[i]).Some? <==>
               exists c :: c in Channels(subset) && forall p :: p in kept ==> !InChannel(p, c))
  {
    if i < |ImageGroups(kept)| {
      var group := ImageGroups(kept)[i];
      GroupKeys(kept, i);
      assert forall c :: c in group <==> exists p :: p in kept && InChannel(p, c);
      var missing := FirstMissing(Channels(subset), group);
      assert missing.None? <==> forall c :: c in Channels(subset) ==> c in group;
    }
  }

  /**
   * When every channel folder met and the mask list each hold one path per
   * tile of the same tiles, `images_and_masks` yields one pair per tile and
   * pairs every image with the mask of its own tile.
   */
  lemma PairsAligned(kept: seq<DeepPath>, tiles: set<(string, string)>)
    requires ChannelsOneEachOf(kept, tiles) && OneEachOf(MaskPaths(kept), tiles)
    ensures var pairs := ImagesAndMasks(ImageGroups(kept), SortByKey(MaskPaths(kept)));
            && (ChannelOrder(kept) != [] ==> |pairs| == |tiles|)
            && forall i, c :: 0 <= i < |pairs| && c in pairs[i].images ==>
                 Key(pairs[i].images[c]) == Key(pairs[i].mask)
  {
    var masks := SortByKey(MaskPaths(kept));
    GroupsAligned(kept, tiles);
    MasksAligned(kept, tiles);
    OneEachOfPermutation(MaskPaths(kept), masks, tiles);
  }
}
