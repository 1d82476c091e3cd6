/**
 * The archive path classifier and splitter of the WeedMap dataset loader
 * (`create_list_paths`): it keeps the paths of one split, buckets them into
 * per-channel image lists and a mask list, sorts each list by
 * (site folder, file name) and zips the channel lists into per-tile groups.
 *
 * Each input path is parsed once into a `FilePath` that carries the string
 * (for the substring tests) beside its `path.split("/")` segments (for the
 * site, channel and file-name lookups).
 */
module WeedMapPaths {
  import opened PathText
  import opened Names

  /** The two sensor variants (`subset` in the source). */
  datatype Subset = RedEdge | Sequoia

  /** The two split sections (`split_section` in the source). */
  datatype SplitSection = Train | Test

  /** The image channels each variant exposes, in the order the records list them. */
  const SEQUOIA_CHANNELS: seq<string> := ["CIR", "G", "NDVI", "NIR", "R", "RE"]
  const REDEDGE_CHANNELS: seq<string> := ["B", "CIR", "G", "NDVI", "NIR", "R", "RE", "RGB"]

  function Channels(subset: Subset): seq<string>
  {
    match subset
    case RedEdge => REDEDGE_CHANNELS
    case Sequoia => SEQUOIA_CHANNELS
  }

  /** The site folders of a split (`SEQUOIA_SPLIT`, `REDEDGE_SPLIT`). */
  function SplitSites(subset: Subset, section: SplitSection): seq<string>
  {
    match subset
    case RedEdge => if section == Train then ["000", "001", "002", "004"] else ["003"]
    case Sequoia => if section == Train then ["006", "007"] else ["005"]
  }

  const TRASH_MARKER: string := ".DS_Store"
  const COLOR_MASK_MARKER: string := "GroundTruth_color.png"
  const TILE_MARKER: string := "tile"

  /**
   * A file path carried with its `/`-separated segments, so that the
   * segment lookups do not re-split the string each time.
   */
  datatype FilePath = FilePath(raw: string, segments: seq<string>)

  /** `path.split("/")`, kept beside the path. */
  function Parse(raw: string): (p: FilePath)
    ensures p.raw == raw && |p.segments| >= 1 && Join(p.segments, '/') == raw
  {
    JoinSplit(raw, '/');
    FilePath(raw, Split(raw, '/'))
  }

  /** Every input path, parsed. */
  function ParseAll(raws: seq<string>): (paths: seq<FilePath>)
    ensures |paths| == |raws|
    ensures forall i :: 0 <= i < |raws| ==> paths[i] == Parse(raws[i])
  {
    seq(|raws|, i requires 0 <= i < |raws| => Parse(raws[i]))
  }

  /** The path has the four segments the site and the sort key are read from. */
  predicate Deep(path: FilePath)
  {
    |path.segments| >= 4
  }

  /** A path on which `split("/")[-4]` does not raise an IndexError. */
  type DeepPath = p: FilePath | Deep(p) witness FilePath("", ["", "", "", ""])

  /** `path.split("/")[-k]`. */
  function SegmentFromEnd(path: FilePath, k: nat): string
    requires 1 <= k <= |path.segments|
  {
    path.segments[|path.segments| - k]
  }

  /** The site folder, `split("/")[-4]`. */
  function Site(path: DeepPath): string
  {
    SegmentFromEnd(path, 4)
  }

  /** The file name, `split("/")[-1]`. */
  function FileName(path: DeepPath): string
  {
    SegmentFromEnd(path, 1)
  }

  /** The channel folder of an image, `split("/")[-2]`. */
  function ChannelName(path: DeepPath): string
  {
    SegmentFromEnd(path, 2)
  }

  /** Substring tests on the whole path. */
  predicate IsTrash(path: FilePath) { Contains(path.raw, TRASH_MARKER) }
  predicate IsColorMask(path: FilePath) { Contains(path.raw, COLOR_MASK_MARKER) }
  predicate IsTile(path: FilePath) { Contains(path.raw, TILE_MARKER) }

  /** The filter can evaluate its condition on this path without an IndexError. */
  predicate FilterDefined(path: FilePath)
  {
    IsTrash(path) || IsColorMask(path) || Deep(path)
  }

  /** The condition of the filtering list comprehension. */
  predicate Keep(path: FilePath, subset: Subset, section: SplitSection)
    requires FilterDefined(path)
  {
    !IsTrash(path) && (IsColorMask(path) || Site(path) in SplitSites(subset, section))
  }

  /**
   * The whole listing runs without an IndexError: every path that survives
   * the trash test is deep enough for the site lookup and the sort key
   * (the sort computes the key of every surviving path, even a lone one).
   */
  predicate WellFormed(paths: seq<FilePath>)
  {
    forall p :: p in paths ==> IsTrash(p) || Deep(p)
  }

  /** The filtering list comprehension: the paths that satisfy `Keep`, in input order. */
  function KeptPaths(paths: seq<FilePath>, subset: Subset, section: SplitSection): (kept: seq<DeepPath>)
    requires WellFormed(paths)
    ensures forall p :: p in kept ==> p in paths && Keep(p, subset, section)
    ensures forall p :: p in paths ==>
              multiset(kept)[p] == if Keep(p, subset, section) then multiset(paths)[p] else 0
  {
    if paths == [] then []
    else
      var rest := KeptPaths(paths[1..], subset, section);
      assert paths == [paths[0]] + paths[1..];
      if Keep(paths[0], subset, section) then [paths[0]] + rest else rest
  }

  /** The path is an image of channel `c`. */
  predicate InChannel(path: DeepPath, c: string)
  {
    IsTile(path) && ChannelName(path) == c
  }

  /**
   * The channel names met while classifying, in the order of first appearance
   * (the insertion order of the per-channel dictionary).
   */
  function ChannelOrder(kept: seq<DeepPath>): (order: seq<string>)
    ensures Distinct(order)
  {
    if kept == [] then []
    else
      var last := kept[|kept| - 1];
      var order := ChannelOrder(kept[..|kept| - 1]);
      if IsTile(last) && ChannelName(last) !in order then order + [ChannelName(last)] else order
  }

  /** A channel is in the order exactly when some kept image belongs to it. */
  lemma {:induction false} ChannelOrderMembers(kept: seq<DeepPath>)
    ensures forall c :: c in ChannelOrder(kept) <==> exists p :: p in kept && InChannel(p, c)
  {
    if kept != [] {
      var init := kept[..|kept| - 1];
      var last := kept[|kept| - 1];
      assert kept == init + [last];
      ChannelOrderMembers(init);
      forall c | exists p :: p in kept && InChannel(p, c)
        ensures c in ChannelOrder(kept)
      {
        var p :| p in kept && InChannel(p, c);
        if p != last {
          assert p in init;
        }
      }
      forall c | c in ChannelOrder(kept)
        ensures exists p :: p in kept && InChannel(p, c)
      {
        if c in ChannelOrder(init) {
          var p :| p in init && InChannel(p, c);
          assert p in kept;
        } else {
          assert InChannel(last, c);
        }
      }
    }
  }

  /** The images of channel `c`, in input order. */
  function ChannelPaths(kept: seq<DeepPath>, c: string): (r: seq<DeepPath>)
    ensures forall p :: p in r ==> p in kept && InChannel(p, c)
    ensures forall p :: p in kept ==>
              multiset(r)[p] == if InChannel(p, c) then multiset(kept)[p] else 0
  {
    if kept == [] then []
    else
      var init := kept[..|kept| - 1];
      var last := kept[|kept| - 1];
      assert kept == init + [last];
      var r := ChannelPaths(init, c);
      if InChannel(last, c) then r + [last] else r
  }

  /** The paths without the `tile` marker, in input order. */
  function MaskPaths(kept: seq<DeepPath>): (r: seq<DeepPath>)
    ensures forall p :: p in r ==> p in kept && !IsTile(p)
    ensures forall p :: p in kept ==>
              multiset(r)[p] == if IsTile(p) then 0 else multiset(kept)[p]
  {
    if kept == [] then []
    else
      var init := kept[..|kept| - 1];
      var last := kept[|kept| - 1];
      assert kept == init + [last];
      var r := MaskPaths(init);
      if IsTile(last) then r else r + [last]
  }

  /** Classifying one more path extends each specification by that path. */
  lemma ChannelOrderStep(prefix: seq<DeepPath>, file: DeepPath)
    ensures ChannelOrder(prefix + [file]) ==
              if IsTile(file) && ChannelName(file) !in ChannelOrder(prefix)
              then ChannelOrder(prefix) + [ChannelName(file)] else ChannelOrder(prefix)
  {
    var s := prefix + [file];
    assert s[..|s| - 1] == prefix && s[|s| - 1] == file;
  }

  lemma ChannelPathsStep(prefix: seq<DeepPath>, file: DeepPath, c: string)
    ensures ChannelPaths(prefix + [file], c) ==
              ChannelPaths(prefix, c) + if InChannel(file, c) then [file] else []
  {
    var s := prefix + [file];
    assert s[..|s| - 1] == prefix && s[|s| - 1] == file;
  }

  lemma MaskPathsStep(prefix: seq<DeepPath>, file: DeepPath)
    ensures MaskPaths(prefix + [file]) == MaskPaths(prefix) + if IsTile(file) then [] else [file]
  {
    var s := prefix + [file];
    assert s[..|s| - 1] == prefix && s[|s| - 1] == file;
  }

  /** A channel not met yet has no images so far. */
  lemma NoPathsOfUnmetChannel(prefix: seq<DeepPath>, name: string)
    requires name !in ChannelOrder(prefix)
    ensures ChannelPaths(prefix, name) == []
  {
    ChannelOrderMembers(prefix);
  }

  /** The three collections hold exactly the classification of `seen`. */
  ghost predicate Classified(seen: seq<DeepPath>, order: seq<string>,
                             images: map<string, seq<DeepPath>>, masks: seq<DeepPath>)
  {
    && order == ChannelOrder(seen)
    && (forall c :: c in images <==> c in order)
    && (forall c :: c in images ==> images[c] == ChannelPaths(seen, c))
    && masks == MaskPaths(seen)
  }

  /**
   * The body of the classification loop: an image goes to the list of its
   * channel folder (created on first use, as `setdefault` does), anything
   * else to the mask list.
   */
  method ClassifyPath(ghost seen: seq<DeepPath>, file: DeepPath, order: seq<string>,
                      images: map<string, seq<DeepPath>>, masks: seq<DeepPath>)
    returns (order': seq<string>, images': map<string, seq<DeepPath>>, masks': seq<DeepPath>)
    requires Classified(seen, order, images, masks)
    ensures Classified(seen + [file], order', images', masks')
  {
    ChannelOrderStep(seen, file);
    MaskPathsStep(seen, file);
    order', images', masks' := order, images, masks;
    if Contains(file.raw, TILE_MARKER) {
      var name := ChannelName(file);
      if name !in images' {
        NoPathsOfUnmetChannel(seen, name);
        images' := images'[name := []];
        order' := order' + [name];
      }
      images' := images'[name := images'[name] + [file]];
    } else {
      masks' := masks' + [file];
    }
    assert forall c :: c in images' <==> c in order';
    forall c | c in images'
      ensures images'[c] == ChannelPaths(seen + [file], c)
    {
      ChannelPathsStep(seen, file, c);
    }
  }

  /** The classification loop over the kept paths. */
  method ClassifyPaths(kept: seq<DeepPath>)
    returns (order: seq<string>, images: map<string, seq<DeepPath>>, masks: seq<DeepPath>)
    ensures order == ChannelOrder(kept)
    ensures forall c :: c in images <==> c in order
    ensures forall c :: c in images ==> images[c] == ChannelPaths(kept, c)
    ensures masks == MaskPaths(kept)
  {
    order, images, masks := [], map[], [];
    var i := 0;
    while i < |kept|
      invariant 0 <= i <= |kept|
      invariant Classified(kept[..i], order, images, masks)
    {
      assert kept[..i + 1] == kept[..i] + [kept[i]];
      order, images, masks := ClassifyPath(kept[..i], kept[i], order, images, masks);
      i := i + 1;
    }
    assert kept[..|kept|] == kept;
  }

  /** The sort key order: `(site, file name)` tuples compared as Python does. */
  predicate KeyLe(p: DeepPath, q: DeepPath)
  {
    LexLt(Site(p), Site(q)) || (Site(p) == Site(q) && LexLe(FileName(p), FileName(q)))
  }

  lemma KeyLeTotal(p: DeepPath, q: DeepPath)
    ensures KeyLe(p, q) || KeyLe(q, p)
  {
    LexLeTotal(Site(p), Site(q));
    LexLeTotal(FileName(p), FileName(q));
  }

  lemma KeyLeTransitive(p: DeepPath, q: DeepPath, r: DeepPath)
    requires KeyLe(p, q) && KeyLe(q, r)
    ensures KeyLe(p, r)
  {
    var sp, sq, sr := Site(p), Site(q), Site(r);
    if sp == sq && sq == sr {
      LexLeTransitive(FileName(p), FileName(q), FileName(r));
    } else if sp != sq && sq != sr {
      LexLeTransitive(sp, sq, sr);
      if sp == sr {
        LexLeAntisymmetric(sp, sq);
      }
    }
  }

  /** Nondecreasing in the sort key. */
  predicate SortedByKey(s: seq<DeepPath>)
  {
    forall i, j :: 0 <= i < j < |s| ==> KeyLe(s[i], s[j])
  }

  /** Insert `p` before the first element whose key is not below its own. */
  function Insert(p: DeepPath, s: seq<DeepPath>): (r: seq<DeepPath>)
    ensures multiset(r) == multiset(s) + multiset{p}
  {
    if s == [] then [p]
    else if KeyLe(p, s[0]) then [p] + s
    else
      assert s == [s[0]] + s[1..];
      [s[0]] + Insert(p, s[1..])
  }

  lemma {:induction false} InsertSorted(p: DeepPath, s: seq<DeepPath>)
    requires SortedByKey(s)
    ensures SortedByKey(Insert(p, s))
  {
    if s == [] {
    } else if KeyLe(p, s[0]) {
      forall j | 0 <= j < |s|
        ensures KeyLe(p, s[j])
      {
        if j > 0 {
          KeyLeTransitive(p, s[0], s[j]);
        }
      }
      PrependSorted(p, s);
    } else {
      var tail := Insert(p, s[1..]);
      InsertSorted(p, s[1..]);
      KeyLeTotal(p, s[0]);
      forall j | 0 <= j < |tail|
        ensures KeyLe(s[0], tail[j])
      {
        assert tail[j] in multiset(s[1..]) + multiset{p};
        if tail[j] != p {
          assert tail[j] in s[1..];
          var k :| 0 <= k < |s[1..]| && s[1..][k] == tail[j];
          assert s[k + 1] == tail[j];
        }
      }
      PrependSorted(s[0], tail);
    }
  }

  /** A key no larger than every element may go in front of a sorted list. */
  lemma PrependSorted(p: DeepPath, s: seq<DeepPath>)
    requires SortedByKey(s)
    requires forall j :: 0 <= j < |s| ==> KeyLe(p, s[j])
    ensures SortedByKey([p] + s)
  {
    var r := [p] + s;
    forall i, j | 0 <= i < j < |r|
      ensures KeyLe(r[i], r[j])
    {
      assert r[j] == s[j - 1];
      if i > 0 {
        assert r[i] == s[i - 1];
      }
    }
  }

  /**
   * Python's `sorted(paths, key=lambda p: (p.split("/")[-4], p.split("/")[-1]))`:
   * a permutation of the input in nondecreasing key order.
   */
  function SortByKey(s: seq<DeepPath>): (r: seq<DeepPath>)
    ensures multiset(r) == multiset(s)
    ensures SortedByKey(r)
  {
    if s == [] then []
    else
      var rest := SortByKey(s[1..]);
      assert s == [s[0]] + s[1..];
      InsertSorted(s[0], rest);
      Insert(s[0], rest)
  }

  /**
   * The re-sorting loop: every channel list of the dictionary is replaced by
   * its sorted copy, in dictionary order.
   */
  method SortChannelLists(order: seq<string>, images: map<string, seq<DeepPath>>)
    returns (sorted: map<string, seq<DeepPath>>)
    requires Distinct(order)
    requires forall c :: c in images <==> c in order
    ensures sorted.Keys == images.Keys
    ensures forall c :: c in sorted ==> sorted[c] == SortByKey(images[c])
  {
    sorted := images;
    var i := 0;
    while i < |order|
      invariant 0 <= i <= |order|
      invariant sorted.Keys == images.Keys
      invariant forall j :: 0 <= j < i ==> sorted[order[j]] == SortByKey(images[order[j]])
      invariant forall c :: c in images && c !in order[..i] ==> sorted[c] == images[c]
    {
      var key := order[i];
      assert forall j :: 0 <= j < i ==> order[j] != key;
      assert key !in order[..i];
      assert forall c :: c in order[..i + 1] ==> c in order[..i] || c == key;
      sorted := sorted[key := SortByKey(sorted[key])];
      i := i + 1;
    }
    forall c | c in sorted
      ensures sorted[c] == SortByKey(images[c])
    {
      var j :| 0 <= j < |order| && order[j] == c;
    }
  }

  /** The length of the shortest list among the named channels; 0 for no channels. */
  function MinLen(order: seq<string>, lists: map<string, seq<DeepPath>>): (n: nat)
    requires forall c :: c in order ==> c in lists
    ensures order == [] ==> n == 0
    ensures forall c :: c in order ==> n <= |lists[c]|
    ensures order != [] ==> exists c :: c in order && n == |lists[c]|
  {
    if order == [] then 0
    else
      var m := MinLen(order[1..], lists);
      assert forall c :: c in order ==> c == order[0] || c in order[1..];
      if order[1..] == [] || |lists[order[0]]| < m then |lists[order[0]]| else m
  }

  /**
   * `[dict(zip(keys, t)) for t in zip(*values)]`: group i maps every channel
   * to the i-th element of its list, for as many positions as every list has.
   */
  function ZipGroups(order: seq<string>, lists: map<string, seq<DeepPath>>): (groups: seq<map<string, DeepPath>>)
    requires forall c :: c in order ==> c in lists
    ensures |groups| == MinLen(order, lists)
    ensures forall i :: 0 <= i < |groups| ==>
              (forall c :: c in groups[i] <==> c in order) &&
              forall c :: c in order ==> groups[i][c] == lists[c][i]
  {
    var n := MinLen(order, lists);
    seq(n, i requires 0 <= i < n => map c | c in order :: lists[c][i])
  }

  /** What `create_list_paths` returns: the image groups and the mask list. */
  datatype PathLists = PathLists(groups: seq<map<string, DeepPath>>, masks: seq<DeepPath>)

  /** The sorted channel lists of the kept paths, one per channel met. */
  function SortedChannelLists(kept: seq<DeepPath>): (lists: map<string, seq<DeepPath>>)
    ensures forall c :: c in lists <==> c in ChannelOrder(kept)
  {
    map c | c in ChannelOrder(kept) :: SortByKey(ChannelPaths(kept, c))
  }

  /** The image groups zipped from the sorted channel lists of the kept paths. */
  function ImageGroups(kept: seq<DeepPath>): seq<map<string, DeepPath>>
  {
    ZipGroups(ChannelOrder(kept), SortedChannelLists(kept))
  }

  /** The result of `create_list_paths`, as a function of its inputs. */
  function ListPaths(raws: seq<string>, subset: Subset, section: SplitSection): PathLists
    requires WellFormed(ParseAll(raws))
  {
    var kept := KeptPaths(ParseAll(raws), subset, section);
    PathLists(ImageGroups(kept), SortByKey(MaskPaths(kept)))
  }

  /** `create_list_paths`: filter, classify, sort, zip. */
  method CreateListPaths(raws: seq<string>, subset: Subset, section: SplitSection)
    returns (groups: seq<map<string, DeepPath>>, masks: seq<DeepPath>)
    requires WellFormed(ParseAll(raws))
    ensures PathLists(groups, masks) == ListPaths(raws, subset, section)
  {
    var kept := KeptPaths(ParseAll(raws), subset, section);
    var order, images, maskFiles := ClassifyPaths(kept);
    var sorted := SortChannelLists(order, images);
    assert sorted == SortedChannelLists(kept);
    masks := SortByKey(maskFiles);
    groups := ZipGroups(order, sorted);
  }
  /** The path is somewhere in the result: in an image group or in the mask list. */
  predicate Returned(r: PathLists, p: FilePath)
  {
    p in r.masks || exists i :: 0 <= i < |r.groups| && p in r.groups[i].Values
  }

  /** Everything `create_list_paths` returns is one of the kept paths. */
  lemma ReturnedPathsKept(raws: seq<string>, subset: Subset, section: SplitSection)
    requires WellFormed(ParseAll(raws))
    ensures forall p :: Returned(ListPaths(raws, subset, section), p) ==>
              p in KeptPaths(ParseAll(raws), subset, section)
  {
    var kept := KeptPaths(ParseAll(raws), subset, section);
    var r := ListPaths(raws, subset, section);
    var lists := SortedChannelLists(kept);
    forall p | Returned(r, p)
      ensures p in kept
    {
      if p in r.masks {
        assert p in multiset(SortByKey(MaskPaths(kept)));
      } else {
        var i :| 0 <= i < |r.groups| && p in r.groups[i].Values;
        var c :| c in r.groups[i] && r.groups[i][c] == p;
        assert lists[c][i] == p;
        assert p in multiset(SortByKey(ChannelPaths(kept, c)));
      }
    }
  }

  /** No trash file is ever returned, and every returned path is an input path. */
  lemma NoTrashReturned(raws: seq<string>, subset: Subset, section: SplitSection)
    requires WellFormed(ParseAll(raws))
    ensures forall p :: Returned(ListPaths(raws, subset, section), p) ==>
              !IsTrash(p) && p.raw in raws
  {
    ReturnedPathsKept(raws, subset, section);
    ParsedInputs(raws);
  }

  /** A parsed path carries one of the input strings. */
  lemma ParsedInputs(raws: seq<string>)
    ensures forall p :: p in ParseAll(raws) ==> p.raw in raws
  {
    var paths := ParseAll(raws);
    forall p | p in paths
      ensures p.raw in raws
    {
      var k :| 0 <= k < |paths| && paths[k] == p;
      assert raws[k] == p.raw;
    }
  }

  /** A returned path that is not a colour mask lies in a site folder of the requested split. */
  lemma ReturnedSiteInSplit(raws: seq<string>, subset: Subset, section: SplitSection)
    requires WellFormed(ParseAll(raws))
    ensures forall p: DeepPath :: Returned(ListPaths(raws, subset, section), p) && !IsColorMask(p) ==>
              Site(p) in SplitSites(subset, section)
  {
    ReturnedPathsKept(raws, subset, section);
  }

  /**
   * A colour mask that is neither trash nor an image is returned as a mask
   * whatever the split, its site folder being never looked at.
   */
  lemma ColorMaskAdmitted(raws: seq<string>, subset: Subset, section: SplitSection, k: nat)
    requires WellFormed(ParseAll(raws))
    requires k < |raws|
    requires var p := Parse(raws[k]); !IsTrash(p) && IsColorMask(p) && !IsTile(p)
    ensures Parse(raws[k]) in ListPaths(raws, subset, section).masks
  {
    var paths := ParseAll(raws);
    assert paths[k] in paths;
    var q: DeepPath := paths[k];
    var kept := KeptPaths(paths, subset, section);
    assert multiset(paths)[q] > 0;
    assert q in kept;
    assert multiset(MaskPaths(kept))[q] > 0;
    assert q in multiset(SortByKey(MaskPaths(kept)));
  }

  /** The site folders of the train and test sections of a variant are disjoint. */
  lemma SplitSitesDisjoint(subset: Subset)
    ensures forall s :: s in SplitSites(subset, Train) ==> s !in SplitSites(subset, Test)
  {
    match subset
    case RedEdge =>
      var train, test := SplitSites(RedEdge, Train), SplitSites(RedEdge, Test);
      assert forall s :: s in train ==> s == "000" || s == "001" || s == "002" || s == "004";
      assert test == ["003"];
    case Sequoia =>
      var train, test := SplitSites(Sequoia, Train), SplitSites(Sequoia, Test);
      assert forall s :: s in train ==> s == "006" || s == "007";
      assert test == ["005"];
  }

  /**
   * Apart from colour masks, no path returned for the train section shares
   * a site folder with a path returned for the test section.
   */
  lemma TrainTestShareNoSite(raws: seq<string>, subset: Subset)
    requires WellFormed(ParseAll(raws))
    ensures forall p: DeepPath, q: DeepPath ::
              Returned(ListPaths(raws, subset, Train), p) && !IsColorMask(p) &&
              Returned(ListPaths(raws, subset, Test), q) && !IsColorMask(q) ==>
              Site(p) != Site(q)
  {
    ReturnedSiteInSplit(raws, subset, Train);
    ReturnedSiteInSplit(raws, subset, Test);
    SplitSitesDisjoint(subset);
  }

  /**
   * Every kept path lands in exactly one bucket: an image in the list of
   * its channel folder and in no other list, anything else in the mask list only.
   */
  lemma BucketOfKeptPath(kept: seq<DeepPath>, p: DeepPath)
    requires p in kept
    ensures IsTile(p) ==>
              ChannelName(p) in ChannelOrder(kept) && p in ChannelPaths(kept, ChannelName(p)) &&
              p !in MaskPaths(kept)
    ensures !IsTile(p) ==> p in MaskPaths(kept)
    ensures forall c :: p in ChannelPaths(kept, c) ==> IsTile(p) && c == ChannelName(p)
  {
    ChannelOrderMembers(kept);
    if IsTile(p) {
      assert multiset(ChannelPaths(kept, ChannelName(p)))[p] > 0;
    } else {
      assert multiset(MaskPaths(kept))[p] > 0;
    }
  }

  /** No image survives the filter: no group is produced. */
  lemma NoImagesNoGroups(kept: seq<DeepPath>)
    requires forall p :: p in kept ==> !IsTile(p)
    ensures ImageGroups(kept) == []
  {
    ChannelOrderMembers(kept);
  }

  /** There are no more groups than images in any channel folder met. */
  lemma GroupCount(kept: seq<DeepPath>)
    ensures forall c :: c in ChannelOrder(kept) ==> |ImageGroups(kept)| <= |ChannelPaths(kept, c)|
  {
    var lists := SortedChannelLists(kept);
    forall c | c in ChannelOrder(kept)
      ensures |lists[c]| == |ChannelPaths(kept, c)|
    {
      assert |multiset(lists[c])| == |multiset(ChannelPaths(kept, c))|;
    }
  }

  /**
   * Every group is keyed by exactly the channel folders met, that is (by
   * `ChannelOrderMembers`) the folders of the kept images.
   */
  lemma GroupKeys(kept: seq<DeepPath>, i: nat)
    ensures i < |ImageGroups(kept)| ==>
              forall c :: c in ImageGroups(kept)[i] <==> exists p :: p in kept && InChannel(p, c)
  {
    GroupKeysInOrder(kept);
    ChannelOrderMembers(kept);
  }

  lemma GroupKeysInOrder(kept: seq<DeepPath>)
    ensures forall i, c :: 0 <= i < |ImageGroups(kept)| ==>
              (c in ImageGroups(kept)[i] <==> c in ChannelOrder(kept))
  {
  }

  /** Every group maps a channel to an image of that channel folder. */
  lemma GroupEntries(kept: seq<DeepPath>)
    ensures forall i, c :: 0 <= i < |ImageGroups(kept)| && c in ImageGroups(kept)[i] ==>
              InChannel(ImageGroups(kept)[i][c], c)
  {
    var lists := SortedChannelLists(kept);
    var groups := ImageGroups(kept);
    forall i, c | 0 <= i < |groups| && c in groups[i]
      ensures InChannel(groups[i][c], c)
    {
      assert groups[i][c] in multiset(lists[c]);
    }
  }

  /** The sort key of a path, `(site, file name)`: it names one tile. */
  function Key(p: DeepPath): (string, string)
  {
    (Site(p), FileName(p))
  }

  /** The tiles a list of paths covers. */
  function KeySet(s: seq<DeepPath>): set<(string, string)>
  {
    set p | p in s :: Key(p)
  }

  /** The list holds one path for each tile of `tiles` and nothing else. */
  predicate OneEachOf(s: seq<DeepPath>, tiles: set<(string, string)>)
  {
    KeySet(s) == tiles && |tiles| == |s|
  }

  /** Every channel folder met holds one image of each tile of `tiles`. */
  predicate ChannelsOneEachOf(kept: seq<DeepPath>, tiles: set<(string, string)>)
  {
    forall c :: c in ChannelOrder(kept) ==> OneEachOf(ChannelPaths(kept, c), tiles)
  }

  /** Two paths each no larger than the other name the same tile. */
  lemma KeyLeAntisymmetric(p: DeepPath, q: DeepPath)
    requires KeyLe(p, q) && KeyLe(q, p)
    ensures Key(p) == Key(q)
  {
    if Site(p) == Site(q) {
      LexLeAntisymmetric(FileName(p), FileName(q));
    } else {
      LexLeAntisymmetric(Site(p), Site(q));
    }
  }

  lemma KeySetCons(s: seq<DeepPath>)
    requires s != []
    ensures KeySet(s) == {Key(s[0])} + KeySet(s[1..])
  {
    assert forall p :: p in s <==> p == s[0] || p in s[1..];
  }

  /** A list covers at most as many tiles as it has paths. */
  lemma {:induction false} KeySetCard(s: seq<DeepPath>)
    ensures |KeySet(s)| <= |s|
  {
    if s != [] {
      KeySetCons(s);
      KeySetCard(s[1..]);
    }
  }

  /** Dropping the head of a list with one path per tile drops the head's tile. */
  lemma OneEachOfTail(s: seq<DeepPath>, tiles: set<(string, string)>)
    requires s != [] && OneEachOf(s, tiles)
    ensures Key(s[0]) in tiles && OneEachOf(s[1..], tiles - {Key(s[0])})
  {
    KeySetCons(s);
    KeySetCard(s[1..]);
  }

  /** Reordering a list changes neither the tiles it covers nor its length. */
  lemma OneEachOfPermutation(s: seq<DeepPath>, r: seq<DeepPath>, tiles: set<(string, string)>)
    requires multiset(r) == multiset(s) && OneEachOf(s, tiles)
    ensures OneEachOf(r, tiles)
  {
    assert forall p :: p in r <==> p in s by {
      forall p
        ensures p in r <==> p in s
      {
        assert p in r <==> p in multiset(r);
      }
    }
    assert |r| == |multiset(r)| == |multiset(s)| == |s|;
  }

  /**
   * Two sorted lists that each hold one path per tile of the same tiles
   * name the same tile at every position.
   */
  lemma {:induction false} SortedSameKeys(s: seq<DeepPath>, t: seq<DeepPath>, tiles: set<(string, string)>)
    requires SortedByKey(s) && SortedByKey(t)
    requires OneEachOf(s, tiles) && OneEachOf(t, tiles)
    ensures |s| == |t|
    ensures forall i :: 0 <= i < |s| ==> Key(s[i]) == Key(t[i])
    decreases |s|
  {
    if s != [] {
      OneEachOfTail(s, tiles);
      OneEachOfTail(t, tiles);
      SortedHeadsSameKey(s, t, tiles);
      SortedSameKeys(s[1..], t[1..], tiles - {Key(s[0])});
      forall k | 0 <= k < |s|
        ensures Key(s[k]) == Key(t[k])
      {
        if k > 0 {
          assert s[k] == s[1..][k - 1] && t[k] == t[1..][k - 1];
        }
      }
    }
  }

  /** Both sorted lists start with the least of the tiles they cover. */
  lemma SortedHeadsSameKey(s: seq<DeepPath>, t: seq<DeepPath>, tiles: set<(string, string)>)
    requires SortedByKey(s) && SortedByKey(t)
    requires s != [] && t != [] && KeySet(s) == tiles && KeySet(t) == tiles
    ensures Key(s[0]) == Key(t[0])
  {
    assert Key(s[0]) in KeySet(t) && Key(t[0]) in KeySet(s);
    var i :| 0 <= i < |t| && Key(t[i]) == Key(s[0]);
    var j :| 0 <= j < |s| && Key(s[j]) == Key(t[0]);
    if i > 0 && j > 0 {
      assert KeyLe(t[0], t[i]) && KeyLe(s[0], s[j]);
      assert KeyLe(t[0], s[0]) && KeyLe(s[0], t[0]);
      KeyLeAntisymmetric(s[0], t[0]);
    }
  }

  /**
   * When every channel folder holds one image of each tile of the same
   * tiles, there is one group per tile and all the images of a group show
   * the same tile.
   */
  lemma GroupsAligned(kept: seq<DeepPath>, tiles: set<(string, string)>)
    requires ChannelsOneEachOf(kept, tiles)
    ensures ChannelOrder(kept) != [] ==> |ImageGroups(kept)| == |tiles|
    ensures forall i, c, d :: 0 <= i < |ImageGroups(kept)| && c in ImageGroups(kept)[i] && d in ImageGroups(kept)[i] ==>
              Key(ImageGroups(kept)[i][c]) == Key(ImageGroups(kept)[i][d])
  {
    var order := ChannelOrder(kept);
    var lists := SortedChannelLists(kept);
    var groups := ImageGroups(kept);
    forall c | c in order
      ensures OneEachOf(lists[c], tiles)
    {
      OneEachOfPermutation(ChannelPaths(kept, c), lists[c], tiles);
    }
    forall i, c, d | 0 <= i < |groups| && c in groups[i] && d in groups[i]
      ensures Key(groups[i][c]) == Key(groups[i][d])
    {
      SortedSameKeys(lists[c], lists[d], tiles);
    }
  }

  /**
   * When in addition the mask list holds one mask per tile of those tiles,
   * mask `i` of the result shows the tile of image group `i`.
   */
  lemma MasksAligned(kept: seq<DeepPath>, tiles: set<(string, string)>)
    requires ChannelsOneEachOf(kept, tiles) && OneEachOf(MaskPaths(kept), tiles)
    ensures forall i, c :: 0 <= i < |ImageGroups(kept)| && c in ImageGroups(kept)[i] ==>
              i < |SortByKey(MaskPaths(kept))| &&
              Key(SortByKey(MaskPaths(kept))[i]) == Key(ImageGroups(kept)[i][c])
  {
    var lists := SortedChannelLists(kept);
    var groups := ImageGroups(kept);
    var masks := SortByKey(MaskPaths(kept));
    OneEachOfPermutation(MaskPaths(kept), masks, tiles);
    forall i, c | 0 <= i < |groups| && c in groups[i]
      ensures i < |masks| && Key(masks[i]) == Key(groups[i][c])
    {
      OneEachOfPermutation(ChannelPaths(kept, c), lists[c], tiles);
      SortedSameKeys(masks, lists[c], tiles);
    }
  }
}
