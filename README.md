# WeedMap path splitting and multispectral assembly, in Dafny

This project models the two pieces of the WeedMap dataset tooling that make decisions.

1. **`create_list_paths`** and the steps that consume its result (`datasets/remote_sensing_2018_weedmap/remote_sensing_2018_weedmap.py`).
   - It takes the flat list of archive paths of one sensor variant (RedEdge or Sequoia).
   - It drops `.DS_Store` files.
   - It keeps colour ground-truth masks, plus the paths whose site folder (fourth segment from the end) belongs to the requested split.
   - It puts every path containing `tile` into the list of its channel folder (second segment from the end), and every other path into the mask list.
   - It sorts each list by (site folder, file name).
   - It zips the channel lists into one dictionary per tile.
   - `images_and_masks` then pairs the i-th tile dictionary with the i-th mask.
   - `_generate_examples` builds one numbered record per pair. The record holds the variant's channels plus an `annotation` entry for the mask.
2. **`LoadMultiSpectralDataset`** (`notebooks/utils.py`).
   - The constructor checks the requested channel names against a 3-band registry (`RGB`, `CIR`) and a 1-band registry (`R`, `G`, `B`, `NIR`, `RE`, `NDVI`).
   - `create_multispectral_feature` converts each requested 3-band channel to RGB in the caller's dictionary.
   - It then stacks the requested channels, in order, along the band axis.
   - It stores the result under `multispectral` in the same dictionary.

Files:

- `path_text.dfy` (module `PathText`): Python's substring test `in`, `str.split` on one character, and the code-point order Python uses to compare strings.
- `names.dfy` (module `Names`): the set of names a list holds and whether it repeats one, as the loader's constructor check compares them.
- `weedmap_paths.dfy` (module `WeedMapPaths`): the split tables and `create_list_paths`.
  - The filter and the final zip are functions.
  - The classification loop and the re-sorting loop are methods. Each is proved against the function that specifies it.
- `weedmap_builder.dfy` (module `WeedMapBuilder`): `images_and_masks` and `_generate_examples`.
- `multispectral.dfy` (module `MultiSpectral`): the registries, the constructor's check, and `create_multispectral_feature`.
  - The preallocated `multispectral_list` is an `array`.
  - The sample dictionary is the `columns` field of a `SampleBatch` object, which the method updates in place.
- `wrappers.dfy` (module `Wrappers`): `Option`, which stands for the places where the source raises.

## Model

| member | source | states |
|---|---|---|
| PathText.Contains | datasets/remote_sensing_2018_weedmap/remote_sensing_2018_weedmap.py:227-228 | Python's `sub in s` on strings, by comparing `sub` with the `|sub|`-long window of `s` at each position in turn; `ContainsIff` proves it means "occurs at some position". |
| PathText.ContainsIff | datasets/remote_sensing_2018_weedmap/remote_sensing_2018_weedmap.py:227-228 | Python's `sub in s` holds exactly when `sub` occurs at some position of `s`. |
| PathText.Split | datasets/remote_sensing_2018_weedmap/remote_sensing_2018_weedmap.py:229 | Python's `split("/")`: the pieces between separators, always at least one. `SplitPiecesFree`, `JoinSplit` and `SplitJoin` prove it is the inverse of joining. |
| PathText.SplitPiecesFree | datasets/remote_sensing_2018_weedmap/remote_sensing_2018_weedmap.py:229 | No piece produced by `split("/")` contains the separator. |
| PathText.JoinSplit | datasets/remote_sensing_2018_weedmap/remote_sensing_2018_weedmap.py:229 | Joining the pieces of `split(sep)` with `sep` gives the string back. |
| PathText.SplitJoin | datasets/remote_sensing_2018_weedmap/remote_sensing_2018_weedmap.py:240 | Splitting a join of pieces that contain no separator gives the pieces back. |
| PathText.LexLe | datasets/remote_sensing_2018_weedmap/remote_sensing_2018_weedmap.py:248-249 | Python's `<=` on strings: code-point by code-point, a prefix first. `LexLeTotal`, `LexLeAntisymmetric` and `LexLeTransitive` prove it is a total order. |
| PathText.LexLeTotal | datasets/remote_sensing_2018_weedmap/remote_sensing_2018_weedmap.py:248-249 | Python's string order compares any two strings. |
| PathText.LexLeAntisymmetric | datasets/remote_sensing_2018_weedmap/remote_sensing_2018_weedmap.py:248-249 | Two strings that are each at most the other are equal. |
| PathText.LexLeTransitive | datasets/remote_sensing_2018_weedmap/remote_sensing_2018_weedmap.py:248-249 | Python's string order is transitive. |
| Names.DistinctCard | notebooks/utils.py:37-40 | A list has at most as many distinct names as entries, and exactly as many when it repeats none. |
| WeedMapPaths.Channels | datasets/remote_sensing_2018_weedmap/remote_sensing_2018_weedmap.py:50-56 | The channel folders of each variant, in the order the records list them (`SEQUOIA_CHANNELS`, `REDEDGE_CHANNELS`). |
| WeedMapPaths.SplitSites | datasets/remote_sensing_2018_weedmap/remote_sensing_2018_weedmap.py:51-60 | The site folders of each split of each variant (`SEQUOIA_SPLIT`, `REDEDGE_SPLIT`). `SplitSitesDisjoint` proves train and test share none. |
| WeedMapPaths.Parse | datasets/remote_sensing_2018_weedmap/remote_sensing_2018_weedmap.py:229 | A parsed path keeps its text, has at least one segment, and its segments joined with `/` give the text back. |
| WeedMapPaths.Site | datasets/remote_sensing_2018_weedmap/remote_sensing_2018_weedmap.py:229 | The site folder `split("/")[-4]` of a path with at least four segments; the split tables are matched against it and it leads the sort key (:248). |
| WeedMapPaths.FileName | datasets/remote_sensing_2018_weedmap/remote_sensing_2018_weedmap.py:248 | The file name `split("/")[-1]`, the second part of the sort key. |
| WeedMapPaths.ChannelName | datasets/remote_sensing_2018_weedmap/remote_sensing_2018_weedmap.py:240 | The channel folder `split("/")[-2]` an image is filed under. |
| WeedMapPaths.IsTrash | datasets/remote_sensing_2018_weedmap/remote_sensing_2018_weedmap.py:227 | `".DS_Store" in file_path`, tested on the whole path string. |
| WeedMapPaths.IsColorMask | datasets/remote_sensing_2018_weedmap/remote_sensing_2018_weedmap.py:228 | `"GroundTruth_color.png" in file_path`, tested on the whole path string. |
| WeedMapPaths.IsTile | datasets/remote_sensing_2018_weedmap/remote_sensing_2018_weedmap.py:239 | `"tile" in file`, tested on the whole path string, so a folder name containing `tile` makes any file in it an image. `BucketOfKeptPath` states where such a path lands. |
| WeedMapPaths.WellFormed | datasets/remote_sensing_2018_weedmap/remote_sensing_2018_weedmap.py:224-249 | The exact condition for the listing to raise no `IndexError`: every path is trash or has at least four segments. It is the precondition of `KeptPaths`, `ListPaths` and `CreateListPaths`. |
| WeedMapPaths.Keep | datasets/remote_sensing_2018_weedmap/remote_sensing_2018_weedmap.py:226-230 | The filter condition: not trash, and a colour mask or in a site folder of the split. `KeptPaths` keeps exactly the paths meeting it. |
| WeedMapPaths.KeptPaths | datasets/remote_sensing_2018_weedmap/remote_sensing_2018_weedmap.py:224-232 | The filter keeps exactly the paths that are not trash and are colour masks or lie in a site folder of the split. Every such path is kept as often as it occurs; every other path is dropped. |
| WeedMapPaths.ChannelOrder | datasets/remote_sensing_2018_weedmap/remote_sensing_2018_weedmap.py:241 | The dictionary's channel keys are pairwise distinct. |
| WeedMapPaths.ChannelOrderMembers | datasets/remote_sensing_2018_weedmap/remote_sensing_2018_weedmap.py:238-242 | A channel folder is a key of the dictionary exactly when some kept path containing `tile` lies in it. |
| WeedMapPaths.ChannelPaths | datasets/remote_sensing_2018_weedmap/remote_sensing_2018_weedmap.py:239-242 | A channel's list holds exactly the kept `tile` paths of that folder, each as often as it was kept. |
| WeedMapPaths.MaskPaths | datasets/remote_sensing_2018_weedmap/remote_sensing_2018_weedmap.py:243-244 | The mask list holds exactly the kept paths without `tile`, each as often as it was kept. |
| WeedMapPaths.NoPathsOfUnmetChannel | datasets/remote_sensing_2018_weedmap/remote_sensing_2018_weedmap.py:241 | A channel not met yet has an empty list, as `setdefault` creates it. |
| WeedMapPaths.ClassifyPath | datasets/remote_sensing_2018_weedmap/remote_sensing_2018_weedmap.py:239-244 | One turn of the loop extends the key order, the channel lists and the mask list exactly as classifying one more path requires. |
| WeedMapPaths.ClassifyPaths | datasets/remote_sensing_2018_weedmap/remote_sensing_2018_weedmap.py:238-244 | After the loop, the key order, the channel lists and the mask list are the classification of all kept paths. |
| WeedMapPaths.BucketOfKeptPath | datasets/remote_sensing_2018_weedmap/remote_sensing_2018_weedmap.py:238-244 | A kept `tile` path is in its own channel's list, in no other list and not in the mask list. Any other kept path is in the mask list. |
| WeedMapPaths.KeyLe | datasets/remote_sensing_2018_weedmap/remote_sensing_2018_weedmap.py:248 | The `(site, file name)` tuple order Python uses: sites first, file names on equal sites. `KeyLeTotal`, `KeyLeTransitive` and `KeyLeAntisymmetric` prove it orders tiles totally. |
| WeedMapPaths.KeyLeTotal | datasets/remote_sensing_2018_weedmap/remote_sensing_2018_weedmap.py:248 | Any two paths are comparable by the (site, file name) key. |
| WeedMapPaths.KeyLeTransitive | datasets/remote_sensing_2018_weedmap/remote_sensing_2018_weedmap.py:248 | The (site, file name) key order is transitive. |
| WeedMapPaths.KeyLeAntisymmetric | datasets/remote_sensing_2018_weedmap/remote_sensing_2018_weedmap.py:248 | Two paths each no larger than the other have the same `(site, file name)` key. |
| WeedMapPaths.Insert | datasets/remote_sensing_2018_weedmap/remote_sensing_2018_weedmap.py:248-249 | Inserting a path adds exactly that path. |
| WeedMapPaths.InsertSorted | datasets/remote_sensing_2018_weedmap/remote_sensing_2018_weedmap.py:248-249 | Inserting into a list sorted by the key keeps it sorted. |
| WeedMapPaths.PrependSorted | datasets/remote_sensing_2018_weedmap/remote_sensing_2018_weedmap.py:248-249 | A path whose key is at most every key of a sorted list may be put in front of it. |
| WeedMapPaths.SortByKey | datasets/remote_sensing_2018_weedmap/remote_sensing_2018_weedmap.py:248-249 | `sorted` with the (site, file name) key returns a permutation of its input, ordered by the key. |
| WeedMapPaths.SortChannelLists | datasets/remote_sensing_2018_weedmap/remote_sensing_2018_weedmap.py:247-248 | The re-sorting loop keeps the dictionary's keys and replaces every list by its sorted copy. |
| WeedMapPaths.SortedChannelLists | datasets/remote_sensing_2018_weedmap/remote_sensing_2018_weedmap.py:247-248 | The sorted dictionary has one entry per channel met. |
| WeedMapPaths.MinLen | datasets/remote_sensing_2018_weedmap/remote_sensing_2018_weedmap.py:251 | The zip length is at most every channel list's length, is reached by one of them, and is 0 with no channels. |
| WeedMapPaths.ZipGroups | datasets/remote_sensing_2018_weedmap/remote_sensing_2018_weedmap.py:251 | There are as many groups as the shortest list is long. Every group is keyed by all channels, and group i maps each channel to the i-th element of its list. |
| WeedMapPaths.ImageGroups | datasets/remote_sensing_2018_weedmap/remote_sensing_2018_weedmap.py:247-251 | The zip of the sorted channel lists of the kept paths. `GroupCount`, `GroupKeys`, `GroupEntries` and `GroupsAligned` state what its groups hold. |
| WeedMapPaths.ListPaths | datasets/remote_sensing_2018_weedmap/remote_sensing_2018_weedmap.py:203-253 | The pair `create_list_paths` returns, as a function of its inputs. `CreateListPaths` is proved to compute it, and the lemmas below state its properties. |
| WeedMapPaths.CreateListPaths | datasets/remote_sensing_2018_weedmap/remote_sensing_2018_weedmap.py:203-253 | The method returns the groups and the mask list that filtering, classifying, sorting and zipping the input give. |
| WeedMapPaths.ReturnedPathsKept | datasets/remote_sensing_2018_weedmap/remote_sensing_2018_weedmap.py:224-253 | Every returned path, in a group or in the mask list, is one of the kept paths. |
| WeedMapPaths.NoTrashReturned | datasets/remote_sensing_2018_weedmap/remote_sensing_2018_weedmap.py:227 | No returned path contains `.DS_Store`, and every returned path is one of the input paths. |
| WeedMapPaths.ReturnedSiteInSplit | datasets/remote_sensing_2018_weedmap/remote_sensing_2018_weedmap.py:217-229 | A returned path that is not a colour mask lies in a site folder of the requested split. |
| WeedMapPaths.ColorMaskAdmitted | datasets/remote_sensing_2018_weedmap/remote_sensing_2018_weedmap.py:224-244 | A colour mask that is not trash and has no `tile` is in the mask list for every split, whatever its site folder. |
| WeedMapPaths.SplitSitesDisjoint | datasets/remote_sensing_2018_weedmap/remote_sensing_2018_weedmap.py:51-60 | The train and test site lists of each variant share no site. |
| WeedMapPaths.TrainTestShareNoSite | datasets/remote_sensing_2018_weedmap/remote_sensing_2018_weedmap.py:217-232 | Leaving colour masks aside, no path returned for the train section shares a site folder with one returned for the test section. |
| WeedMapPaths.NoImagesNoGroups | datasets/remote_sensing_2018_weedmap/remote_sensing_2018_weedmap.py:251 | When no kept path contains `tile`, no group is produced. |
| WeedMapPaths.GroupCount | datasets/remote_sensing_2018_weedmap/remote_sensing_2018_weedmap.py:251 | There are no more groups than images in any channel met. |
| WeedMapPaths.GroupKeys | datasets/remote_sensing_2018_weedmap/remote_sensing_2018_weedmap.py:240-251 | Every group is keyed by exactly the channel folders of the kept images. |
| WeedMapPaths.GroupEntries | datasets/remote_sensing_2018_weedmap/remote_sensing_2018_weedmap.py:251 | Every group maps each channel to an image of that channel folder. |
| WeedMapPaths.Key | datasets/remote_sensing_2018_weedmap/remote_sensing_2018_weedmap.py:248-249 | The sort-key lambda `(split("/")[-4], split("/")[-1])`: the tile a path shows. `KeyLe` orders it, and `SortedSameKeys` and the alignment lemmas are stated in terms of it. |
| WeedMapPaths.KeySetCard | datasets/remote_sensing_2018_weedmap/remote_sensing_2018_weedmap.py:248 | A list covers at most as many `(site, file name)` keys as it has paths. |
| WeedMapPaths.OneEachOfTail | datasets/remote_sensing_2018_weedmap/remote_sensing_2018_weedmap.py:248 | Dropping the head of a list holding one path per tile drops exactly the head's tile. |
| WeedMapPaths.OneEachOfPermutation | datasets/remote_sensing_2018_weedmap/remote_sensing_2018_weedmap.py:247-249 | Sorting a list changes neither the tiles it covers nor its length. |
| WeedMapPaths.SortedHeadsSameKey | datasets/remote_sensing_2018_weedmap/remote_sensing_2018_weedmap.py:247-249 | Two key-sorted lists covering the same tiles start with the same tile. |
| WeedMapPaths.SortedSameKeys | datasets/remote_sensing_2018_weedmap/remote_sensing_2018_weedmap.py:247-249 | Two key-sorted lists holding one path per tile of the same tiles have equal length and name the same tile at every position. |
| WeedMapPaths.GroupsAligned | datasets/remote_sensing_2018_weedmap/remote_sensing_2018_weedmap.py:247-251 | When every channel folder met holds one image of each tile of the same tiles, there is one group per tile and all images of a group share one `(site, file name)` key. |
| WeedMapPaths.MasksAligned | datasets/remote_sensing_2018_weedmap/remote_sensing_2018_weedmap.py:247-251 | When the mask list also holds one mask per tile of those tiles, sorted mask `i` has the key of image group `i`. |
| WeedMapBuilder.ImagesAndMasks | datasets/remote_sensing_2018_weedmap/remote_sensing_2018_weedmap.py:135-137 | Group i is paired with mask i, and pairing stops at the shorter sequence. |
| WeedMapBuilder.PairsAligned | datasets/remote_sensing_2018_weedmap/remote_sensing_2018_weedmap.py:135-137 | Under the same one-image-and-one-mask-per-tile condition, `images_and_masks` yields one pair per tile and pairs every image with the mask of its own tile. |
| WeedMapBuilder.HasAllChannels | datasets/remote_sensing_2018_weedmap/remote_sensing_2018_weedmap.py:179-201 | Every channel of the variant is a key of the group, so the record literal raises no `KeyError`. `FirstMissing` proves it equivalent to "no key is missing". |
| WeedMapBuilder.FirstMissing | datasets/remote_sensing_2018_weedmap/remote_sensing_2018_weedmap.py:179-201 | The raised key is the first of the variant's channels, in record order, that the group lacks. There is none exactly when the group has them all. |
| WeedMapBuilder.MakeRecord | datasets/remote_sensing_2018_weedmap/remote_sensing_2018_weedmap.py:179-201 | A record has exactly the variant's channels plus `annotation`. Each channel maps to the group's image and `annotation` maps to the paired mask. |
| WeedMapBuilder.GenerateExamples | datasets/remote_sensing_2018_weedmap/remote_sensing_2018_weedmap.py:167-201 | Examples are numbered 0, 1, 2, ... with the record of each pair in order. Generation stops at the first pair that lacks a channel and reports that channel. |
| WeedMapBuilder.KeyErrorIffChannelAbsent | datasets/remote_sensing_2018_weedmap/remote_sensing_2018_weedmap.py:179-201 | Over a listing, a group lacks a channel of the variant exactly when that channel has no kept image at all. |
| MultiSpectral.RegistriesDisjoint | notebooks/utils.py:21-33 | No channel is in both the 3-band and the 1-band registry. |
| MultiSpectral.RegisteredCount | notebooks/utils.py:37-40 | The left side of the constructor's assertion: the requested names found in the 3-band registry plus those found in the 1-band registry, each counted once. |
| MultiSpectral.SelectionAccepted | notebooks/utils.py:37-40 | The constructor's assertion: that count equals the request's length. `SelectionAcceptedIff` proves what it means. |
| MultiSpectral.SelectionAcceptedIff | notebooks/utils.py:37-40 | The constructor's assertion holds exactly when every requested name is registered and none is repeated. |
| MultiSpectral.RepeatedChannelRefused | notebooks/utils.py:37-40 | `["R", "R"]` fails the assertion. |
| MultiSpectral.ConvertPixel | notebooks/utils.py:59 | A converted pixel has three bands, and a 3-band pixel, which stands for a pixel of an image already in mode RGB, is unchanged. |
| MultiSpectral.ConvertRGB | notebooks/utils.py:59 | Conversion keeps the pixel count, gives three bands per pixel, and leaves a 3-band image (one already in mode RGB) unchanged. |
| MultiSpectral.ConvertColumn | notebooks/utils.py:59 | Converting a batch keeps the batch size and each image's pixel count, and gives three bands per pixel. |
| MultiSpectral.ConvertColumnIdempotent | notebooks/utils.py:59 | Converting a converted batch changes nothing. |
| MultiSpectral.BandCount | notebooks/utils.py:58-62 | The bands a slot contributes: 3 for a channel of the 3-band registry, 1 for any other. `SlotsAligned` proves every slot pixel has that many bands. |
| MultiSpectral.Depth | notebooks/utils.py:57-64 | The band depth of the assembled image: 3 per 3-band channel and 1 per other channel, added in request order. `DepthByRegistry` and `AssembledDepth` state it. |
| MultiSpectral.Offset | notebooks/utils.py:54-64 | The first band of channel `j`'s block: the depth of the channels before it. `AssembledBlock` proves the block lies there. |
| MultiSpectral.DepthByRegistry | notebooks/utils.py:57-64 | The assembled depth is 3 per requested 3-band channel plus 1 per requested 1-band channel. |
| MultiSpectral.ConcatPixels | notebooks/utils.py:64 | `np.concatenate(..., axis=-1)` at one pixel: the bands of the slots' pixels, one after another in request order. `ConcatLength` and `ConcatBlock` state its length and layout. |
| MultiSpectral.ConcatLength | notebooks/utils.py:64 | The concatenation of pixels has as many bands as the pixels together. |
| MultiSpectral.ConcatBlock | notebooks/utils.py:64 | Pixel j of a concatenation starts after the bands of the pixels before it. |
| MultiSpectral.SumLensDepth | notebooks/utils.py:57-64 | Pixels with the requested band counts add up to the depth. |
| MultiSpectral.Slot | notebooks/utils.py:58-62 | The slot one channel fills: its converted images for a 3-band channel, its images as given otherwise. `SlotsAligned` and `OneBandBlockReproduced` state what the slots hold. |
| MultiSpectral.Slots | notebooks/utils.py:54-62 | There is one slot per requested channel. |
| MultiSpectral.Concatenate | notebooks/utils.py:64 | The concatenation has the slots' batch size and pixel counts. |
| MultiSpectral.Conformable | notebooks/utils.py:57-64 | The shape precondition of the assembly: every requested channel present, equal batch sizes, one pixel count per column and per image position, and one band per 1-band pixel. `SlotsAligned` proves it makes the slots joinable. |
| MultiSpectral.SlotsAligned | notebooks/utils.py:57-64 | The slots of a conformable request can be joined, and each of their pixels has its channel's band count. |
| MultiSpectral.AssembledDepth | notebooks/utils.py:57-64 | Every pixel of the `multispectral` image has the request's depth. |
| MultiSpectral.AssembledBlock | notebooks/utils.py:54-64 | Channel j's bands start at the depth of the channels before it, and they hold its slot's pixel. |
| MultiSpectral.OneBandBlockReproduced | notebooks/utils.py:62-64 | The block of a 1-band channel is that channel's pixel as the caller supplied it. |
| MultiSpectral.ConvertChannels | notebooks/utils.py:58-59 | Converting the 3-band channels keeps the dictionary's keys. |
| MultiSpectral.ConvertChannelsEffect | notebooks/utils.py:58-60 | Each requested 3-band channel ends up converted, and every other entry is unchanged. |
| MultiSpectral.ConvertStep | notebooks/utils.py:57-62 | One turn of the loop converts the current channel if it is a 3-band one, and fills its slot with what the dictionary then holds. |
| MultiSpectral.SampleBatch.constructor | notebooks/utils.py:42-67 | The caller's `samples` dictionary as an object whose `columns` the method updates in place; a new one holds exactly the columns given. |
| MultiSpectral.LoadMultiSpectralDataset.constructor | notebooks/utils.py:10-40 | An accepted request yields a loader with the fixed registries and that request. |
| MultiSpectral.LoadMultiSpectralDataset.FillSlot | notebooks/utils.py:57-62 | One turn of the loop updates the dictionary, fills slot `index` with the specified slot, and leaves every other slot as it was. |
| MultiSpectral.LoadMultiSpectralDataset.FillSlots | notebooks/utils.py:54-62 | After the loop, `multispectral_list` holds the specified slots and every requested 3-band channel is converted in place. |
| MultiSpectral.LoadMultiSpectralDataset.CreateMultispectralFeature | notebooks/utils.py:42-67 | With channels requested, the method returns the same dictionary with the 3-band channels converted and `multispectral` set to the stacked slots. With none requested it fails and the dictionary is untouched. |
| MultiSpectral.NewLoader | notebooks/utils.py:10-40 | A loader is created exactly when the constructor's assertion holds. |

## Left out

- Dataset plumbing is not modelled: the `datasets` builder, `WeedMapConfig`, `_info` and its feature schemas, URLs, citation and licence texts, downloading, and `iter_files`. The model starts from the list of path strings that `iter_files` yields.
- The `print` calls in `_generate_examples` write to the console only. They are not modelled. The first of them looks up `img_path["B"]`, as the red_edge record does first, so the missing key reported is the same.
- An unknown `subset` or `split_section` string is not modelled: both are enumerations here. In the source the bad value is only looked up inside the filter condition, after the trash and colour-mask tests (:227-229). So it raises `UnboundLocalError` or `KeyError` only when some path is neither trash nor a colour mask. An empty listing, or one holding only trash files and colour masks, returns normally.
- A path with fewer than four segments that is not trash is excluded by the precondition `WellFormed`. The filter would raise `IndexError` on it unless it is a colour mask. A colour mask of one segment that contains `tile` raises at the channel lookup (:240). Any other short colour mask reaches `sorted`, which computes the key of every element and raises there.
- The docstring of `create_list_paths` says the train section returns four lists. The code returns two, and the model follows the code.
- WeedMapPaths.SortByKey: the contract states sortedness and permutation. It does not state that equal keys keep their input order, which Python's stable sort guarantees. The insertion sort does keep that order.
- Path strings are sequences of characters. No encoding or normalisation is modelled.
- Image decoding and PIL's `convert("RGB")` are foreign code. `ConvertPixel` is a stand-in: it replicates a grey value and drops bands beyond the third. The contracts rely only on "three bands, same pixel count, identity on 3-band images". The model has no image mode: a 3-band pixel stands for a pixel of an image already in mode RGB. PIL changes a 3-band image of another mode, such as YCbCr, which the model does not capture; converting twice gives the same result as converting once in every mode, and that is the only consequence the loop's proofs use.
- Images are flattened row-major to a sequence of pixels. Height and width appear only as the pixel count, and pixel values are unbounded integers with no dtype.
- `Conformable` is a precondition, not a model of NumPy's checks. It asks that every requested channel be present, that all hold the same number of images, that all images of a channel and image `b` of every channel have the same pixel count, and that 1-band pixels have one band. Inputs that break it are not modelled: a missing channel would raise `KeyError`, and ragged or mismatched images would make `np.array` build an object array or `np.concatenate` raise `ValueError`.
- `np.array` followed by `np.expand_dims(..., axis=-1)` on a 1-band column is represented by the column itself, whose pixels already carry one band.
- The zeros that `[0] * len(input_channels)` puts in the preallocated list are empty columns here. Every slot is overwritten, because a validated request names only registered channels.
- The loader stores a reference to the caller's `input_channels` list (utils.py:35). The model keeps a copy in a constant field, so aliasing is not captured. In the source, names appended to that list after construction bypass the assertion. An unregistered one leaves its `0` placeholder in `multispectral_list`, and `np.concatenate` then raises.
- The constructor's `assert` is modelled as always checked. Running Python with `-O` removes it, which is not modelled.
- Unused imports (`json`, `sklearn`, `pandas`, `ceil`, `tqdm`) play no part.
