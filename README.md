# KITTI dataset configuration (rain-rendering)

This project models `config/kitti.py` of the rain-rendering pipeline, the
module that tells the renderer where the KITTI images, calibration files and
depth maps of each sequence are:

- `_sequences(params)` walks `images_root`. It keeps the folders that look
  like KITTI sequences: an object-detection folder holding `image_2` and
  `calib`, or a raw drive holding `image_02` whose name ends in `_sync`.
- `resolve_paths(params)` stores those sequences on `params`. It fails its
  assertion when there are none. Otherwise it rebuilds the `images`, `calib`
  and `depth` dictionaries, one entry per sequence. A sequence whose id
  starts with `raw_data` gets the raw-drive layout. Any other sequence gets
  the object layout, whose calibration is the `.txt` files listed in its
  `calib` folder.
- `settings()` has one computed value, the `data_object` camera speed ramp
  `np.arange(100., 0.-1, -1)`.

The filesystem is an input value (`Kitti.FileSystem`) with three parts:

- `walk`: the directories `os.walk` yields, in walk order.
- `existing`: the set of paths `os.path.exists` accepts.
- `listdir`: the listings `os.listdir` returns. A path without an entry
  cannot be listed, and `os.listdir` raises on it.

`os.path.join` is modelled as POSIX `posixpath.join` (module `PosixPath`):

- An absolute component restarts the path.
- A separator is inserted only when the path so far is non-empty and does
  not already end in `/`.

Python's slices `p[n:]`, `s[:n]` and `p[-n:]` are modelled as written
(module `Strings`). Lemmas show they mean "drop the prefix", `startswith`
and `endswith`.

The source functions are computed by these definitions:

- `_sequences` (config/kitti.py:6-16) is `Kitti.FindSequences`.
- The `.txt` comprehension (config/kitti.py:42) is `Kitti.CalibTxtPaths`.
- The values stored in `params.images`, `params.calib` and `params.depth`
  (config/kitti.py:27-45) are `Kitti.ImagePath`, `Kitti.CalibOf` and
  `Kitti.DepthPath`.
- `os.path.join` is `PosixPath.Join`.
- `np.arange` is `NumericRange.Arange`.

The lemmas in the table below are about these definitions.

`_sequences`' mask selection is `Filtering.MaskSelect` over
`Filtering.BitwiseOr`. It is proved equal to a plain filter by the sequence
rule (`Kitti.IsSequenceDir`).

`resolve_paths` is a method on a class `Kitti.Params` that holds the fields
the source reads and writes. Its loop is `Params.FillPaths`, and one pass of
that loop is `Params.ResolveSequence`. The maps the loop builds are
specified by `Kitti.Resolved` in terms of `ImagePath`, `CalibOf` and
`DepthPath`. When an object sequence's `calib` folder cannot be listed, the
method returns `ListdirFailed`. At that point the image path of the failing
sequence has been stored and its calibration and depth entries have not.

## Model

| member | source | states |
|---|---|---|
| Strings.SliceFrom | config/kitti.py:8 | `x[n:]` is what follows the first `n` characters, and empty when the string is shorter |
| Strings.SliceTo | config/kitti.py:27 | `s[:n]` is a prefix of `s` of length min(n, \|s\|) |
| Strings.SliceLast | config/kitti.py:14 | `p[-n:]` is a suffix of `p` of length min(n, \|p\|) |
| Strings.SliceToIsStartsWith | config/kitti.py:27 | `s[:len(x)] == x` holds exactly when `s` starts with `x` |
| Strings.SliceLastIsEndsWith | config/kitti.py:14 | `p[-len(x):] == x` holds exactly when `p` ends with `x`, for non-empty `x` |
| PosixPath.JoinPlain | config/kitti.py:29 | joining plain, slash-free components onto a root without a trailing slash gives the root, then `/` and each non-empty component |
| PosixPath.JoinPlainHead | config/kitti.py:29 | one plain component grows the root by `/c`, or leaves it as it is when empty; the result is again well formed |
| PosixPath.JoinStepPlain | config/kitti.py:29 | joining a plain non-empty component to a root without a trailing `/` inserts exactly one `/` |
| PosixPath.EmptyStepVanishes | config/kitti.py:11 | an empty component followed by another one contributes nothing to the join |
| PosixPath.JoinAfterSeparator | config/kitti.py:11 | the trailing `/` left by an empty component (the walk root's id) changes nothing once another component follows |
| PosixPath.SlashedCons | config/kitti.py:29 | the reference join of a component list is the first component's `/c` followed by the rest |
| Filtering.BitwiseOr | config/kitti.py:16 | `np.bitwise_or` of two masks is true at exactly the positions where either is |
| Filtering.MaskSelectIsFilter | config/kitti.py:16 | selecting by a mask that agrees with a predicate is filtering by that predicate |
| Filtering.FilterMembership | config/kitti.py:16 | an element is in a filter's result iff it is in the input and satisfies the predicate |
| Filtering.FilterMultiplicity | config/kitti.py:16 | a kept element occurs as often in the result as in the input; any other element never occurs |
| Filtering.FilterIsSubsequence | config/kitti.py:16 | a filter's result is an ordered subsequence of its input |
| Filtering.FilterEmpty | config/kitti.py:16-20 | a filter's result is empty iff no input element satisfies the predicate |
| NumericRange.CeilDiv | config/kitti.py:73 | the ceiling of a / b for positive b: the least multiple of b reaching a, divided by b |
| NumericRange.ArangeStopsBeforeStop | config/kitti.py:73 | the last value of `np.arange` lies strictly before `stop` and the next stride does not |
| NumericRange.Arange | config/kitti.py:73 | `np.arange(start, stop, step)`: entry i is start + i*step; every entry lies strictly before `stop` in the step direction; the next value would not |
| Kitti.FindSequencesIsFilter | config/kitti.py:8-16 | `_sequences` returns exactly the walked ids that obey the sequence rule, in walk order |
| Kitti.SequenceKeptIff | config/kitti.py:11-16 | an id is returned iff it is walked and (has `image_2` and `calib`) or (has `image_02` and ends in `_sync`) |
| Kitti.SequencesKeepWalkOrder | config/kitti.py:8-16 | the result is a subsequence of the walk; a kept id occurs as often as in the walk, a rejected one never |
| Kitti.NoSequencesIff | config/kitti.py:16-20 | `_sequences` returns nothing exactly when no walked id obeys the rule, which is the case the assertion rejects |
| Kitti.KeptIffMarkersExist | config/kitti.py:11-14 | for a plain id, the rule asks about the paths `<root>/<p>/image_2`, `<root>/<p>/calib` and `<root>/<p>/image_02` |
| Kitti.MarkerPaths | config/kitti.py:11-14 | the three marker joins, written out as plain paths |
| Kitti.JoinUnderId | config/kitti.py:11-14 | `os.path.join(root, p, ...)` for a plain id is the id's folder followed by `/name` per entry; the root itself for the empty id |
| Kitti.JoinLeaf | config/kitti.py:38 | `os.path.join(root, p, leaf)` is `<root>/<p>/<leaf>`, or `<root>/<leaf>` for the empty id |
| Kitti.JoinTwoLeaves | config/kitti.py:29 | `os.path.join(root, p, a, b)` is `<root>/<p>/<a>/<b>` |
| Kitti.WalkIdsAreRelative | config/kitti.py:8 | slicing `len(images_root) + 1` characters off a walked path gives "" for the root and `rel` for `<root>/<rel>` |
| Kitti.CalibTxtPathsFollowListing | config/kitti.py:42 | the comprehension yields one joined path per `.txt` entry of the listing, in listing order, and nothing else |
| Kitti.CalibTxtPathsArePlain | config/kitti.py:41-42 | under a well-formed `calib` folder, the calibration list is `<folder>/<f>` for each `.txt` entry `f` in listing order |
| Kitti.FirstUnlisted | config/kitti.py:25-42 | the index of the first sequence whose `calib` folder cannot be listed: all before it can, it cannot |
| Kitti.FirstUnlistedAt | config/kitti.py:25-42 | the sequence the loop fails on is the first one that cannot be listed |
| Kitti.FirstUnlistedNone | config/kitti.py:25-47 | when every sequence can be listed, the loop does not fail |
| Kitti.ResolvedStep | config/kitti.py:25-45 | resolving the next sequence adds its image, calibration and depth entries, and the maps hold exactly the sequences resolved so far |
| Kitti.ResolvedImageOnly | config/kitti.py:38-42 | when listing fails, the failing sequence has an image entry and no calibration or depth entry |
| Kitti.ResolvedAll | config/kitti.py:22-47 | after the loop, the key set of each of the three maps is the set of sequences |
| Kitti.Params.ResolvePaths | config/kitti.py:18-47 | stores `_sequences`' result and fails the assertion when it is empty, keeping the old maps. Otherwise the maps are replaced and, with k the first unlistable sequence, the call is Ok with all maps resolved, or ListdirFailed on that sequence's `calib` folder with the entries up to that point |
| Kitti.Params.FillPaths | config/kitti.py:22-47 | the loop: fresh maps, filled in sequence order, ending Ok with key sets equal to the sequences, or ListdirFailed at the first unlistable `calib` folder |
| Kitti.Params.ResolveSequence | config/kitti.py:26-45 | one pass: stores the image path; stores calibration and depth exactly when the calibration can be resolved; reports whether it could |
| Kitti.RawSequencePaths | config/kitti.py:27-35 | a `raw_data...` id: images at `<root>/<s>/image_02/data`, calibration file `<root>/<s>/../calib_cam_to_cam.txt`, depth at `<images>/depth`, with no listing needed |
| Kitti.ObjectSequencePaths | config/kitti.py:36-45 | any other id: images at `<s folder>/image_2`, depth at `<images>/depth`; the calibration resolves iff `<s folder>/calib` can be listed, and is then the `.txt` paths of that listing |
| Kitti.RawPathsUnder | config/kitti.py:29-32 | the two raw-drive joins written out as plain paths |
| Kitti.DepthUnder | config/kitti.py:35 | `os.path.join(images, 'depth')` appends `/depth` to the image folder |
| Kitti.SyncOutsideRawDataTakesObjectBranch | config/kitti.py:14 | a `*_sync` folder with `image_02` but no `raw_data` prefix is detected as a sequence, yet takes the object branch: images under `image_2`, calibration from a `calib` listing |
| Kitti.DataObjectCamMotionRamp | config/kitti.py:73 | the `data_object` ramp has 101 speeds, 100 down to 0, each one less than the one before |

## Left out

- Real I/O: `os.walk`, `os.path.exists` and `os.listdir` are the fields of
  `Kitti.FileSystem`. Walk order and listing order are given inputs, not
  derived from a directory tree.
- `os.walk` failing or yielding nothing: when `images_root` does not exist
  the walk is empty. numpy then applies `bitwise_or` to two empty float
  arrays, which raises a `TypeError`. The model returns an empty selection
  instead, which leads to the assertion failure.
- numpy's array of `str` is modelled as a sequence of strings. numpy's
  truncation of the fixed-width string dtype does not arise, because the
  width is taken from the longest element.
- A trailing separator on `images_root`: the slice `len(images_root) + 1` is
  modelled literally. The path lemmas assume a root with no trailing `/`
  (`PosixPath.WellFormedRoot`), as the ids only make sense then.
- An empty root: `PosixPath.WellFormedRoot` also excludes `""`. The source
  accepts `dataset_root == ""`, where `os.path.join("", s, "image_2")` is
  `s/image_2`. The model's functions (`Join`, `ImagePath`, `CalibOf`,
  `DepthPath`, `Params.ResolvePaths`) handle that case. Only the lemmas that
  write paths out as `<root>/...` leave it out.
- Every `os.listdir` error at config/kitti.py:42 becomes one outcome,
  `ListdirFailed(path)`. This covers a missing folder
  (`FileNotFoundError`), a regular file named `calib`, which passes the
  `os.path.exists` test and then raises `NotADirectoryError`, and a folder
  without read permission (`PermissionError`). The model does not tell
  these apart.
- `os.path.pardir` is kept unnormalised in the raw calibration path (`..`),
  as in the source.
- `assert` is stripped under `python -O`; the model keeps the assertion.
- `settings()`: the literal camera parameters (lines 53-66) and the literal
  speed lists of the four raw drives (drives 0032, 0056, 0071 and 0117,
  lines 75-89) are constants with
  nothing to prove. They are not modelled.
- The note on merging sequence settings over the general ones (line 69)
  describes code outside this file and is not modelled.
- Kitti.DataObjectCamMotion: the ramp's floats (`100.`, `0.-1`) are modelled
  as integers. Every value of this ramp is an integer, so no rounding is
  lost.
- `params` is any object in the source. `Kitti.Params` holds only the fields
  `resolve_paths` reads or writes.
