/**
 * config/kitti.py of the rain-rendering pipeline: discovery of KITTI sequence
 * folders under `images_root` (`_sequences`), resolution of each sequence's
 * image, calibration and depth paths onto the caller's `params` object
 * (`resolve_paths`), and the one computed entry of `settings()`, the speed
 * ramp of the `data_object` sequence.
 *
 * The filesystem is an oracle: the directories `os.walk` yields, the set of
 * paths `os.path.exists` accepts, and the listings `os.listdir` returns.
 */
module Kitti {
  import opened Strings
  import opened PosixPath
  import opened Filtering
  import opened NumericRange

  /** The answers of the three filesystem calls the module makes. */
  datatype FileSystem = FileSystem(
    walk: string -> seq<string>,        // os.walk(top): the dirpath of every directory, top-down, top first
    existing: set<string>,              // os.path.exists: the paths that exist
    listdir: map<string, seq<string>>)  // os.listdir; a path without an entry raises (missing, not a folder, no permission)

  const ObjectImages: string := "image_2"
  const CalibDir: string := "calib"
  const RawImages: string := "image_02"
  const RawSuffix: string := "_sync"
  const RawPrefix: string := "raw_data"
  const RawImageData: string := "data"
  const ParentDir: string := ".."  // os.path.pardir
  const RawCalibFile: string := "calib_cam_to_cam.txt"
  const DepthDir: string := "depth"
  const CalibExtension: string := ".txt"

  /** The entry names are plain, and each written after a separator is the literal path suffix. */
  lemma EntryNames()
    ensures Plain(ObjectImages) && Plain(CalibDir) && Plain(RawImages) && Plain(RawImageData)
    ensures Plain(ParentDir) && Plain(RawCalibFile) && Plain(DepthDir)
    ensures Sep + ObjectImages == "/image_2" && Sep + CalibDir == "/calib" && Sep + RawImages == "/image_02"
    ensures Sep + RawImages + Sep + RawImageData == "/image_02/data"
    ensures Sep + ParentDir + Sep + RawCalibFile == "/../calib_cam_to_cam.txt"
    ensures Sep + DepthDir == "/depth"
  {
  }

  // ---------------------------------------------------------------------
  // _sequences
  // ---------------------------------------------------------------------

  /** `x[0][len(images_root) + 1:]`: a walked directory as an id relative to the root. */
  function RelativeId(root: string, dirpath: string): string
  {
    SliceFrom(dirpath, |root| + 1)
  }

  /** Every directory of the walk of `images_root`, as a relative id, in walk order. */
  function Candidates(fs: FileSystem, root: string): seq<string>
  {
    var dirs := fs.walk(Join(root, []));
    seq(|dirs|, i requires 0 <= i < |dirs| => RelativeId(root, dirs[i]))
  }

  /** `cond1`: the candidate has both an `image_2` and a `calib` entry. */
  function ObjectMask(fs: FileSystem, root: string, ids: seq<string>): seq<bool>
  {
    seq(|ids|, i requires 0 <= i < |ids| =>
      (Join(root, [ids[i], ObjectImages]) in fs.existing) && (Join(root, [ids[i], CalibDir]) in fs.existing))
  }

  /** `cond2`: the candidate has an `image_02` entry and `p[-len("_sync"):] == "_sync"`. */
  function RawMask(fs: FileSystem, root: string, ids: seq<string>): seq<bool>
  {
    seq(|ids|, i requires 0 <= i < |ids| =>
      Join(root, [ids[i], RawImages]) in fs.existing && SliceLast(ids[i], |RawSuffix|) == RawSuffix)
  }

  /** `_sequences(params)`: the candidates selected by `np.bitwise_or(cond1, cond2)`. */
  function FindSequences(fs: FileSystem, root: string): seq<string>
  {
    var ids := Candidates(fs, root);
    MaskSelect(ids, BitwiseOr(ObjectMask(fs, root, ids), RawMask(fs, root, ids)))
  }

  /**
   * The rule a sequence folder obeys: the object-detection layout (`image_2`
   * and `calib`) or the raw-drive layout (`image_02`, name ending in `_sync`).
   * Nothing here asks for the `raw_data` prefix.
   */
  predicate IsSequenceDir(fs: FileSystem, root: string, p: string)
  {
    || (Join(root, [p, ObjectImages]) in fs.existing && Join(root, [p, CalibDir]) in fs.existing)
    || (Join(root, [p, RawImages]) in fs.existing && EndsWith(p, RawSuffix))
  }

  /** `_sequences` keeps exactly the candidates that obey the rule, in walk order. */
  lemma FindSequencesIsFilter(fs: FileSystem, root: string)
    ensures FindSequences(fs, root) == Filter(Candidates(fs, root), p => IsSequenceDir(fs, root, p))
  {
    var ids := Candidates(fs, root);
    var mask := BitwiseOr(ObjectMask(fs, root, ids), RawMask(fs, root, ids));
    forall i | 0 <= i < |ids| ensures mask[i] <==> IsSequenceDir(fs, root, ids[i]) {
      SliceLastIsEndsWith(ids[i], RawSuffix);
    }
    MaskSelectIsFilter(ids, mask, p => IsSequenceDir(fs, root, p));
  }

  /** A candidate is returned if and only if it obeys the rule. */
  lemma SequenceKeptIff(fs: FileSystem, root: string, p: string)
    ensures p in FindSequences(fs, root) <==> p in Candidates(fs, root) && IsSequenceDir(fs, root, p)
  {
    FindSequencesIsFilter(fs, root);
    FilterMembership(Candidates(fs, root), p => IsSequenceDir(fs, root, p), p);
  }

  /**
   * The result is a subsequence of the walk's candidates (walk order kept),
   * and each kept id occurs as often as in the walk.
   */
  lemma SequencesKeepWalkOrder(fs: FileSystem, root: string)
    ensures IsSubsequence(FindSequences(fs, root), Candidates(fs, root))
    ensures forall p :: multiset(FindSequences(fs, root))[p] ==
                        if IsSequenceDir(fs, root, p) then multiset(Candidates(fs, root))[p] else 0
  {
    var keep := p => IsSequenceDir(fs, root, p);
    FindSequencesIsFilter(fs, root);
    FilterIsSubsequence(Candidates(fs, root), keep);
    forall p ensures multiset(FindSequences(fs, root))[p] ==
      if IsSequenceDir(fs, root, p) then multiset(Candidates(fs, root))[p] else 0
    {
      FilterMultiplicity(Candidates(fs, root), keep, p);
    }
  }

  /** `_sequences` returns nothing exactly when no candidate obeys the rule. */
  lemma NoSequencesIff(fs: FileSystem, root: string)
    ensures FindSequences(fs, root) == [] <==>
      forall i :: 0 <= i < |Candidates(fs, root)| ==> !IsSequenceDir(fs, root, Candidates(fs, root)[i])
  {
    FindSequencesIsFilter(fs, root);
    FilterEmpty(Candidates(fs, root), p => IsSequenceDir(fs, root, p));
  }

  /** The directory of id `p` under `root`: the root itself for the empty id. */
  function InRoot(root: string, p: string): string
  {
    if p == "" then root else root + Sep + p
  }

  /** Prepending a plain component keeps every component plain and the last one non-empty. */
  lemma PlainCons(p: string, leaves: seq<string>)
    requires Plain(p) && leaves != []
    requires forall i :: 0 <= i < |leaves| ==> Plain(leaves[i]) && leaves[i] != ""
    ensures forall i :: 0 <= i < |[p] + leaves| ==> Plain(([p] + leaves)[i])
    ensures ([p] + leaves)[|leaves|] != ""
  {
  }

  /** Joining a plain id and a plain entry name under a well-formed root. */
  lemma JoinUnderId(root: string, p: string, leaves: seq<string>)
    requires WellFormedRoot(root) && Plain(p)
    requires leaves != []
    requires forall i :: 0 <= i < |leaves| ==> Plain(leaves[i]) && leaves[i] != ""
    ensures Join(root, [p] + leaves) == InRoot(root, p) + Slashed(leaves)
  {
    var parts := [p] + leaves;
    PlainCons(p, leaves);
    JoinPlain(root, parts);
    SlashedCons(p, leaves);
    var tail := Slashed(leaves);
    if p == "" {
      assert Slashed(parts) == tail;
    } else {
      assert Slashed(parts) == Sep + p + tail;
      assert root + (Sep + p + tail) == (root + Sep + p) + tail;
    }
  }

  /** `os.path.join(root, p, leaf)` is `<root>/<p>/<leaf>`, or `<root>/<leaf>` for the empty id. */
  lemma JoinLeaf(root: string, p: string, leaf: string)
    requires WellFormedRoot(root) && Plain(p) && Plain(leaf) && leaf != ""
    ensures Join(root, [p, leaf]) == InRoot(root, p) + Sep + leaf
  {
    JoinUnderId(root, p, [leaf]);
    assert [p] + [leaf] == [p, leaf];
    SlashedOne(leaf);
  }

  /** `os.path.join(root, p, a, b)` is `<root>/<p>/<a>/<b>`, or `<root>/<a>/<b>` for the empty id. */
  lemma JoinTwoLeaves(root: string, p: string, a: string, b: string)
    requires WellFormedRoot(root) && Plain(p) && Plain(a) && a != "" && Plain(b) && b != ""
    ensures Join(root, [p, a, b]) == InRoot(root, p) + Sep + a + Sep + b
  {
    JoinUnderId(root, p, [a, b]);
    assert [p] + [a, b] == [p, a, b];
    SlashedTwo(a, b);
    assert InRoot(root, p) + (Sep + a + Sep + b) == InRoot(root, p) + Sep + a + Sep + b;
  }

  /**
   * With a well-formed root and a plain id, the rule reads on plain paths:
   * `<root>/<p>/image_2` and `<root>/<p>/calib` exist, or `<root>/<p>/image_02`
   * exists and `p` ends in `_sync`.
   */
  lemma KeptIffMarkersExist(fs: FileSystem, root: string, p: string)
    requires WellFormedRoot(root) && Plain(p)
    ensures p in FindSequences(fs, root) <==>
              && p in Candidates(fs, root)
              && (|| (InRoot(root, p) + "/image_2" in fs.existing && InRoot(root, p) + "/calib" in fs.existing)
                  || (InRoot(root, p) + "/image_02" in fs.existing && EndsWith(p, "_sync")))
  {
    SequenceKeptIff(fs, root, p);
    MarkerPaths(root, p);
  }

  /** The three marker paths the rule asks `os.path.exists` about. */
  lemma MarkerPaths(root: string, p: string)
    requires WellFormedRoot(root) && Plain(p)
    ensures Join(root, [p, ObjectImages]) == InRoot(root, p) + "/image_2"
    ensures Join(root, [p, CalibDir]) == InRoot(root, p) + "/calib"
    ensures Join(root, [p, RawImages]) == InRoot(root, p) + "/image_02"
  {
    EntryNames();
    var dir := InRoot(root, p);
    JoinLeaf(root, p, ObjectImages);
    assert dir + Sep + ObjectImages == dir + (Sep + ObjectImages);
    JoinLeaf(root, p, CalibDir);
    assert dir + Sep + CalibDir == dir + (Sep + CalibDir);
    JoinLeaf(root, p, RawImages);
    assert dir + Sep + RawImages == dir + (Sep + RawImages);
  }

  /**
   * The walk yields the root itself and `os.path.join(root, rel)` for the
   * directories below it; slicing off the root gives "" and `rel`.
   */
  lemma WalkIdsAreRelative(root: string, rel: string)
    requires WellFormedRoot(root) && Plain(rel) && rel != ""
    ensures RelativeId(root, root) == ""
    ensures RelativeId(root, Join(root, [rel])) == rel
  {
  }

  // ---------------------------------------------------------------------
  // resolve_paths
  // ---------------------------------------------------------------------

  /** `params.calib[sequence]`: one path (raw drives) or a list of paths (object sequences). */
  datatype Calib = CalibFile(path: string) | CalibFiles(paths: seq<string>)

  /** How `resolve_paths` ends: normally, on its assertion, or with `os.listdir` raising on `path` (any OSError). */
  datatype Outcome = Ok | AssertionError | ListdirFailed(path: string)

  /** `sequence[:len('raw_data')] == 'raw_data'`: the branch taken for a sequence. */
  predicate IsRawId(s: string)
  {
    SliceTo(s, |RawPrefix|) == RawPrefix
  }

  /** `os.path.join(dataset_root, sequence, 'image_02', 'data')` */
  function RawImagePath(root: string, s: string): string
  {
    Join(root, [s, RawImages, RawImageData])
  }

  /** `os.path.join(dataset_root, sequence, os.path.pardir, 'calib_cam_to_cam.txt')` */
  function RawCalibPath(root: string, s: string): string
  {
    Join(root, [s, ParentDir, RawCalibFile])
  }

  /** `os.path.join(dataset_root, sequence, 'image_2')` */
  function ObjectImagePath(root: string, s: string): string
  {
    Join(root, [s, ObjectImages])
  }

  /** `calib_folder` of an object sequence. */
  function CalibFolder(root: string, s: string): string
  {
    Join(root, [s, CalibDir])
  }

  /** `os.path.join(params.images[sequence], 'depth')` */
  function DepthUnderImages(image: string): string
  {
    Join(image, [DepthDir])
  }

  /** `params.images[sequence]` */
  function ImagePath(root: string, s: string): string
  {
    if IsRawId(s) then RawImagePath(root, s) else ObjectImagePath(root, s)
  }

  /** `calib_txt.endswith('.txt')` */
  predicate IsCalibTxt(f: string)
  {
    EndsWith(f, CalibExtension)
  }

  /**
   * `[os.path.join(calib_folder, f) for f in os.listdir(calib_folder) if f.endswith('.txt')]`
   */
  function CalibTxtPaths(folder: string, entries: seq<string>): seq<string>
  {
    if entries == [] then []
    else (if IsCalibTxt(entries[0]) then [Join(folder, [entries[0]])] else []) + CalibTxtPaths(folder, entries[1..])
  }

  /** The comprehension yields one joined path per `.txt` entry of the listing, in listing order. */
  lemma {:induction false} CalibTxtPathsFollowListing(folder: string, entries: seq<string>)
    ensures |CalibTxtPaths(folder, entries)| == |Filter(entries, IsCalibTxt)|
    ensures forall k :: 0 <= k < |CalibTxtPaths(folder, entries)| ==>
      CalibTxtPaths(folder, entries)[k] == Join(folder, [Filter(entries, IsCalibTxt)[k]])
  {
    if entries != [] {
      CalibTxtPathsFollowListing(folder, entries[1..]);
      var paths, rest := CalibTxtPaths(folder, entries), CalibTxtPaths(folder, entries[1..]);
      var txt, txtRest := Filter(entries, IsCalibTxt), Filter(entries[1..], IsCalibTxt);
      if IsCalibTxt(entries[0]) {
        assert paths == [Join(folder, [entries[0]])] + rest;
        assert txt == [entries[0]] + txtRest;
        forall k | 0 < k < |paths| ensures paths[k] == Join(folder, [txt[k]]) {
          assert paths[k] == rest[k - 1] && txt[k] == txtRest[k - 1];
        }
      } else {
        assert paths == rest && txt == txtRest;
      }
    }
  }

  /** The calibration of `s` can be resolved: a raw drive, or an object sequence whose `calib` folder lists. */
  predicate Listed(root: string, listdir: map<string, seq<string>>, s: string)
  {
    IsRawId(s) || CalibFolder(root, s) in listdir
  }

  /** `params.calib[sequence]` */
  function CalibOf(root: string, listdir: map<string, seq<string>>, s: string): Calib
    requires Listed(root, listdir, s)
  {
    if IsRawId(s) then CalibFile(RawCalibPath(root, s))
    else CalibFiles(CalibTxtPaths(CalibFolder(root, s), listdir[CalibFolder(root, s)]))
  }

  /** `params.depth[sequence]` */
  function DepthPath(root: string, s: string): string
  {
    DepthUnderImages(ImagePath(root, s))
  }

  /** The index of the first sequence whose `calib` folder cannot be listed, or the length when there is none. */
  function FirstUnlisted(root: string, listdir: map<string, seq<string>>, seqs: seq<string>): (k: nat)
    ensures k <= |seqs|
    ensures forall j :: 0 <= j < k ==> Listed(root, listdir, seqs[j])
    ensures k < |seqs| ==> !Listed(root, listdir, seqs[k])
  {
    if seqs == [] || !Listed(root, listdir, seqs[0]) then 0
    else 1 + FirstUnlisted(root, listdir, seqs[1..])
  }

  /** The first sequence that cannot be listed is the one whose predecessors all can. */
  lemma FirstUnlistedAt(root: string, listdir: map<string, seq<string>>, seqs: seq<string>, i: nat)
    requires i < |seqs| && !Listed(root, listdir, seqs[i])
    requires forall j :: 0 <= j < i ==> Listed(root, listdir, seqs[j])
    ensures FirstUnlisted(root, listdir, seqs) == i
  {
  }

  /** The set of the first `n` elements. */
  function FirstIds(seqs: seq<string>, n: nat): set<string>
    requires n <= |seqs|
  {
    set j | 0 <= j < n :: seqs[j]
  }

  /** Taking one more element adds that element. */
  lemma FirstIdsGrow(seqs: seq<string>, n: nat)
    requires n < |seqs|
    ensures FirstIds(seqs, n + 1) == FirstIds(seqs, n) + {seqs[n]}
  {
  }

  /** The first `|seqs|` elements are all the elements. */
  lemma FirstIdsAll(seqs: seq<string>)
    ensures FirstIds(seqs, |seqs|) == set s | s in seqs
  {
  }

  /**
   * The three maps hold the entries of the first `n` sequences in `images`
   * and of the first `m` in `calib` and `depth`, each as the branch of its
   * sequence resolves it, and nothing else.
   */
  ghost predicate Resolved(seqs: seq<string>, root: string, listdir: map<string, seq<string>>,
                           images: map<string, string>, calib: map<string, Calib>, depth: map<string, string>,
                           n: nat, m: nat)
    requires m <= n <= |seqs|
  {
    && images.Keys == FirstIds(seqs, n)
    && calib.Keys == FirstIds(seqs, m)
    && depth.Keys == calib.Keys
    && (forall s :: s in images ==> images[s] == ImagePath(root, s))
    && (forall s :: s in calib ==> Listed(root, listdir, s) && calib[s] == CalibOf(root, listdir, s))
    && (forall s :: s in depth ==> depth[s] == DepthPath(root, s))
  }

  /** Resolving the next sequence completely extends all three maps by one entry. */
  lemma ResolvedStep(seqs: seq<string>, root: string, listdir: map<string, seq<string>>,
                     images: map<string, string>, calib: map<string, Calib>, depth: map<string, string>, i: nat)
    requires i < |seqs| && Listed(root, listdir, seqs[i])
    requires Resolved(seqs, root, listdir, images, calib, depth, i, i)
    ensures var s := seqs[i];
      Resolved(seqs, root, listdir, images[s := ImagePath(root, s)], calib[s := CalibOf(root, listdir, s)],
               depth[s := DepthPath(root, s)], i + 1, i + 1)
  {
    FirstIdsGrow(seqs, i);
  }

  /** The object branch stores the image path and then fails to list `calib`. */
  lemma ResolvedImageOnly(seqs: seq<string>, root: string, listdir: map<string, seq<string>>,
                          images: map<string, string>, calib: map<string, Calib>, depth: map<string, string>, i: nat)
    requires i < |seqs|
    requires Resolved(seqs, root, listdir, images, calib, depth, i, i)
    ensures Resolved(seqs, root, listdir, images[seqs[i] := ImagePath(root, seqs[i])], calib, depth, i + 1, i)
  {
    FirstIdsGrow(seqs, i);
  }

  /** Once every sequence is resolved, each map has exactly the sequences as keys. */
  lemma ResolvedAll(seqs: seq<string>, root: string, listdir: map<string, seq<string>>,
                    images: map<string, string>, calib: map<string, Calib>, depth: map<string, string>)
    requires Resolved(seqs, root, listdir, images, calib, depth, |seqs|, |seqs|)
    ensures images.Keys == set s | s in seqs
    ensures calib.Keys == images.Keys && depth.Keys == images.Keys
  {
    FirstIdsAll(seqs);
  }

  /** When every sequence can be listed there is no first unlisted one. */
  lemma FirstUnlistedNone(root: string, listdir: map<string, seq<string>>, seqs: seq<string>)
    requires forall j :: 0 <= j < |seqs| ==> Listed(root, listdir, seqs[j])
    ensures FirstUnlisted(root, listdir, seqs) == |seqs|
  {
  }

  /** The configuration object that `resolve_paths` fills in. */
  class Params {
    var imagesRoot: string
    var datasetRoot: string
    var sequences: seq<string>
    var images: map<string, string>
    var calib: map<string, Calib>
    var depth: map<string, string>

    constructor (imagesRoot: string, datasetRoot: string)
      ensures this.imagesRoot == imagesRoot && this.datasetRoot == datasetRoot
      ensures sequences == [] && images == map[] && calib == map[] && depth == map[]
    {
      this.imagesRoot := imagesRoot;
      this.datasetRoot := datasetRoot;
      sequences := [];
      images, calib, depth := map[], map[], map[];
    }

    /** The maps as `resolve_paths` leaves them after `n` image entries and `m` complete entries. */
    ghost predicate Holds(fs: FileSystem, n: nat, m: nat)
      reads this
      requires m <= n <= |sequences|
    {
      Resolved(sequences, datasetRoot, fs.listdir, images, calib, depth, n, m)
    }

    /**
     * `resolve_paths(params)`. Stores the discovered sequences and fails the
     * assertion when there are none; otherwise fills the maps (FillPaths).
     */
    method ResolvePaths(fs: FileSystem) returns (outcome: Outcome)
      modifies this
      ensures imagesRoot == old(imagesRoot) && datasetRoot == old(datasetRoot)
      ensures sequences == FindSequences(fs, imagesRoot)
      ensures sequences == [] ==> outcome == AssertionError
      ensures sequences == [] ==> images == old(images) && calib == old(calib) && depth == old(depth)
      ensures sequences != [] ==>
        var k := FirstUnlisted(datasetRoot, fs.listdir, sequences);
        if k == |sequences| then outcome == Ok && Holds(fs, k, k)
        else outcome == ListdirFailed(CalibFolder(datasetRoot, sequences[k])) && Holds(fs, k + 1, k)
      ensures outcome == Ok ==> sequences != [] && images.Keys == set s | s in sequences
      ensures outcome == Ok ==> calib.Keys == images.Keys && depth.Keys == images.Keys
    {
      sequences := FindSequences(fs, imagesRoot);
      if |sequences| == 0 {
        return AssertionError;
      }
      outcome := FillPaths(fs);
    }

    /**
     * The loop of `resolve_paths` (kitti.py:22-47): replaces the three maps and
     * fills them sequence by sequence. When the `calib` folder of an object
     * sequence cannot be listed, `os.listdir` raises after that sequence's
     * image path was stored and before its calibration and depth are.
     */
    method FillPaths(fs: FileSystem) returns (outcome: Outcome)
      requires sequences != []
      modifies this
      ensures imagesRoot == old(imagesRoot) && datasetRoot == old(datasetRoot) && sequences == old(sequences)
      ensures var k := FirstUnlisted(datasetRoot, fs.listdir, sequences);
        if k == |sequences| then outcome == Ok && Holds(fs, k, k)
        else outcome == ListdirFailed(CalibFolder(datasetRoot, sequences[k])) && Holds(fs, k + 1, k)
      ensures outcome == Ok ==> images.Keys == set s | s in sequences
      ensures outcome == Ok ==> calib.Keys == images.Keys && depth.Keys == images.Keys
    {
      var found := sequences;
      var root := datasetRoot;
      ghost var imagesRoot0 := imagesRoot;
      images, calib, depth := map[], map[], map[];
      var i := 0;
      while i < |found|
        invariant 0 <= i <= |found|
        invariant sequences == found && datasetRoot == root && imagesRoot == imagesRoot0
        invariant forall j :: 0 <= j < i ==> Listed(root, fs.listdir, found[j])
        invariant Resolved(found, root, fs.listdir, images, calib, depth, i, i)
      {
        var s := found[i];
        ghost var images0, calib0, depth0 := images, calib, depth;
        var listed := ResolveSequence(fs, s);
        if !listed {
          ResolvedImageOnly(found, root, fs.listdir, images0, calib0, depth0, i);
          FirstUnlistedAt(root, fs.listdir, found, i);
          return ListdirFailed(CalibFolder(root, s));
        }
        ResolvedStep(found, root, fs.listdir, images0, calib0, depth0, i);
        i := i + 1;
      }
      FirstUnlistedNone(root, fs.listdir, found);
      ResolvedAll(found, root, fs.listdir, images, calib, depth);
      return Ok;
    }

    /**
     * One pass of that loop for sequence `s`. A raw drive stores three paths
     * that need no listing; an object sequence stores its image path, then
     * lists its `calib` folder, and stops there (`listed` false) when the
     * folder cannot be listed.
     */
    method ResolveSequence(fs: FileSystem, s: string) returns (listed: bool)
      modifies this
      ensures imagesRoot == old(imagesRoot) && datasetRoot == old(datasetRoot) && sequences == old(sequences)
      ensures listed == Listed(datasetRoot, fs.listdir, s)
      ensures images == old(images)[s := ImagePath(datasetRoot, s)]
      ensures listed ==> calib == old(calib)[s := CalibOf(datasetRoot, fs.listdir, s)]
      ensures listed ==> depth == old(depth)[s := DepthPath(datasetRoot, s)]
      ensures !listed ==> calib == old(calib) && depth == old(depth)
    {
      var root := datasetRoot;
      if IsRawId(s) {
        images := images[s := RawImagePath(root, s)];
        calib := calib[s := CalibFile(RawCalibPath(root, s))];
        depth := depth[s := DepthUnderImages(images[s])];
        return true;
      }
      images := images[s := ObjectImagePath(root, s)];
      var folder := CalibFolder(root, s);
      if folder !in fs.listdir {
        return false;
      }
      calib := calib[s := CalibFiles(CalibTxtPaths(folder, fs.listdir[folder]))];
      depth := depth[s := DepthUnderImages(images[s])];
      return true;
    }
  }

  /**
   * A raw drive (`raw_data...`): images in `<root>/<s>/image_02/data`, the one
   * calibration file `<root>/<s>/../calib_cam_to_cam.txt` (the `..` is kept
   * as written), depth in `<images>/depth`. No listing is needed.
   */
  lemma RawSequencePaths(root: string, listdir: map<string, seq<string>>, s: string)
    requires WellFormedRoot(root) && Plain(s) && StartsWith(s, RawPrefix)
    ensures IsRawId(s) && Listed(root, listdir, s)
    ensures ImagePath(root, s) == root + "/" + s + "/image_02/data"
    ensures CalibOf(root, listdir, s) == CalibFile(root + "/" + s + "/../calib_cam_to_cam.txt")
    ensures DepthPath(root, s) == ImagePath(root, s) + "/depth"
  {
    SliceToIsStartsWith(s, RawPrefix);
    RawPathsUnder(root, s);
    DepthUnder(root + "/" + s, "/image_02/data");
  }

  /**
   * Any other sequence: images in `<root>/<s>/image_2`, depth in
   * `<images>/depth`, and the calibration is the `.txt` entries of the listing
   * of `<root>/<s>/calib`, which must exist.
   */
  lemma ObjectSequencePaths(root: string, listdir: map<string, seq<string>>, s: string)
    requires WellFormedRoot(root) && Plain(s) && !StartsWith(s, RawPrefix)
    ensures !IsRawId(s)
    ensures ImagePath(root, s) == InRoot(root, s) + "/image_2"
    ensures DepthPath(root, s) == ImagePath(root, s) + "/depth"
    ensures CalibFolder(root, s) == InRoot(root, s) + "/calib"
    ensures Listed(root, listdir, s) <==> InRoot(root, s) + "/calib" in listdir
    ensures Listed(root, listdir, s) ==>
      CalibOf(root, listdir, s) == CalibFiles(CalibTxtPaths(InRoot(root, s) + "/calib", listdir[InRoot(root, s) + "/calib"]))
  {
    SliceToIsStartsWith(s, RawPrefix);
    MarkerPaths(root, s);
    DepthUnder(InRoot(root, s), "/image_2");
  }

  /** The two raw-drive joins written out. */
  lemma RawPathsUnder(root: string, s: string)
    requires WellFormedRoot(root) && Plain(s) && s != ""
    ensures Join(root, [s, RawImages, RawImageData]) == root + "/" + s + "/image_02/data"
    ensures Join(root, [s, ParentDir, RawCalibFile]) == root + "/" + s + "/../calib_cam_to_cam.txt"
  {
    EntryNames();
    var dir := root + Sep + s;
    JoinTwoLeaves(root, s, RawImages, RawImageData);
    AppendFour(dir, Sep, RawImages, Sep, RawImageData);
    JoinTwoLeaves(root, s, ParentDir, RawCalibFile);
    AppendFour(dir, Sep, ParentDir, Sep, RawCalibFile);
  }

  /** `os.path.join(images, 'depth')` under an image folder that ends in a plain literal. */
  lemma DepthUnder(dir: string, tail: string)
    requires dir != "" && tail != "" && tail[|tail| - 1] != '/'
    ensures Join(dir + tail, [DepthDir]) == dir + tail + "/depth"
  {
  }

  lemma AppendFour(x: string, a: string, b: string, c: string, d: string)
    ensures x + a + b + c + d == x + (a + b + c + d)
  {
  }

  /**
   * Under a well-formed `calib` folder whose entries are plain names, the
   * calibration list is `<folder>/<f>` for each `.txt` entry `f`, in listing
   * order; with the filter lemmas, exactly those entries and no others.
   */
  lemma CalibTxtPathsArePlain(folder: string, entries: seq<string>)
    requires WellFormedRoot(folder)
    requires forall i :: 0 <= i < |entries| ==> Plain(entries[i]) && entries[i] != ""
    ensures |CalibTxtPaths(folder, entries)| == |Filter(entries, IsCalibTxt)|
    ensures forall k :: 0 <= k < |CalibTxtPaths(folder, entries)| ==>
      CalibTxtPaths(folder, entries)[k] == folder + "/" + Filter(entries, IsCalibTxt)[k]
  {
    var txt := Filter(entries, IsCalibTxt);
    CalibTxtPathsFollowListing(folder, entries);
    forall k | 0 <= k < |txt| ensures Join(folder, [txt[k]]) == folder + "/" + txt[k] {
      FilterMembership(entries, IsCalibTxt, txt[k]);
      var i :| 0 <= i < |entries| && entries[i] == txt[k];
      JoinPlain(folder, [txt[k]]);
    }
  }

  /**
   * A `*_sync` folder with `image_02` outside `raw_data` is detected by the
   * raw-drive rule, yet `resolve_paths` routes it to the object branch: its
   * images are looked for in `image_2` and its calibration in a `calib` listing.
   */
  lemma SyncOutsideRawDataTakesObjectBranch(fs: FileSystem, root: string, datasetRoot: string, p: string)
    requires p in Candidates(fs, root)
    requires Join(root, [p, RawImages]) in fs.existing && EndsWith(p, RawSuffix)
    requires !StartsWith(p, RawPrefix)
    ensures p in FindSequences(fs, root)
    ensures !IsRawId(p)
    ensures ImagePath(datasetRoot, p) == Join(datasetRoot, [p, ObjectImages])
    ensures Listed(datasetRoot, fs.listdir, p) <==> Join(datasetRoot, [p, CalibDir]) in fs.listdir
  {
    SequenceKeptIff(fs, root, p);
    SliceToIsStartsWith(p, RawPrefix);
  }

  // ---------------------------------------------------------------------
  // settings()
  // ---------------------------------------------------------------------

  /** `settings["sequences"]["data_object"]["sim_steps"]["cam_motion"] = np.arange(100., 0.-1, -1)` */
  function DataObjectCamMotion(): seq<int>
  {
    Arange(100, 0 - 1, -1)
  }

  /** The ramp has 101 speeds, 100 down to 0, each one less than the one before. */
  lemma DataObjectCamMotionRamp()
    ensures |DataObjectCamMotion()| == 101
    ensures forall i :: 0 <= i < 101 ==> DataObjectCamMotion()[i] == 100 - i
    ensures DataObjectCamMotion()[0] == 100 && DataObjectCamMotion()[100] == 0
    ensures forall i :: 0 <= i < 100 ==> DataObjectCamMotion()[i + 1] == DataObjectCamMotion()[i] - 1
  {
  }
}
