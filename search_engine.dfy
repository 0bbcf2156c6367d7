/** The retrieval engine of backend/search_engine.py: a corpus of reference images
    scanned once from the "images" folder, a label map from image path to garment
    type, and type-filtered top-k retrieval over the ranking the nearest-neighbour
    index returns.  The CLIP model is represented by the similarity scores it would
    produce, and the FAISS index by the ranked offsets it would return. */
module SearchEngine {
  import opened Wrappers
  import opened Text

  /** The garment types, in declaration order. */
  const TYPES: seq<string> := ["robe", "jupe", "t-shirt", "pantalon", "short", "veste", "chemise"]

  /** The folder the corpus is scanned from. */
  const IMG_DIR: string := "images"

  /** One similarity score per entry of TYPES, in the same order. */
  type Scores = s: seq<int> | |s| == 7 witness [0, 0, 0, 0, 0, 0, 0]

  datatype Error =
    | EmptyCorpus      // np.vstack of no embeddings fails inside initialize()
    | NoIndex          // search on an index that was never built
    | NoLabels         // the label map is None (the labels file held JSON null)

  // ---------------------------------------------------------------------------
  // Classification: argmax over the similarity of the image to each type

  /** `i` is the position of the first maximum of `s`. */
  predicate IsFirstMax(s: seq<int>, i: int)
  {
    && 0 <= i < |s|
    && (forall j :: 0 <= j < |s| ==> s[j] <= s[i])
    && (forall j :: 0 <= j < i ==> s[j] < s[i])
  }

  /** numpy's `argmax`: the first position holding the largest value. */
  function ArgMax(s: seq<int>): (i: nat)
    requires |s| > 0
    ensures IsFirstMax(s, i)
  {
    if |s| == 1 then 0
    else
      var m := ArgMax(s[..|s| - 1]);
      if s[|s| - 1] > s[m] then |s| - 1 else m
  }

  /** `get_type_of_image`: the type whose similarity is largest; on a tie the
      type declared first in TYPES wins. */
  function GetTypeOfImage(similarity: Scores): (t: string)
    ensures t in TYPES
    ensures forall i :: 0 <= i < |TYPES| && TYPES[i] == t ==> IsFirstMax(similarity, i)
  {
    TYPES[ArgMax(similarity)]
  }

  // ---------------------------------------------------------------------------
  // The corpus and its label map

  /** The file names `initialize` keeps: lower-cased, they end in ".jpg". */
  predicate IsJpg(f: string)
  {
    EndsWith(Lower(f), ".jpg")
  }

  /** `str(Path("images") / f)` for a name `f` taken from the folder's listing. */
  function ImagePath(f: string): string
  {
    IMG_DIR + "/" + f
  }

  /** `image_paths`: every listed ".jpg" name, under the images folder, in listing order. */
  function ScanImages(listing: seq<string>): seq<string>
  {
    if listing == [] then []
    else
      var f := listing[|listing| - 1];
      ScanImages(listing[..|listing| - 1]) + (if IsJpg(f) then [ImagePath(f)] else [])
  }

  /** Exactly the ".jpg" names of the listing make it into `image_paths`, and a
      listing without repeated names gives paths without repeats. */
  lemma {:induction false} ScanImagesSpec(listing: seq<string>)
    ensures forall p :: p in ScanImages(listing) <==>
                        exists f :: f in listing && IsJpg(f) && p == IMG_DIR + "/" + f
    ensures Distinct(listing) ==> Distinct(ScanImages(listing))
  {
    if listing != [] {
      var init := listing[..|listing| - 1];
      var f := listing[|listing| - 1];
      assert listing == init + [f];
      ScanImagesSpec(init);
      forall p | p in ScanImages(listing)
        ensures exists g :: g in listing && IsJpg(g) && p == IMG_DIR + "/" + g
      {
        if p !in ScanImages(init) {
          assert f in listing && IsJpg(f) && p == IMG_DIR + "/" + f;
        }
      }
      forall g | g in listing && IsJpg(g)
        ensures IMG_DIR + "/" + g in ScanImages(listing)
      {
        if g != f { assert g in init; }
      }
      if Distinct(listing) {
        assert Distinct(init);
        if IsJpg(f) {
          var p := IMG_DIR + "/" + f;
          var s0 := ScanImages(init);
          forall q | q in s0
            ensures q != p
          {
            var g :| g in init && IsJpg(g) && q == IMG_DIR + "/" + g;
            assert g == q[|IMG_DIR| + 1..];
            assert f == p[|IMG_DIR| + 1..];
          }
          assert ScanImages(listing) == s0 + [p];
          forall i, j | 0 <= i < j < |s0| + 1
            ensures (s0 + [p])[i] != (s0 + [p])[j]
          {
            if j == |s0| { assert (s0 + [p])[i] in s0; }
          }
        }
      }
    }
  }

  ghost predicate Distinct<T>(s: seq<T>)
  {
    forall i, j :: 0 <= i < j < |s| ==> s[i] != s[j]
  }

  /** The label map built when no labels file exists: each path in turn is
      mapped to its predicted type. */
  function LabelsFor(paths: seq<string>, similarity: string -> Scores): map<string, string>
  {
    if paths == [] then map[]
    else
      var p := paths[|paths| - 1];
      LabelsFor(paths[..|paths| - 1], similarity)[p := GetTypeOfImage(similarity(p))]
  }

  /** The built label map has one entry per image path and no other, each the
      path's predicted type, hence one of TYPES. */
  lemma {:induction false} LabelsForSpec(paths: seq<string>, similarity: string -> Scores)
    ensures LabelsFor(paths, similarity).Keys == set p | p in paths
    ensures forall p :: p in LabelsFor(paths, similarity) ==> LabelsFor(paths, similarity)[p] == GetTypeOfImage(similarity(p))
    ensures forall p :: p in LabelsFor(paths, similarity) ==> LabelsFor(paths, similarity)[p] in TYPES
    ensures Distinct(paths) ==> |LabelsFor(paths, similarity)| == |paths|
  {
    if paths != [] {
      var init := paths[..|paths| - 1];
      assert paths == init + [paths[|paths| - 1]];
      LabelsForSpec(init, similarity);
    }
    if Distinct(paths) {
      DistinctCard(paths);
    }
  }

  lemma {:induction false} DistinctCard<T>(s: seq<T>)
    requires Distinct(s)
    ensures |set x | x in s| == |s|
  {
    if s != [] {
      var init := s[..|s| - 1];
      var last := s[|s| - 1];
      assert s == init + [last];
      DistinctCard(init);
      assert (set x | x in s) == (set x | x in init) + {last};
      assert last !in (set x | x in init);
    }
  }

  // ---------------------------------------------------------------------------
  // The engine's process-wide state

  /** What `image_labels.json` holds: a JSON object of path to type, or JSON null. */
  datatype LabelsJson = JNull | JDict(entries: map<string, string>)

  /** The module globals, plus the labels file on disk.  `index` is the sequence of
      images whose embeddings fill the FAISS index: row i embeds `index[i]`. */
  datatype EngineState = EngineState(
    model: bool,
    imagePaths: seq<string>,
    index: Option<seq<string>>,
    imageLabels: Option<map<string, string>>,
    labelsFile: Option<LabelsJson>)

  /** The state `initialize` leaves behind. */
  function AfterInit(s: EngineState, listing: seq<string>, similarity: string -> Scores): EngineState
  {
    if s.model then s
    else
      var paths := ScanImages(listing);
      var built := LabelsFor(paths, similarity);
      EngineState(
        true,
        paths,
        if |paths| > 0 then Some(paths) else s.index,
        match s.labelsFile
          case Some(JDict(m)) => Some(m)
          case Some(JNull) => None
          case None => Some(built),
        if s.labelsFile.None? then Some(JDict(built)) else s.labelsFile)
  }

  /** What `initialize` reports: it fails exactly when, on a first call, the
      images folder holds no ".jpg" file. */
  function InitOutcome(s: EngineState, listing: seq<string>): Outcome<Error>
  {
    if !s.model && |ScanImages(listing)| == 0 then Fail(EmptyCorpus) else Pass
  }

  /** `initialize` is idempotent: a second call changes nothing. */
  lemma InitializeIdempotent(s: EngineState, listing: seq<string>, similarity: string -> Scores)
    ensures AfterInit(AfterInit(s, listing, similarity), listing, similarity) == AfterInit(s, listing, similarity)
    ensures InitOutcome(AfterInit(s, listing, similarity), listing) == Pass
  {
  }

  /** After a first `initialize` without a labels file, the label map (and the file
      written from it) holds exactly one entry per image path, each one of TYPES. */
  lemma InitialLabels(s: EngineState, listing: seq<string>, similarity: string -> Scores)
    requires !s.model && s.labelsFile.None?
    requires Distinct(listing)
    ensures var t := AfterInit(s, listing, similarity);
            && t.imageLabels.Some?
            && t.labelsFile == Some(JDict(t.imageLabels.value))
            && t.imageLabels.value.Keys == set p | p in t.imagePaths
            && |t.imageLabels.value| == |t.imagePaths|
            && forall p :: p in t.imageLabels.value ==> t.imageLabels.value[p] in TYPES
  {
    ScanImagesSpec(listing);
    LabelsForSpec(ScanImages(listing), similarity);
  }

  class Engine {
    /** `os.listdir("images")` */
    const listing: seq<string>
    /** The CLIP similarities of the image at a path to each of TYPES. */
    const similarity: string -> Scores
    /** `get_type_of_image` */
    const typeOfImage: string -> string

    var model: bool
    var imagePaths: seq<string>
    var index: Option<seq<string>>
    var imageLabels: Option<map<string, string>>
    var labelsFile: Option<LabelsJson>

    /** Index row i always embeds `imagePaths[i]`, and the index exists only once
        the model is loaded. */
    ghost predicate Valid()
      reads this`model, this`imagePaths, this`index
    {
      && (!model ==> index.None?)
      && (model ==> imagePaths == ScanImages(listing))
      && (index.Some? ==> index.value == imagePaths && |imagePaths| > 0)
    }

    /** `typeOfImage` is the argmax of `similarity`; it holds from construction on,
        since both are constants. */
    ghost predicate Classifies()
    {
      forall p :: typeOfImage(p) == GetTypeOfImage(similarity(p))
    }

    function State(): EngineState
      reads this
    {
      EngineState(model, imagePaths, index, imageLabels, labelsFile)
    }

    /** The process start: every global is None; the labels file is whatever is on disk. */
    constructor (listing: seq<string>, similarity: string -> Scores, labelsFile: Option<LabelsJson>)
      ensures Valid() && Classifies()
      ensures this.listing == listing && this.similarity == similarity
      ensures State() == EngineState(false, [], None, None, labelsFile)
    {
      this.listing := listing;
      this.similarity := similarity;
      typeOfImage := p => GetTypeOfImage(similarity(p));
      model := false;
      imagePaths := [];
      index := None;
      imageLabels := None;
      this.labelsFile := labelsFile;
    }

    /** `initialize()`: a no-op once the model is set; otherwise scans the corpus,
        loads or builds (and saves) the label map, and indexes the corpus. */
    method Initialize() returns (res: Outcome<Error>)
      requires Valid()
      modifies this
      ensures Valid()
      ensures old(model) ==> unchanged(this)
      ensures State() == AfterInit(old(State()), listing, similarity)
      ensures res == InitOutcome(old(State()), listing)
    {
      if model {
        return Pass;
      }
      model := true;
      imagePaths := ScanImages(listing);
      match labelsFile {
        case Some(JDict(m)) =>
          imageLabels := Some(m);
        case Some(JNull) =>
          imageLabels := None;
        case None =>
          var labels: map<string, string> := map[];
          var i := 0;
          while i < |imagePaths|
            invariant 0 <= i <= |imagePaths|
            invariant labels == LabelsFor(imagePaths[..i], similarity)
          {
            assert imagePaths[..i + 1][..i] == imagePaths[..i];
            labels := labels[imagePaths[i] := GetTypeOfImage(similarity(imagePaths[i]))];
            i := i + 1;
          }
          assert imagePaths[..i] == imagePaths;
          imageLabels := Some(labels);
          labelsFile := Some(JDict(labels));
      }
      if |imagePaths| == 0 {
        return Fail(EmptyCorpus);
      }
      index := Some(imagePaths);
      return Pass;
    }

    /** `search_image(query_img, k)`: initialises on first use, classifies the
        query, and keeps the first k candidates of the FAISS ranking whose label
        is the query's type.  `ranking` is the row `I[0]` FAISS returns for
        `k*10` neighbours: offsets into the corpus, or -1 where FAISS had fewer
        vectors than asked for. */
    method SearchImage(querySimilarity: Scores, ranking: seq<int>, k: int) returns (r: Result<seq<string>, Error>)
      requires Valid()
      requires k >= 1 && |ranking| == 10 * k
      requires Fits(|ScanImages(listing)|, ranking)
      modifies this
      ensures Valid()
      ensures old(index).Some? ==> unchanged(this)
      ensures old(index).None? ==> State() == AfterInit(old(State()), listing, similarity)
      ensures old(index).None? && InitOutcome(old(State()), listing).Fail? ==> r == Failure(EmptyCorpus)
      ensures old(index).Some? || InitOutcome(old(State()), listing).Pass? ==>
                r == if index.None? then Failure(NoIndex)
                     else if imageLabels.None? then Failure(NoLabels)
                     else Success(TopK(imagePaths, imageLabels.value, GetTypeOfImage(querySimilarity), ranking, k))
      ensures r.Success? && Unpadded(ranking) ==>
                index.Some? && imageLabels.Some? && |imagePaths| > 0 &&
                r.value == TopKAsWritten(imagePaths, imageLabels.value, GetTypeOfImage(querySimilarity), ranking, k)
    {
      if index.None? {
        var init := Initialize();
        if init.Fail? {
          return Failure(init.error);
        }
      }
      if index.None? {
        return Failure(NoIndex);
      }
      var queryType := GetTypeOfImage(querySimilarity);
      if imageLabels.None? {
        return Failure(NoLabels);
      }
      r := Success(TopK(imagePaths, imageLabels.value, queryType, ranking, k));
      if Unpadded(ranking) {
        TopKAsWrittenUnpadded(imagePaths, imageLabels.value, queryType, ranking, k);
      }
    }
  }

  /** The engine's classifier only ever answers a garment type. */
  lemma ClassifierTypes(e: Engine)
    requires e.Classifies()
    ensures forall p :: e.typeOfImage(p) in TYPES
  {
  }

  // ---------------------------------------------------------------------------
  // Type-filtered top-k over the FAISS ranking

  /** Every entry of the ranking is an offset into a corpus of `n` images, or -1. */
  predicate Fits(n: nat, ranking: seq<int>)
  {
    forall j :: 0 <= j < |ranking| ==> -1 <= ranking[j] < n
  }

  function Min(a: int, b: int): int
  {
    if a <= b then a else b
  }

  /** Python's `s[:k]` for k >= 0. */
  function Prefix<T>(s: seq<T>, k: nat): (r: seq<T>)
    ensures |r| == Min(k, |s|) && r <= s
  {
    if k <= |s| then s[..k] else s
  }

  /** The ranking entry at position j names a corpus image labelled `queryType`;
      the padding offset -1 names no image. */
  predicate IsHit(paths: seq<string>, labels: map<string, string>, queryType: string, offset: int)
    requires offset < |paths|
  {
    0 <= offset && Get(labels, paths[offset]) == Some(queryType)
  }

  /** The comprehension of line 106 with padding skipped: the paths of the hits,
      in rank order. */
  function Filtered(paths: seq<string>, labels: map<string, string>, queryType: string, ranking: seq<int>): seq<string>
    requires Fits(|paths|, ranking)
  {
    if ranking == [] then []
    else
      var init := ranking[..|ranking| - 1];
      var o := ranking[|ranking| - 1];
      Filtered(paths, labels, queryType, init) + (if IsHit(paths, labels, queryType, o) then [paths[o]] else [])
  }

  /** The positions of the ranking that are hits, in increasing order, and all of them. */
  function HitPositions(paths: seq<string>, labels: map<string, string>, queryType: string, ranking: seq<int>): (pos: seq<nat>)
    requires Fits(|paths|, ranking)
    ensures forall a, b :: 0 <= a < b < |pos| ==> pos[a] < pos[b]
    ensures forall a :: 0 <= a < |pos| ==> pos[a] < |ranking| && IsHit(paths, labels, queryType, ranking[pos[a]])
    ensures forall j :: 0 <= j < |ranking| && IsHit(paths, labels, queryType, ranking[j]) ==> j in pos
  {
    if ranking == [] then []
    else
      var n := |ranking| - 1;
      var init := ranking[..n];
      var pos0 := HitPositions(paths, labels, queryType, init);
      assert forall j :: 0 <= j < n ==> init[j] == ranking[j];
      pos0 + (if IsHit(paths, labels, queryType, ranking[n]) then [n] else [])
  }

  /** The filtered list is the corpus images at the hit positions. */
  lemma {:induction false} FilteredAtHits(paths: seq<string>, labels: map<string, string>, queryType: string, ranking: seq<int>)
    requires Fits(|paths|, ranking)
    ensures var f := Filtered(paths, labels, queryType, ranking);
            var pos := HitPositions(paths, labels, queryType, ranking);
            && |f| == |pos|
            && forall a :: 0 <= a < |f| ==> f[a] == paths[ranking[pos[a]]]
  {
    if ranking != [] {
      var n := |ranking| - 1;
      var init := ranking[..n];
      FilteredAtHits(paths, labels, queryType, init);
      var pos0 := HitPositions(paths, labels, queryType, init);
      assert forall a :: 0 <= a < |pos0| ==> ranking[pos0[a]] == init[pos0[a]];
    }
  }

  /** The search result proper: `filtered[:k]`. */
  function TopK(paths: seq<string>, labels: map<string, string>, queryType: string, ranking: seq<int>, k: nat): seq<string>
    requires Fits(|paths|, ranking)
  {
    Prefix(Filtered(paths, labels, queryType, ranking), k)
  }

  /** The result is exactly the first min(k, #hits) hits of the ranking, nearest
      first: at most k paths; the j-th is the image at the j-th hit position; since
      the hit positions are increasing and complete, no later hit is chosen over an
      earlier one. */
  lemma TopKIsFirstHits(paths: seq<string>, labels: map<string, string>, queryType: string, ranking: seq<int>, k: nat)
    requires Fits(|paths|, ranking)
    ensures var r := TopK(paths, labels, queryType, ranking, k);
            var pos := HitPositions(paths, labels, queryType, ranking);
            && |r| == Min(k, |pos|) <= k
            && forall j :: 0 <= j < |r| ==> r[j] == paths[ranking[pos[j]]]
  {
    FilteredAtHits(paths, labels, queryType, ranking);
  }

  /** Every returned path is labelled with the query's type; in particular a path
      without an entry in the label map is never returned. */
  lemma TopKLabels(paths: seq<string>, labels: map<string, string>, queryType: string, ranking: seq<int>, k: nat)
    requires Fits(|paths|, ranking)
    ensures forall p :: p in TopK(paths, labels, queryType, ranking, k) ==> p in labels && labels[p] == queryType
  {
    var r := TopK(paths, labels, queryType, ranking, k);
    var pos := HitPositions(paths, labels, queryType, ranking);
    TopKIsFirstHits(paths, labels, queryType, ranking, k);
    forall p | p in r
      ensures p in labels && labels[p] == queryType
    {
      var j :| 0 <= j < |r| && r[j] == p;
      assert IsHit(paths, labels, queryType, ranking[pos[j]]);
    }
  }

  /** FAISS returns each stored vector at most once; over a corpus without repeated
      paths the result then holds no path twice. */
  lemma TopKDistinct(paths: seq<string>, labels: map<string, string>, queryType: string, ranking: seq<int>, k: nat)
    requires Fits(|paths|, ranking)
    requires Distinct(paths)
    requires forall a, b :: 0 <= a < b < |ranking| && ranking[a] >= 0 ==> ranking[a] != ranking[b]
    ensures Distinct(TopK(paths, labels, queryType, ranking, k))
  {
    var r := TopK(paths, labels, queryType, ranking, k);
    var pos := HitPositions(paths, labels, queryType, ranking);
    TopKIsFirstHits(paths, labels, queryType, ranking, k);
    forall a, b | 0 <= a < b < |r|
      ensures r[a] != r[b]
    {
      assert pos[a] < pos[b];
      assert ranking[pos[a]] >= 0;
    }
  }

  // ---------------------------------------------------------------------------
  // The comprehension as written: the padding offset -1 taken as a Python index

  /** Python's `s[i]`: a negative index counts from the end. */
  function PyIndex<T>(s: seq<T>, i: int): T
    requires -|s| <= i < |s|
  {
    if i < 0 then s[|s| + i] else s[i]
  }

  /** `[image_paths[i] for i in I[0] if image_labels.get(image_paths[i]) == query_type]`
      with FAISS's -1 padding read as `image_paths[-1]`, the last image. */
  function FilteredAsWritten(paths: seq<string>, labels: map<string, string>, queryType: string, ranking: seq<int>): (r: seq<string>)
    requires |paths| > 0 && Fits(|paths|, ranking)
    ensures |r| <= |ranking|
  {
    if ranking == [] then []
    else
      var init := ranking[..|ranking| - 1];
      var p := PyIndex(paths, ranking[|ranking| - 1]);
      FilteredAsWritten(paths, labels, queryType, init) + (if Get(labels, p) == Some(queryType) then [p] else [])
  }

  /** `filtered[:k]` as written. */
  function TopKAsWritten(paths: seq<string>, labels: map<string, string>, queryType: string, ranking: seq<int>, k: nat): seq<string>
    requires |paths| > 0 && Fits(|paths|, ranking)
  {
    Prefix(FilteredAsWritten(paths, labels, queryType, ranking), k)
  }

  /** The comprehension as written yields only corpus images labelled with the
      query's type, padding included. */
  lemma {:induction false} FilteredAsWrittenLabels(paths: seq<string>, labels: map<string, string>, queryType: string, ranking: seq<int>)
    requires |paths| > 0 && Fits(|paths|, ranking)
    ensures forall p :: p in FilteredAsWritten(paths, labels, queryType, ranking) ==> p in paths && p in labels && labels[p] == queryType
  {
    if ranking != [] {
      var init := ranking[..|ranking| - 1];
      FilteredAsWrittenLabels(paths, labels, queryType, init);
      var p := PyIndex(paths, ranking[|ranking| - 1]);
      assert p in paths;
    }
  }

  /** The search as written returns at most k paths, each labelled with the query's
      type; over a padded ranking they need not be distinct. */
  lemma TopKAsWrittenLabels(paths: seq<string>, labels: map<string, string>, queryType: string, ranking: seq<int>, k: nat)
    requires |paths| > 0 && Fits(|paths|, ranking)
    ensures var r := TopKAsWritten(paths, labels, queryType, ranking, k);
            && |r| <= k
            && forall p :: p in r ==> p in paths && p in labels && labels[p] == queryType
  {
    FilteredAsWrittenLabels(paths, labels, queryType, ranking);
  }

  /** FAISS pads the row only when the index holds fewer vectors than asked for. */
  predicate Unpadded(ranking: seq<int>)
  {
    forall j :: 0 <= j < |ranking| ==> ranking[j] >= 0
  }

  /** Without padding the comprehension as written and the padding-skipping filter
      agree entry for entry. */
  lemma {:induction false} FilteredAsWrittenUnpadded(paths: seq<string>, labels: map<string, string>, queryType: string, ranking: seq<int>)
    requires |paths| > 0 && Fits(|paths|, ranking) && Unpadded(ranking)
    ensures FilteredAsWritten(paths, labels, queryType, ranking) == Filtered(paths, labels, queryType, ranking)
  {
    if ranking != [] {
      FilteredAsWrittenUnpadded(paths, labels, queryType, ranking[..|ranking| - 1]);
    }
  }

  /** Hence over a corpus of at least k*10 images, where FAISS never pads, the
      search as written returns exactly `TopK`. */
  lemma TopKAsWrittenUnpadded(paths: seq<string>, labels: map<string, string>, queryType: string, ranking: seq<int>, k: nat)
    requires |paths| > 0 && Fits(|paths|, ranking) && Unpadded(ranking)
    ensures TopKAsWritten(paths, labels, queryType, ranking, k) == TopK(paths, labels, queryType, ranking, k)
  {
    FilteredAsWrittenUnpadded(paths, labels, queryType, ranking);
  }

  function Padding(n: nat): (r: seq<int>)
    ensures |r| == n && forall j :: 0 <= j < n ==> r[j] == -1
  {
    seq(n, _ => -1)
  }

  lemma {:induction false} FilteredAsWrittenPadding(paths: seq<string>, labels: map<string, string>, queryType: string, prefix: seq<int>, n: nat)
    requires |paths| > 0 && Fits(|paths|, prefix)
    requires Get(labels, paths[|paths| - 1]) == Some(queryType)
    ensures Fits(|paths|, prefix + Padding(n))
    ensures |FilteredAsWritten(paths, labels, queryType, prefix + Padding(n))|
            == |FilteredAsWritten(paths, labels, queryType, prefix)| + n
    ensures var f0 := FilteredAsWritten(paths, labels, queryType, prefix);
            var f := FilteredAsWritten(paths, labels, queryType, prefix + Padding(n));
            && f0 <= f
            && forall j :: |f0| <= j < |f| ==> f[j] == paths[|paths| - 1]
  {
    if n > 0 {
      FilteredAsWrittenPadding(paths, labels, queryType, prefix, n - 1);
      var r := prefix + Padding(n);
      var last := paths[|paths| - 1];
      assert r[..|r| - 1] == prefix + Padding(n - 1);
      assert PyIndex(paths, r[|r| - 1]) == last;
      var f1 := FilteredAsWritten(paths, labels, queryType, prefix + Padding(n - 1));
      assert FilteredAsWritten(paths, labels, queryType, r) == f1 + [last];
    } else {
      assert prefix + Padding(n) == prefix;
    }
  }

  /** With one reference image labelled "robe" and k = 2, FAISS is asked for 20
      neighbours, returns offset 0 followed by 19 paddings, and the search as
      written returns that one image twice. */
  lemma PaddingRepeatsLastImage()
    ensures var paths := ["images/a.jpg"];
            var ranking := [0] + Padding(19);
            && Fits(|paths|, ranking) && |ranking| == 10 * 2
            && TopKAsWritten(paths, map["images/a.jpg" := "robe"], "robe", ranking, 2) == ["images/a.jpg", "images/a.jpg"]
  {
    var paths := ["images/a.jpg"];
    var labels := map["images/a.jpg" := "robe"];
    assert FilteredAsWritten(paths, labels, "robe", [0]) == ["images/a.jpg"] by {
      assert [0][..0] == [];
    }
    FilteredAsWrittenPadding(paths, labels, "robe", [0], 19);
    var f := FilteredAsWritten(paths, labels, "robe", [0] + Padding(19));
    assert |f| == 20 && f[0] == "images/a.jpg" && f[1] == "images/a.jpg";
    assert f[..2] == ["images/a.jpg", "images/a.jpg"];
  }
}
