/** backend/categorize_images.py: every image file at the top of a folder is
    classified by the engine and moved into a sub-folder named after its type; the
    engine's label map learns the new path of each moved image and is saved to
    metadata/image_labels.json beside the folder.  A dry run creates the class
    folders but moves nothing, labels nothing and saves nothing. */
module Categorize {
  import opened Wrappers
  import opened Text
  import Paths
  import SE = SearchEngine

  /** The suffixes `list_root_images` accepts, lower-case. */
  const EXTS: set<string> := {".jpg", ".jpeg", ".png", ".webp"}

  /** One entry of a folder: its name and whether it is a regular file. */
  datatype Entry = Entry(name: string, isFile: bool)

  /** A relative path as its components. */
  type Path = seq<string>

  datatype Error = FolderNotFound | EngineError(error: SE.Error)

  datatype Summary = Summary(total: nat, moved: nat)

  predicate IsImageFile(e: Entry)
  {
    e.isFile && Lower(Paths.Suffix(e.name)) in EXTS
  }

  /** The entries `list_root_images` yields, in listing order. */
  function ImageFiles(entries: seq<Entry>): seq<Entry>
  {
    if entries == [] then []
    else
      var e := entries[|entries| - 1];
      ImageFiles(entries[..|entries| - 1]) + (if IsImageFile(e) then [e] else [])
  }

  /** `list_root_images(images_dir)`: the paths of the image files of the folder. */
  function ListRootImages(dir: Path, entries: seq<Entry>): seq<Path>
  {
    var files := ImageFiles(entries);
    seq(|files|, j requires 0 <= j < |files| => dir + [files[j].name])
  }

  ghost predicate DistinctNames(entries: seq<Entry>)
  {
    forall a, b :: 0 <= a < b < |entries| ==> entries[a].name != entries[b].name
  }

  /** Exactly the regular files with an accepted suffix are yielded. */
  lemma {:induction false} ImageFilesMembers(entries: seq<Entry>)
    ensures forall e :: e in ImageFiles(entries) <==> e in entries && IsImageFile(e)
  {
    if entries != [] {
      var init := entries[..|entries| - 1];
      assert entries == init + [entries[|entries| - 1]];
      ImageFilesMembers(init);
    }
  }

  /** Names that are distinct in the folder stay distinct among the yielded files. */
  lemma {:induction false} ImageFilesDistinct(entries: seq<Entry>)
    requires DistinctNames(entries)
    ensures DistinctNames(ImageFiles(entries))
  {
    if entries != [] {
      var n := |entries| - 1;
      var init := entries[..n];
      var e := entries[n];
      assert DistinctNames(init);
      ImageFilesDistinct(init);
      ImageFilesMembers(init);
      var f0 := ImageFiles(init);
      if IsImageFile(e) {
        forall a | 0 <= a < |f0|
          ensures f0[a].name != e.name
        {
          assert f0[a] in init;
          var b :| 0 <= b < n && init[b] == f0[a];
        }
        var f := f0 + [e];
        forall a, b | 0 <= a < b < |f|
          ensures f[a].name != f[b].name
        {
          if b == |f0| { assert f[a] == f0[a]; }
        }
      }
    }
  }

  /** Exactly the image files of the folder are listed, each under the folder. */
  lemma ListRootImagesSpec(dir: Path, entries: seq<Entry>)
    ensures forall img :: img in ListRootImages(dir, entries) <==>
                          exists e :: e in entries && IsImageFile(e) && img == dir + [e.name]
  {
    ImageFilesMembers(entries);
    var files := ImageFiles(entries);
    var imgs := ListRootImages(dir, entries);
    forall img | img in imgs
      ensures exists e :: e in entries && IsImageFile(e) && img == dir + [e.name]
    {
      var j :| 0 <= j < |imgs| && imgs[j] == img;
      assert files[j] in files;
    }
    forall e | e in entries && IsImageFile(e)
      ensures dir + [e.name] in imgs
    {
      var j :| 0 <= j < |files| && files[j] == e;
      assert imgs[j] == dir + [e.name];
    }
  }

  /** `PurePath(p).name` as a component ("" for "."). */
  function NameOf(img: Path): string
  {
    if img == [] then "" else img[|img| - 1]
  }

  /** `img_path.parent / cls / img_path.name` */
  function Destination(img: Path, cls: string): Path
  {
    Paths.Parent(img) + [cls] + (if img == [] then [] else [NameOf(img)])
  }

  /** The destination keeps the file's name and sits in the class folder under the
      file's own folder; as a string it still ends in that name. */
  lemma DestinationSpec(img: Path, cls: string)
    requires img != [] && '/' !in NameOf(img)
    ensures Paths.Parent(Destination(img, cls)) == Paths.Parent(img) + [cls]
    ensures NameOf(Destination(img, cls)) == NameOf(img)
    ensures Paths.Name(Paths.Str(Destination(img, cls))) == NameOf(img)
  {
    Paths.NameOfStr(Destination(img, cls));
  }

  /** The type `classify` (the engine's `get_type_of_image`) gives the image at `img`. */
  function ClassOf(classify: string -> string, img: Path): string
  {
    classify(Paths.Str(img))
  }

  /** `str(dst)`, the key under which the moved image is labelled. */
  function LabelKey(classify: string -> string, img: Path): string
  {
    Paths.Str(Destination(img, ClassOf(classify, img)))
  }

  /** The label map after `image_labels[str(dst)] = cls` for each image in turn. */
  function Relabel(m: map<string, string>, imgs: seq<Path>, classify: string -> string): map<string, string>
  {
    if imgs == [] then m
    else
      var img := imgs[|imgs| - 1];
      Relabel(m, imgs[..|imgs| - 1], classify)[LabelKey(classify, img) := ClassOf(classify, img)]
  }

  /** The keys `categorize` writes: the rendered destination of each image. */
  function DestKeys(imgs: seq<Path>, classify: string -> string): set<string>
  {
    if imgs == [] then {}
    else DestKeys(imgs[..|imgs| - 1], classify) + {LabelKey(classify, imgs[|imgs| - 1])}
  }

  /** Every image's rendered destination is a destination key. */
  lemma {:induction false} DestKeysMembers(imgs: seq<Path>, classify: string -> string)
    ensures forall j :: 0 <= j < |imgs| ==> LabelKey(classify, imgs[j]) in DestKeys(imgs, classify)
  {
    if imgs != [] {
      var n := |imgs| - 1;
      var init := imgs[..n];
      DestKeysMembers(init, classify);
      forall j | 0 <= j < n
        ensures LabelKey(classify, imgs[j]) in DestKeys(imgs, classify)
      {
        assert init[j] == imgs[j];
      }
    }
  }

  /** Relabelling adds the destination keys and no others. */
  lemma {:induction false} RelabelKeys(m: map<string, string>, imgs: seq<Path>, classify: string -> string)
    ensures Relabel(m, imgs, classify).Keys == m.Keys + DestKeys(imgs, classify)
  {
    if imgs != [] {
      RelabelKeys(m, imgs[..|imgs| - 1], classify);
    }
  }

  /** Relabelling leaves the label of every key that is no destination alone. */
  lemma {:induction false} RelabelKeepsOthers(m: map<string, string>, imgs: seq<Path>, classify: string -> string, k: string)
    requires k in m && k !in DestKeys(imgs, classify)
    ensures k in Relabel(m, imgs, classify) && Relabel(m, imgs, classify)[k] == m[k]
  {
    if imgs != [] {
      RelabelKeepsOthers(m, imgs[..|imgs| - 1], classify, k);
    }
  }

  /** When the destinations are distinct, every moved image ends up labelled with
      its predicted type. */
  lemma {:induction false} RelabelLabelsEach(m: map<string, string>, imgs: seq<Path>, classify: string -> string, j: nat)
    requires j < |imgs|
    requires forall a, b :: 0 <= a < b < |imgs| ==> LabelKey(classify, imgs[a]) != LabelKey(classify, imgs[b])
    ensures LabelKey(classify, imgs[j]) in Relabel(m, imgs, classify)
    ensures Relabel(m, imgs, classify)[LabelKey(classify, imgs[j])] == ClassOf(classify, imgs[j])
  {
    var n := |imgs| - 1;
    if j < n {
      var init := imgs[..n];
      assert init[j] == imgs[j];
      RelabelLabelsEach(m, init, classify, j);
    }
  }

  /** Relabelling with a classifier whose answers are garment types keeps every
      label a garment type. */
  lemma {:induction false} RelabelTypes(m: map<string, string>, imgs: seq<Path>, classify: string -> string)
    requires forall k :: k in m ==> m[k] in SE.TYPES
    requires forall p :: classify(p) in SE.TYPES
    ensures forall k :: k in Relabel(m, imgs, classify) ==> Relabel(m, imgs, classify)[k] in SE.TYPES
  {
    if imgs != [] {
      RelabelTypes(m, imgs[..|imgs| - 1], classify);
    }
  }

  /** The images of one folder, with distinct names free of separators, have
      distinct label keys; so `categorize` labels every one of them. */
  lemma LabelKeysDistinct(dir: Path, entries: seq<Entry>, classify: string -> string)
    requires DistinctNames(entries)
    requires forall e :: e in entries ==> '/' !in e.name
    ensures var imgs := ListRootImages(dir, entries);
            forall a, b :: 0 <= a < b < |imgs| ==> LabelKey(classify, imgs[a]) != LabelKey(classify, imgs[b])
  {
    var imgs := ListRootImages(dir, entries);
    var files := ImageFiles(entries);
    ImageFilesMembers(entries);
    ImageFilesDistinct(entries);
    forall a, b | 0 <= a < b < |imgs|
      ensures LabelKey(classify, imgs[a]) != LabelKey(classify, imgs[b])
    {
      assert files[a] in files && files[b] in files;
      DestinationSpec(imgs[a], ClassOf(classify, imgs[a]));
      DestinationSpec(imgs[b], ClassOf(classify, imgs[b]));
      assert NameOf(imgs[a]) == files[a].name != files[b].name == NameOf(imgs[b]);
    }
  }

  /** The class folders made for the images. */
  function ClassDirs(imgs: seq<Path>, classify: string -> string): set<Path>
  {
    set j | 0 <= j < |imgs| :: Paths.Parent(imgs[j]) + [ClassOf(classify, imgs[j])]
  }

  /** The moves performed, in order. */
  function Moves(imgs: seq<Path>, classify: string -> string): seq<(Path, Path)>
  {
    seq(|imgs|, j requires 0 <= j < |imgs| => (imgs[j], Destination(imgs[j], ClassOf(classify, imgs[j]))))
  }

  lemma PassStep(m: map<string, string>, imgs: seq<Path>, classify: string -> string, i: nat)
    requires i < |imgs|
    ensures var img, cls := imgs[i], ClassOf(classify, imgs[i]);
            && ClassDirs(imgs[..i + 1], classify) == ClassDirs(imgs[..i], classify) + {Paths.Parent(img) + [cls]}
            && Moves(imgs[..i + 1], classify) == Moves(imgs[..i], classify) + [(img, Destination(img, cls))]
            && Relabel(m, imgs[..i + 1], classify) == Relabel(m, imgs[..i], classify)[LabelKey(classify, img) := cls]
  {
    var pre, pre1 := imgs[..i], imgs[..i + 1];
    assert pre1[..i] == pre;
    forall d | d in ClassDirs(pre1, classify)
      ensures d in ClassDirs(pre, classify) + {Paths.Parent(imgs[i]) + [ClassOf(classify, imgs[i])]}
    {
      var j :| 0 <= j < i + 1 && d == Paths.Parent(pre1[j]) + [ClassOf(classify, pre1[j])];
      if j < i { assert pre1[j] == pre[j]; }
    }
    forall d | d in ClassDirs(pre, classify)
      ensures d in ClassDirs(pre1, classify)
    {
      var j :| 0 <= j < i && d == Paths.Parent(pre[j]) + [ClassOf(classify, pre[j])];
      assert pre1[j] == pre[j];
    }
    assert ClassDirs(pre1, classify) == ClassDirs(pre, classify) + {Paths.Parent(imgs[i]) + [ClassOf(classify, imgs[i])]};
  }

  /** Solver hints for the `dirs` and `moves` invariants of `ProcessImages`: they
      regroup one step's addition onto the accumulated prefix.  Not properties of
      the program. */
  lemma UnionAssoc<T>(a: set<T>, b: set<T>, c: set<T>)
    ensures a + b + c == a + (b + c)
  {
  }

  lemma AppendAssoc<T>(a: seq<T>, b: seq<T>, c: seq<T>)
    ensures a + b + c == a + (b + c)
  {
  }

  /** The engine's label map after the pass: untouched on a dry run or when it is None. */
  function LabelsAfter(labels: Option<map<string, string>>, imgs: seq<Path>, classify: string -> string, dryRun: bool): Option<map<string, string>>
  {
    if dryRun || labels.None? then labels else Some(Relabel(labels.value, imgs, classify))
  }

  /** Where the labels are saved: `images_dir.parent / "metadata"`. */
  function MetadataDir(imagesDir: Path): Path
  {
    Paths.Parent(imagesDir) + ["metadata"]
  }

  /** The file system as the script changes it, and the engine it relies on. */
  class Categorizer {
    const engine: SE.Engine
    /** Folders created. */
    var dirs: set<Path>
    /** `shutil.move(src, dst)` calls, in order. */
    var moves: seq<(Path, Path)>
    /** JSON label files written, by path. */
    var written: map<Path, map<string, string>>

    constructor (engine: SE.Engine)
      ensures this.engine == engine && dirs == {} && moves == [] && written == map[]
    {
      this.engine := engine;
      dirs := {};
      moves := [];
      written := map[];
    }

    /** `ensure_class_folder(images_dir, cls)` */
    method EnsureClassFolder(imagesDir: Path, cls: string) returns (dstDir: Path)
      modifies this`dirs
      ensures dstDir == imagesDir + [cls]
      ensures dirs == old(dirs) + {dstDir}
    {
      dstDir := imagesDir + [cls];
      dirs := dirs + {dstDir};
    }

    /** `move_image_to_class(img_path, cls, dry_run)`: the class folder is made in
        either mode; the file is moved only when not a dry run; the destination is
        the same in both. */
    method MoveImageToClass(img: Path, cls: string, dryRun: bool) returns (dst: Path)
      modifies this`dirs, this`moves
      ensures dst == Destination(img, cls)
      ensures dirs == old(dirs) + {Paths.Parent(img) + [cls]}
      ensures moves == old(moves) + (if dryRun then [] else [(img, dst)])
    {
      var imagesDir := Paths.Parent(img);
      var dstDir := EnsureClassFolder(imagesDir, cls);
      dst := dstDir + (if img == [] then [] else [NameOf(img)]);
      if dryRun {
        return;
      }
      moves := moves + [(img, dst)];
    }

    /** The loop of `categorize` (lines 41-51 of the script): counts the images,
        moves each one (unless a dry run) and, when not a dry run, labels its new
        path in the engine.  Only the engine's label map changes. */
    method ProcessImages(imgs: seq<Path>, dryRun: bool) returns (summary: Summary)
      requires engine.Valid()
      modifies this`dirs, this`moves, engine`imageLabels
      ensures engine.Valid()
      ensures summary == Summary(|imgs|, if dryRun then 0 else |imgs|)
      ensures engine.imageLabels == LabelsAfter(old(engine.imageLabels), imgs, engine.typeOfImage, dryRun)
      ensures dirs == old(dirs) + ClassDirs(imgs, engine.typeOfImage)
      ensures moves == old(moves) + (if dryRun then [] else Moves(imgs, engine.typeOfImage))
    {
      var moved, total := 0, 0;
      var i := 0;
      while i < |imgs|
        invariant 0 <= i <= |imgs|
        invariant total == i && moved == (if dryRun then 0 else i)
        invariant engine.Valid()
        invariant engine.imageLabels == LabelsAfter(old(engine.imageLabels), imgs[..i], engine.typeOfImage, dryRun)
        invariant dirs == old(dirs) + ClassDirs(imgs[..i], engine.typeOfImage)
        invariant dryRun ==> moves == old(moves)
        invariant !dryRun ==> moves == old(moves) + Moves(imgs[..i], engine.typeOfImage)
      {
        total := total + 1;
        var img := imgs[i];
        var cls := engine.typeOfImage(Paths.Str(img));
        var dst := MoveImageToClass(img, cls, dryRun);
        PassStep(if old(engine.imageLabels).Some? then old(engine.imageLabels).value else map[], imgs, engine.typeOfImage, i);
        UnionAssoc(old(dirs), ClassDirs(imgs[..i], engine.typeOfImage), {Paths.Parent(img) + [cls]});
        AppendAssoc(old(moves), Moves(imgs[..i], engine.typeOfImage), [(img, dst)]);
        if !dryRun {
          moved := moved + 1;
          if engine.imageLabels.Some? {
            engine.imageLabels := Some(engine.imageLabels.value[Paths.Str(dst) := cls]);
          }
        }
        i := i + 1;
      }
      assert imgs[..i] == imgs;
      summary := Summary(total, moved);
    }

    /** The save at the end of `categorize`: unless a dry run, and when there is a
        label map, it is written to metadata/image_labels.json beside the folder. */
    method SaveLabels(imagesDir: Path, labels: Option<map<string, string>>, dryRun: bool)
      modifies this`dirs, this`written
      ensures dirs == old(dirs) + (if !dryRun && labels.Some? then {MetadataDir(imagesDir)} else {})
      ensures written == if !dryRun && labels.Some? then old(written)[MetadataDir(imagesDir) + ["image_labels.json"] := labels.value]
                         else old(written)
    {
      if !dryRun && labels.Some? {
        var metadataDir := MetadataDir(imagesDir);
        dirs := dirs + {metadataDir};
        written := written[metadataDir + ["image_labels.json"] := labels.value];
      }
    }

    /** `categorize(images_root, dry_run)`.  `rootExists` and `entries` describe
        the folder at `root` as the file system has it. */
    method Categorize(root: Path, rootExists: bool, entries: seq<Entry>, dryRun: bool) returns (res: Result<Summary, Error>)
      requires engine.Valid()
      modifies this, engine
      ensures engine.Valid()
      ensures !rootExists ==> res == Failure(FolderNotFound) && unchanged(this) && unchanged(engine)
      ensures rootExists && SE.InitOutcome(old(engine.State()), engine.listing).Fail? ==>
                res == Failure(EngineError(SE.EmptyCorpus))
                && engine.State() == SE.AfterInit(old(engine.State()), engine.listing, engine.similarity)
                && unchanged(this)
      ensures rootExists && SE.InitOutcome(old(engine.State()), engine.listing).Pass? ==>
                var s1 := SE.AfterInit(old(engine.State()), engine.listing, engine.similarity);
                var imgs := ListRootImages(root, entries);
                var saves := !dryRun && s1.imageLabels.Some?;
                && res == Success(Summary(|imgs|, if dryRun then 0 else |imgs|))
                && engine.State() == s1.(imageLabels := LabelsAfter(s1.imageLabels, imgs, engine.typeOfImage, dryRun))
                && dirs == old(dirs) + ClassDirs(imgs, engine.typeOfImage) + (if saves then {MetadataDir(root)} else {})
                && moves == old(moves) + (if dryRun then [] else Moves(imgs, engine.typeOfImage))
                && written == if saves then old(written)[MetadataDir(root) + ["image_labels.json"] := Relabel(s1.imageLabels.value, imgs, engine.typeOfImage)]
                              else old(written)
    {
      if !rootExists {
        return Failure(FolderNotFound);
      }
      var init := engine.Initialize();
      if init.Fail? {
        return Failure(EngineError(init.error));
      }
      ghost var s1 := engine.State();
      var imgs := ListRootImages(root, entries);
      var summary := ProcessImages(imgs, dryRun);
      assert engine.State() == s1.(imageLabels := LabelsAfter(s1.imageLabels, imgs, engine.typeOfImage, dryRun));
      SaveLabels(root, engine.imageLabels, dryRun);
      return Success(summary);
    }
  }
}
