# SnapMyFit core, modelled in Dafny

SnapMyFit is a garment-search application. Its backend keeps a corpus of
reference images under `images/`. Each image carries a garment-type label:
robe, jupe, t-shirt, pantalon, short, veste or chemise. A CLIP model predicts
the labels, and a FAISS nearest-neighbour index ranks the images by visual
similarity to an uploaded photo. A search keeps only the ranked images of the
photo's own predicted type.

This project models the bookkeeping around those two libraries and proves its
properties. It models four pieces of code:

- **Retrieval engine** (`search_engine.dfy`, module `SearchEngine`).
  - The type classifier is the first maximum over per-type similarity scores.
  - `initialize` is guarded by the `model` flag, so it runs once. It scans the
    corpus and loads or builds the label map.
  - `search_image` does type-filtered top-k retrieval over the ranking FAISS
    returns.
  - The module globals are fields of the class `Engine`. `Initialize` and
    `SearchImage` are its methods. The filter and prefix are pure functions
    with lemmas.
- **Reference generation** (`references.dfy`, module `References`).
  - One pass over the label file's entries, in file order.
  - It keeps a per-category counter.
  - It builds a record for each image, with reference
    `UPPER(category)-NNNN`.
- **Categorisation script** (`categorize.dfy`, module `Categorize`).
  - It lists the image files of a folder and moves each one into a sub-folder
    named after its predicted type. It counts the images it processes and the
    files it moves.
  - It records each moved image's new path in the engine's label map and saves
    that map.
  - A dry-run mode creates the class folders but moves nothing.
- **Frontend session** (`auth.dfy`, module `Auth`).
  - The signed-in user, mirrored into a browser storage slot.
  - The mock login and register transitions, logout, and the points update.

Supporting modules:

- `paths.dfy` (`Paths`): pathlib's `name`, `suffix`, `stem`, `parent` and `str`
  for POSIX paths.
- `text.dfy` (`Text`): ASCII case mapping, `split(c)[0]`, `str(n)` and
  `zfill`.
- `wrappers.dfy` (`Wrappers`): `Option`, `Result`, `Outcome`, and `dict.get`
  as `Get`.

## Abstractions

The CLIP model, the FAISS index, the file system and the clock become inputs:

- **Similarity scores.** CLIP's similarity of an image to the seven type
  prompts is a sequence of seven integers (`Scores`). The engine holds a
  function from image path to `Scores`, and the query photo's scores are a
  method argument. Only the order of the scores matters to the code, so
  integers stand in for the float32 values.
- **The FAISS ranking.** It is the offset row `I[0]` of `index.search`, given
  as a `seq<int>` of length `10*k`. Each entry is either an offset into the
  corpus or `-1`; FAISS uses `-1` as padding when the corpus has fewer images
  than were asked for. Offset *i* denotes `image_paths[i]`: `Engine.Valid()`
  keeps the indexed sequence equal to `imagePaths`.
- **File system.**
  - The engine's input is the listing of `images/` together with the content
    of `image_labels.json`: missing, a JSON object, or JSON `null`.
  - The categorisation script's input is the folder's entries (each a name
    plus whether it is a regular file) and whether the root folder exists.
  - The script's effects are recorded as fields of `Categorizer`: the folders
    created, the `shutil.move` calls in order, and the JSON files written.
- **Browser storage.** The `localStorage` slot `snapmyfit-user` is the field
  `AuthProvider.stored`.
- **Clock.** `new Date().toISOString()` is a string parameter of `Register`.

Exceptions are modelled as error values:

- `initialize` over a corpus with no `.jpg` file fails in `np.vstack`. It fails
  only after `model`, `image_paths` and the label map have been set, and the
  index stays `None`. This is `EmptyCorpus`.
- A later `search_image` then meets an existing model and no index. This is
  `NoIndex`.
- A labels file holding `null` leaves the engine's label map `None`: `NoLabels`.
- `generate_references` over a `null` labels file fails in `labels.items()`
  before it writes anything. This is `NullLabels`.
- A missing root folder in `categorize` is `FolderNotFound`.

backend/rebuild_class_indexes.py:17-20 reads `search_engine.class_to_index` and
`search_engine.class_to_indices` and names per-class files
`faiss_index_{cls}.bin`. backend/search_engine.py defines none of these: it
builds one index over the whole corpus (lines 55-60) and never saves it. The
model follows search_engine.py, so per-class indexes, a fallback search and
index persistence are not part of it.

## Model

| member | source | states |
|---|---|---|
| SearchEngine.ArgMax | backend/search_engine.py:90 | numpy's `argmax`: the result is a position of the largest score, and every earlier position holds a strictly smaller score |
| SearchEngine.GetTypeOfImage | backend/search_engine.py:89-91 | the predicted type is always one of TYPES; its position holds the largest similarity; on equal scores the type declared first wins |
| SearchEngine.ClassifierTypes | backend/search_engine.py:71-91 | the engine's classifier answers only TYPES members, for every image path |
| SearchEngine.ScanImagesSpec | backend/search_engine.py:39 | `image_paths` is exactly `images/f` for the listed names `f` whose lower-cased form ends in `.jpg`; distinct names give distinct paths |
| SearchEngine.LabelsForSpec | backend/search_engine.py:48-50 | the built label map has exactly the image paths as keys; each value is that image's predicted type and so a member of TYPES; with distinct paths it has one entry per path |
| SearchEngine.InitialLabels | backend/search_engine.py:41-52 | a first `initialize` with no labels file sets a label map with one entry per image path, each value in TYPES, and writes that same map to the labels file |
| SearchEngine.InitializeIdempotent | backend/search_engine.py:30-31 | a second `initialize` changes no state and reports no error |
| SearchEngine.Engine.constructor | backend/search_engine.py:17-22 | at process start every global is unset; the labels file is what is on disk |
| SearchEngine.Engine.Initialize | backend/search_engine.py:27-60 | with the model set, nothing changes. Otherwise: the model is set; the paths are the scanned `.jpg` files; the labels are loaded from the file, or built and saved when the file is missing; the index covers the paths unless there are none, which is the empty-corpus failure. Index row i is `image_paths[i]` throughout |
| SearchEngine.Engine.SearchImage | backend/search_engine.py:93-108 | initialises lazily when there is no index, and otherwise changes nothing. Fails for an empty corpus, a missing index or a `null` label map. Otherwise returns the first k hits for the query's predicted type with `-1` padding skipped (`TopK`); when the ranking holds no padding, that is also exactly the comprehension as written (`TopKAsWritten`) |
| SearchEngine.Prefix | backend/search_engine.py:108 | `s[:k]` has length `min(k, len(s))` and is a prefix of `s` |
| SearchEngine.HitPositions | backend/search_engine.py:106 | the ranking positions whose image carries the query type are listed in strictly increasing order, and all of them are listed |
| SearchEngine.FilteredAtHits | backend/search_engine.py:106 | the filtered list has one entry per hit position, and the a-th entry is the image at the a-th hit: an order-preserving subsequence of the ranking mapped through `image_paths` |
| SearchEngine.TopKIsFirstHits | backend/search_engine.py:106-108 | the result holds at most k paths, exactly `min(k, #hits)` of them, and its j-th path is the image at the j-th hit, nearest first; no later hit is chosen over an earlier one |
| SearchEngine.TopKLabels | backend/search_engine.py:106 | every returned path has an entry in the label map, equal to the query type; a path without an entry is never returned |
| SearchEngine.TopKDistinct | backend/search_engine.py:103-108 | when the corpus paths are distinct and FAISS returns each offset at most once, no path is returned twice |
| SearchEngine.FilteredAsWrittenPadding | backend/search_engine.py:103-106 | as written, each `-1` padding is read as `image_paths[-1]`, so the filtered list gains the last image once per padding entry whenever that image carries the query type |
| SearchEngine.FilteredAsWritten | backend/search_engine.py:106 | the comprehension as written, with `-1` read as `image_paths[-1]`, yields at most one path per ranking entry |
| SearchEngine.FilteredAsWrittenLabels | backend/search_engine.py:106 | every path the comprehension as written yields is a corpus path labelled with the query type, padding included |
| SearchEngine.TopKAsWrittenLabels | backend/search_engine.py:106-108 | `filtered[:k]` as written holds at most k paths, each a corpus path labelled with the query type |
| SearchEngine.FilteredAsWrittenUnpadded | backend/search_engine.py:103-106 | over a ranking without `-1` padding, the comprehension as written and the padding-skipping filter give the same list |
| SearchEngine.TopKAsWrittenUnpadded | backend/search_engine.py:103-108 | over a ranking without padding, `filtered[:k]` as written equals `TopK` |
| SearchEngine.PaddingRepeatsLastImage | backend/search_engine.py:103-108 | the comprehension as written, on one image labelled robe with k = 2, returns that image twice |
| Wrappers.Get | backend/search_engine.py:106 | `dict.get`: a value exactly for the keys present, and it is the stored one |
| References.GenerateReferences | backend/generate_references.py:8-48 | with no labels file, nothing is written, no category is counted and no error is raised. A `null` labels file fails with `NullLabels` before anything is written. Otherwise the metadata written is the reference metadata of the entries, in order, and the counter for c is the number of entries of category c (present exactly when that is positive) |
| References.MetadataKeys | backend/generate_references.py:25-38 | the metadata has the label keys, in the same order, one record each, without repeats |
| References.MetadataRecord | backend/generate_references.py:36-44 | each record's category is the label, its brand is "Unknown", its price is None, and its name is the capitalised category, a space and the file stem |
| References.RefNumberFormat | backend/generate_references.py:32 | `str(n).zfill(4)` is all digits, at least four long, exactly four below 10000, and reads back as n |
| References.RefInjective | backend/generate_references.py:31-33 | equal references have equal upper-cased categories and equal numbers |
| References.RefDistinct | backend/generate_references.py:31-33 | a different upper-cased category or a different number gives a different reference |
| References.RefNumbersIncrease | backend/generate_references.py:25-29 | along one category the numbers start at 1 and strictly increase, and none exceeds the category's count |
| References.RefsUnique | backend/generate_references.py:27-33 | all references are pairwise distinct when distinct categories stay distinct once upper-cased, as the garment types do; within one category this needs no condition |
| References.TypesUpperDistinct | backend/generate_references.py:33 | distinct garment types stay distinct once upper-cased |
| References.RefsUniqueForTypes | backend/generate_references.py:27-33 | over labels whose categories are all garment types, as the engine and the categoriser write them, all references are pairwise distinct |
| References.RefExamples | backend/generate_references.py:32-33 | the first robe is "ROBE-0001", the twelfth t-shirt "T-SHIRT-0012" |
| Text.LowerChar | backend/categorize_images.py:12 | a lower-cased character is never an ASCII upper-case letter; an upper-case letter becomes a lower-case one, and any other character is unchanged |
| Text.UpperChar | backend/generate_references.py:33 | an upper-cased character is never an ASCII lower-case letter, is the same letter up to case, and any character other than a lower-case letter is unchanged |
| Text.Lower | backend/categorize_images.py:12 | `str.lower()` keeps the length, leaves no upper-case letter, and keeps every character the same up to case; these fix the result |
| Text.Upper | backend/generate_references.py:33 | `str.upper()` keeps the length, leaves no lower-case letter, and keeps every character the same up to case |
| Text.Capitalize | backend/generate_references.py:40 | `str.capitalize()` keeps the length, leaves the first character not lower case and the others not upper case, and changes only the case of letters |
| Text.NatToString | backend/generate_references.py:32 | `str(n)`: decimal digits with no leading zero, reading back as n |
| Text.ZFillDigits | backend/generate_references.py:32 | zero-filling a digit string keeps it all digits and keeps its value; its length becomes `max(len, width)` |
| Text.BeforeFirst | frontend/src/context/AuthContext.tsx:37 | `split(c)[0]` is a prefix without `c` that ends at the first `c` or at the end |
| Text.BeforeFirstUnique | frontend/src/context/AuthContext.tsx:37 | these three facts determine `split(c)[0]` |
| Paths.Name | backend/categorize_images.py:25 | `name` has no separator, and the path ends in it just after a separator (or is it) |
| Paths.Suffix | backend/categorize_images.py:12 | `suffix` is empty or a final `.` part of the name, shorter than the name and containing no other dot; it is empty only for an empty name, a name ending in `.`, or a name with no dot after its first character |
| Paths.StemSuffix | backend/generate_references.py:36 | stem and suffix concatenate to the name; a non-empty name has a non-empty stem |
| Paths.NameOfStr | backend/categorize_images.py:25 | the name of a rendered path is its last component |
| Categorize.ImageFilesMembers | backend/categorize_images.py:9-13 | an entry is listed iff it is a regular file whose lower-cased suffix is one of `.jpg`, `.jpeg`, `.png`, `.webp` |
| Categorize.ImageFilesDistinct | backend/categorize_images.py:11-13 | listed entries keep the folder's distinct names |
| Categorize.ListRootImagesSpec | backend/categorize_images.py:9-13 | the yielded paths are exactly `dir / name` for the image files of the folder |
| Categorize.DestinationSpec | backend/categorize_images.py:22-25 | the destination lies in `parent / cls` and keeps the file's name, also once rendered as a string |
| Categorize.Categorizer.EnsureClassFolder | backend/categorize_images.py:16-19 | returns `images_dir / cls` and records that folder as created |
| Categorize.Categorizer.MoveImageToClass | backend/categorize_images.py:22-30 | the destination is `parent / cls / name` in either mode; the class folder is created in either mode; the file is moved only when not a dry run |
| Categorize.Categorizer.ProcessImages | backend/categorize_images.py:41-51 | `total` is the number of images; `moved` is that number, or 0 in a dry run. Each image is moved to its class folder. Unless a dry run, a non-None label map gains `str(dst) -> cls` per image. Nothing else in the engine changes |
| Categorize.Categorizer.SaveLabels | backend/categorize_images.py:53-59 | unless a dry run, a non-None label map is written to `metadata/image_labels.json` beside the folder, after its folder is created; otherwise nothing |
| Categorize.Categorizer.Categorize | backend/categorize_images.py:33-61 | a missing folder fails before anything happens; an engine init failure propagates; otherwise the whole effect is the counters, folders, moves, labels and saved file above |
| Categorize.RelabelKeys | backend/categorize_images.py:49-51 | relabelling adds exactly the destination keys |
| Categorize.RelabelKeepsOthers | backend/categorize_images.py:49-51 | the label of a key no image is moved to is unchanged |
| Categorize.RelabelLabelsEach | backend/categorize_images.py:49-51 | with distinct destinations, every moved image's new path is labelled with its predicted type |
| Categorize.LabelKeysDistinct | backend/categorize_images.py:43-51 | images of one folder with distinct, separator-free names have distinct destinations |
| Categorize.RelabelTypes | backend/categorize_images.py:45-51 | with a classifier answering TYPES members, a label map of TYPES members stays one |
| Auth.EmailNameSpec | frontend/src/context/AuthContext.tsx:37 | the login name has no '@'; it is the whole email when there is no '@', and otherwise the email is name + "@" + rest |
| Auth.AuthProvider.constructor | frontend/src/context/AuthContext.tsx:22-23 | on mount there is no user, whatever storage holds |
| Auth.AuthProvider.RestoreSession | frontend/src/context/AuthContext.tsx:25-31 | a saved session becomes the user, otherwise the user is unchanged; from a fresh mount, user and storage agree afterwards |
| Auth.AuthProvider.Login | frontend/src/context/AuthContext.tsx:33-47 | the user is the mock login user for the email: name before the first '@', the email kept, points 150, level 2, 8 searches, 3 contributions, joined 2024-01-15. The password plays no part, and storage mirrors the user |
| Auth.AuthProvider.Register | frontend/src/context/AuthContext.tsx:49-63 | the user keeps the given name and email, with points 50, level 1, 5 searches, 0 contributions, and joined on the date part of the clock. The password plays no part, and storage mirrors the user |
| Auth.AuthProvider.Logout | frontend/src/context/AuthContext.tsx:65-68 | no user and no stored session afterwards |
| Auth.AuthProvider.UpdateUserPoints | frontend/src/context/AuthContext.tsx:70-76 | without a user nothing changes; with one, only the points change, by the given amount, and the updated user is stored |

## Left out

- CLIP loading, image preprocessing, embedding and cosine similarity (backend/search_engine.py:35, 64-89): a foreign model with float arithmetic. Its output is represented by integer scores, and the model's own numerics — NaN among them — are not modelled.
- FAISS index construction and k-nearest-neighbour search (backend/search_engine.py:55-60, 103): an opaque library. Its ranking is an input, and its distances `D` are not used by the code.
- SearchEngine.Engine.SearchImage: requires `k >= 1`, a ranking of `10*k` entries and each entry either a corpus offset or -1. That is FAISS's output contract (for `k <= 0`, FAISS itself refuses the request).
- SearchEngine.Engine.SearchImage: returns the padding-skipping filter (`TopK`), the corrected behaviour of the finding below, and not the comprehension as written. The two agree on rankings without padding (SearchEngine.TopKAsWrittenUnpadded). On a padded ranking the code as written is SearchEngine.TopKAsWritten, which this method does not return.
- SearchEngine.TopKDistinct: requires that FAISS reports each stored vector at most once, and that the listing has no repeated names.
- References.GenerateReferences: requires distinct image paths in the label list. A JSON object loaded by `json.load` into a dict always has them. A labels file that is valid JSON but neither an object nor `null` (a list, a number) is not modelled.
- Categorize.RelabelLabelsEach: requires distinct destinations. With a repeated destination the later image's label wins (Categorize.LabelKeysDistinct shows a single folder's listing never repeats one).
- JSON parsing and serialisation. A labels file is a string-to-string object or `null`, for the engine and for reference generation alike. The metadata file is the record sequence in insertion order, without the `indent`/`ensure_ascii` formatting. The stored session is the `User` value itself, not its JSON text.
- Console output (`print`, `console`), argument parsing and the `main` functions.
- The OpenMP environment setting and thread count (backend/search_engine.py:11-13), and the device choice (line 15): no effect on the logic.
- Concurrency of callers sharing the module globals.
- Paths are POSIX relative paths joined with '/'. There is no normalisation, no absolute paths and no Windows separators.
- Lower-, upper- and capitalised case mapping covers ASCII letters only; the other Unicode case rules are not modelled.
- `iterdir` order is the order of the given entries. The listing is a snapshot taken before any move, so files moved into sub-folders are not listed again.
- The failure modes of `shutil.move` (an existing destination file, a move across devices) and of `mkdir`. Unreadable image files are not modelled.
- A labels file holding values other than strings, or an object whose paths name no image. The model keeps whatever the object holds.
- React's rendering, effect scheduling, and the stale state a closure may see. JavaScript numbers are modelled as unbounded integers.
- The frontend pages and components, `app.py`, `api/main.py`, the DeepFashion converter and the demo and test scripts.
- backend/rebuild_class_indexes.py: it only prints attributes that search_engine.py never defines, so it has no logic to model.
- The label file `categorize` saves is `metadata/image_labels.json`, beside the images folder. That is not the `image_labels.json` that `initialize` and `generate_references` read. The model records the write at the path the code uses.

## Findings

| source | as written | input that shows it | evidently intended | confidence | as-written member | corrected member |
|---|---|---|---|---|---|---|
| backend/search_engine.py:103-106 | FAISS pads a short result row with -1; `image_paths[-1]` takes that as the last image, which passes the type filter whenever the last image has the query type | one reference image labelled robe, a robe query, k = 2: FAISS returns `[0, -1 × 19]` and the search returns that image twice | padding entries are skipped, so each image is returned at most once | not executed | SearchEngine.PaddingRepeatsLastImage | SearchEngine.TopKDistinct |
