/** backend/generate_references.py: one pass over the label file's entries, in file
    order, counting images per category and giving each image a metadata record
    whose reference is the upper-cased category and the category's running count,
    zero-filled to four digits. */
module References {
  import opened Wrappers
  import opened Text
  import Paths
  import SearchEngine

  /** One entry of image_metadata.json. */
  datatype Record = Record(ref: string, name: string, category: string, brand: string, price: Option<int>)

  /** The label file's entries, (image path, category), in the file's order. */
  type Labels = seq<(string, string)>

  ghost predicate DistinctKeys(labels: Labels)
  {
    forall i, j :: 0 <= i < j < |labels| ==> labels[i].0 != labels[j].0
  }

  /** How many entries have category `c`. */
  function CountOf(labels: Labels, c: string): nat
  {
    if labels == [] then 0
    else CountOf(labels[..|labels| - 1], c) + (if labels[|labels| - 1].1 == c then 1 else 0)
  }

  /** `str(n).zfill(4)` */
  function RefNumber(n: nat): string
  {
    ZFill(NatToString(n), 4)
  }

  /** `f"{category.upper()}-{ref_num}"` */
  function RefFor(category: string, n: nat): string
  {
    Upper(category) + "-" + RefNumber(n)
  }

  /** The record of the image at `path`, the n-th image of its category
      (lines 31-44 of the script). */
  function RecordFor(path: string, category: string, n: nat): Record
  {
    Record(RefFor(category, n), Capitalize(category) + " " + Paths.Stem(Paths.Name(path)), category, "Unknown", None)
  }

  /** The i-th entry of the metadata: the i-th image with its record, numbered by
      the count of its category among entries 0..i. */
  function Entry(labels: Labels, i: nat): (string, Record)
    requires i < |labels|
  {
    (labels[i].0, RecordFor(labels[i].0, labels[i].1, CountOf(labels[..i + 1], labels[i].1)))
  }

  /** The metadata generated for `labels`: the same keys in the same order. */
  function Metadata(labels: Labels): seq<(string, Record)>
  {
    seq(|labels|, i requires 0 <= i < |labels| => Entry(labels, i))
  }

  /** `counts` is the per-category counter of `labels`: it holds exactly the
      categories that occur, each with its number of entries. */
  ghost predicate Counted(counts: map<string, nat>, labels: Labels)
  {
    forall c :: (c in counts <==> CountOf(labels, c) > 0) && (c in counts ==> counts[c] == CountOf(labels, c))
  }

  /** One step of the counter loop: bumping the counter of entry i's category
      gives the counter of entries 0..i, and the bumped value is that category's
      count among them. */
  lemma CountedStep(counts: map<string, nat>, labels: Labels, i: nat)
    requires i < |labels| && Counted(counts, labels[..i])
    ensures var c := labels[i].1;
            var n := (if c in counts then counts[c] else 0) + 1;
            Counted(counts[c := n], labels[..i + 1]) && n == CountOf(labels[..i + 1], c)
  {
    CountStep(labels, i);
  }

  /** image_labels.json as `json.load` reads it: `null`, or an object whose
      entries are (image path, category) pairs. */
  datatype LabelsFile = Null | Entries(entries: Labels)

  /** `labels.items()` on the `None` that a `null` file loads as raises, before
      anything is written. */
  datatype Error = NullLabels

  /** `generate_references()`.  `labelsFile` is image_labels.json (None when it is
      missing); `written` is what is written to image_metadata.json (None when
      nothing is written), and `counts` is the per-category counter. */
  method GenerateReferences(labelsFile: Option<LabelsFile>)
    returns (res: Outcome<Error>, written: Option<seq<(string, Record)>>, counts: map<string, nat>)
    requires labelsFile.Some? && labelsFile.value.Entries? ==> DistinctKeys(labelsFile.value.entries)
    ensures labelsFile.None? ==> res.Pass? && written.None? && counts == map[]
    ensures labelsFile == Some(Null) ==> res == Fail(NullLabels) && written.None? && counts == map[]
    ensures labelsFile.Some? && labelsFile.value.Entries? ==>
              var labels := labelsFile.value.entries;
              && res.Pass?
              && written == Some(Metadata(labels))
              && (forall c :: (c in counts <==> CountOf(labels, c) > 0))
              && (forall c :: c in counts ==> counts[c] == CountOf(labels, c))
  {
    if labelsFile.None? {
      return Pass, None, map[];
    }
    if labelsFile.value.Null? {
      return Fail(NullLabels), None, map[];
    }
    var labels := labelsFile.value.entries;
    var metadata: seq<(string, Record)> := [];
    counts := map[];
    var i := 0;
    while i < |labels|
      invariant 0 <= i <= |labels|
      invariant |metadata| == i && forall j :: 0 <= j < i ==> metadata[j] == Entry(labels, j)
      invariant Counted(counts, labels[..i])
    {
      var (imgPath, category) := labels[i];
      ghost var before := counts;
      if category !in counts {
        counts := counts[category := 0];
      }
      counts := counts[category := counts[category] + 1];
      assert Counted(counts, labels[..i + 1]) && counts[category] == CountOf(labels[..i + 1], category) by {
        CountedStep(before, labels, i);
        assert counts == before[category := (if category in before then before[category] else 0) + 1];
      }
      metadata := metadata + [(imgPath, RecordFor(imgPath, category, counts[category]))];
      i := i + 1;
    }
    assert labels[..i] == labels;
    assert metadata == Metadata(labels);
    return Pass, Some(metadata), counts;
  }

  /** The metadata keys are the label keys, in the same order and without repeats. */
  lemma MetadataKeys(labels: Labels)
    requires DistinctKeys(labels)
    ensures |Metadata(labels)| == |labels|
    ensures forall i :: 0 <= i < |labels| ==> Metadata(labels)[i].0 == labels[i].0
    ensures forall i, j :: 0 <= i < j < |labels| ==> Metadata(labels)[i].0 != Metadata(labels)[j].0
  {
  }

  /** Each record carries its label as category, "Unknown" as brand and no price,
      and is named by the capitalised category and the file stem of its path. */
  lemma MetadataRecord(labels: Labels, i: nat)
    requires i < |labels|
    ensures var r := Metadata(labels)[i].1;
      && r.category == labels[i].1 && r.brand == "Unknown" && r.price.None?
      && r.name == Capitalize(labels[i].1) + " " + Paths.Stem(Paths.Name(labels[i].0))
  {
  }

  /** Two worked references: the first robe and the twelfth t-shirt. */
  lemma RefExamples()
    ensures RefFor("robe", 1) == "ROBE-0001"
    ensures RefFor("t-shirt", 12) == "T-SHIRT-0012"
  {
  }

  /** `str(n).zfill(4)` is a string of at least four digits whose value is n, and
      exactly four digits below 10000. */
  lemma RefNumberFormat(n: nat)
    ensures AllDigits(RefNumber(n)) && |RefNumber(n)| >= 4
    ensures DecimalValue(RefNumber(n)) == n
    ensures n < 10000 ==> |RefNumber(n)| == 4
  {
    ZFillDigits(NatToString(n), 4);
    if n < 10000 {
      NatToStringShort(n);
    }
  }

  lemma {:induction false} NatToStringShort(n: nat)
    requires n < 10000
    ensures |NatToString(n)| <= 4
  {
    if n >= 10 {
      NatToStringShort(n / 10);
      assert |NatToString(n / 10)| <= 3 by {
        if n / 10 >= 10 {
          NatToStringShort(n / 100);
          assert NatToString(n / 10) == NatToString(n / 10 / 10) + [DigitChar(n / 10 % 10)];
          if n / 100 >= 10 {
            assert NatToString(n / 100) == NatToString(n / 100 / 10) + [DigitChar(n / 100 % 10)];
          }
        }
      }
    }
  }

  /** In `u + "-" + z` with `z` all digits, no '-' follows the one after `u`. */
  lemma NoDashAfter(u: string, z: string)
    requires AllDigits(z)
    ensures var r := u + "-" + z; r[|u|] == '-' && forall j :: |u| < j < |r| ==> r[j] != '-'
  {
  }

  /** A reference determines its upper-cased category and its number: the part
      after the last '-' is all digits. */
  lemma RefInjective(c1: string, n1: nat, c2: string, n2: nat)
    requires RefFor(c1, n1) == RefFor(c2, n2)
    ensures Upper(c1) == Upper(c2) && n1 == n2
  {
    var u1, u2 := Upper(c1), Upper(c2);
    var z1, z2 := RefNumber(n1), RefNumber(n2);
    var r := RefFor(c1, n1);
    RefNumberFormat(n1);
    RefNumberFormat(n2);
    assert r == u1 + "-" + z1 == u2 + "-" + z2;
    NoDashAfter(u1, z1);
    NoDashAfter(u2, z2);
    assert |u1| == |u2|;
    assert u1 == r[..|u1|] == u2;
    assert z1 == r[|u1| + 1..] == z2;
  }

  lemma {:induction false} CountPrefixMonotone(labels: Labels, c: string, a: nat, b: nat)
    requires a <= b <= |labels|
    ensures CountOf(labels[..a], c) <= CountOf(labels[..b], c)
  {
    if a < b {
      CountPrefixMonotone(labels, c, a, b - 1);
      assert labels[..b][..b - 1] == labels[..b - 1];
    }
  }

  lemma CountStep(labels: Labels, k: nat)
    requires k < |labels|
    ensures forall c :: CountOf(labels[..k + 1], c) == CountOf(labels[..k], c) + (if labels[k].1 == c then 1 else 0)
  {
    assert labels[..k + 1][..k] == labels[..k];
  }

  /** Along the entries of one category the reference numbers run 1, 2, 3, ...:
      each is at least 1, a later entry has a larger number than an earlier one,
      and none exceeds the category's total. */
  lemma RefNumbersIncrease(labels: Labels, i: nat, j: nat)
    requires i < j < |labels| && labels[i].1 == labels[j].1
    ensures 1 <= CountOf(labels[..i + 1], labels[i].1) < CountOf(labels[..j + 1], labels[j].1)
    ensures CountOf(labels[..j + 1], labels[j].1) <= CountOf(labels, labels[j].1)
  {
    var c := labels[i].1;
    CountStep(labels, i);
    CountStep(labels, j);
    CountPrefixMonotone(labels, c, i + 1, j);
    CountPrefixMonotone(labels, c, j + 1, |labels|);
    assert labels[..|labels|] == labels;
  }

  /** Different upper-cased categories or different numbers give different references. */
  lemma RefDistinct(c1: string, n1: nat, c2: string, n2: nat)
    requires Upper(c1) != Upper(c2) || n1 != n2
    ensures RefFor(c1, n1) != RefFor(c2, n2)
  {
    if RefFor(c1, n1) == RefFor(c2, n2) {
      RefInjective(c1, n1, c2, n2);
    }
  }

  /** References are unique across the whole metadata whenever distinct categories
      stay distinct once upper-cased (as the garment types do). */
  lemma RefsUnique(labels: Labels)
    requires forall i, j :: 0 <= i < |labels| && 0 <= j < |labels| && Upper(labels[i].1) == Upper(labels[j].1) ==> labels[i].1 == labels[j].1
    ensures forall i, j :: 0 <= i < j < |labels| ==> Metadata(labels)[i].1.ref != Metadata(labels)[j].1.ref
  {
    forall i, j | 0 <= i < j < |labels|
      ensures Metadata(labels)[i].1.ref != Metadata(labels)[j].1.ref
    {
      var ni := CountOf(labels[..i + 1], labels[i].1);
      var nj := CountOf(labels[..j + 1], labels[j].1);
      if labels[i].1 == labels[j].1 {
        RefNumbersIncrease(labels, i, j);
      }
      RefDistinct(labels[i].1, ni, labels[j].1, nj);
    }
  }

  /** Upper-casing keeps the seven garment types apart: no two of them share a
      length and a first letter. */
  lemma TypesUpperDistinct()
    ensures forall a, b :: a in SearchEngine.TYPES && b in SearchEngine.TYPES && Upper(a) == Upper(b) ==> a == b
  {
    forall a, b | a in SearchEngine.TYPES && b in SearchEngine.TYPES && Upper(a) == Upper(b)
      ensures a == b
    {
      assert |a| == |Upper(a)| && |b| == |Upper(b)|;
      assert UpperChar(a[0]) == Upper(a)[0] == Upper(b)[0] == UpperChar(b[0]);
    }
  }

  /** Over a label file written by the engine or the categoriser, whose categories
      are all garment types, every reference is unique. */
  lemma RefsUniqueForTypes(labels: Labels)
    requires forall i :: 0 <= i < |labels| ==> labels[i].1 in SearchEngine.TYPES
    ensures forall i, j :: 0 <= i < j < |labels| ==> Metadata(labels)[i].1.ref != Metadata(labels)[j].1.ref
  {
    TypesUpperDistinct();
    RefsUnique(labels);
  }
}
