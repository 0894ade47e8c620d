/** Where the files of a dataset live: its graph directory, its train and test
    collection files and the prefix of its output files. Each helper fails on
    names outside `KnownDatasets`.
 */
module Paths {
  import opened Wrappers
  import opened Datasets

  const DatasetRoot := "../../../data/datasets/"
  const TrainCollectionRoot := "../collections/"
  const TestCollectionRoot := "../../../data/collections/"
  const OutputRoot := "../output/"

  predicate IsPrefix(p: string, s: string) {
    |p| <= |s| && s[..|p|] == p
  }

  /** `graph_dir`. It repeats the name tests instead of calling `check_dataset`,
      yet accepts exactly the same names. */
  function GraphDir(dataset: string): (r: Result<string>)
    ensures r.Success? <==> dataset in KnownDatasets
    ensures r.Failure? ==> r.error == UnknownDataset(dataset)
  {
    var rootDir := DatasetRoot;
    if dataset in {"AIDS", "Fingerprint", "GREC", "Protein", "Mutagenicity"} then
      Success(rootDir + dataset + "/data/")
    else if dataset == "Letter_HIGH" then
      Success(rootDir + "Letter/HIGH/")
    else if dataset == "Letter_LOW" then
      Success(rootDir + "Letter/LOW/")
    else if dataset == "Letter_MED" then
      Success(rootDir + "Letter/MED/")
    else if dataset == "CMU-GED" then
      Success(rootDir + dataset + "/CMU/")
    else if dataset in {"acyclic", "alkane", "mao", "pah"} then
      Success(rootDir + dataset + "/")
    else
      Failure(UnknownDataset(dataset))
  }

  /** Every graph directory is a directory below the datasets root. A Letter
      dataset `Letter_X` lives in `Letter/X/`; every other dataset in a
      directory of its own name: its `data/` subdirectory for AIDS,
      Fingerprint, GREC, Protein and Mutagenicity, its `CMU/` subdirectory for
      CMU-GED, and the directory itself for the other chemical datasets. */
  lemma GraphDirShape(dataset: string)
    requires dataset in KnownDatasets
    ensures IsPrefix(DatasetRoot, GraphDir(dataset).value)
    ensures GraphDir(dataset).value[|GraphDir(dataset).value| - 1] == '/'
    ensures IsLetterDataset(dataset) ==> GraphDir(dataset).value == DatasetRoot + "Letter/" + dataset[7..] + "/"
    ensures !IsLetterDataset(dataset) ==> IsPrefix(DatasetRoot + dataset + "/", GraphDir(dataset).value)
    ensures dataset in {"AIDS", "Fingerprint", "GREC", "Protein", "Mutagenicity"} ==>
      GraphDir(dataset).value == DatasetRoot + dataset + "/" + "data/"
    ensures dataset == "CMU-GED" ==> GraphDir(dataset).value == DatasetRoot + dataset + "/" + "CMU/"
    ensures dataset in {"acyclic", "alkane", "mao", "pah"} ==> GraphDir(dataset).value == DatasetRoot + dataset + "/"
  {
  }

  /** The text of `s` before its first '/', or all of `s` when it has none. */
  function FirstSegment(s: string): (seg: string)
    ensures IsPrefix(seg, s) && '/' !in seg
    ensures |seg| < |s| ==> s[|seg|] == '/'
  {
    if |s| == 0 || s[0] == '/' then "" else [s[0]] + FirstSegment(s[1..])
  }

  lemma {:induction false} FirstSegmentOfPath(a: string, b: string)
    requires '/' !in a
    ensures FirstSegment(a + "/" + b) == a
    decreases |a|
  {
    if |a| > 0 {
      assert (a + "/" + b)[1..] == a[1..] + "/" + b;
      FirstSegmentOfPath(a[1..], b);
      assert a == [a[0]] + a[1..];
    }
  }

  /** Reads the dataset back out of a graph directory. */
  function GraphDirDataset(path: string): string
    requires IsPrefix(DatasetRoot, path)
  {
    var rel := path[|DatasetRoot|..];
    var first := FirstSegment(rel);
    if first == "Letter" && |first| < |rel| then "Letter_" + FirstSegment(rel[|first| + 1..]) else first
  }

  /** A dataset stored in a directory of its own name is read back from that directory. */
  lemma {:induction false} OwnDirRoundTrip(dataset: string, tail: string)
    requires '/' !in dataset && dataset != "Letter"
    ensures GraphDirDataset(DatasetRoot + dataset + "/" + tail) == dataset
  {
    var path := DatasetRoot + dataset + "/" + tail;
    assert path[|DatasetRoot|..] == dataset + "/" + tail;
    FirstSegmentOfPath(dataset, tail);
  }

  /** A Letter level stored under `Letter/` is read back as `Letter_` and the level. */
  lemma {:induction false} LetterDirRoundTrip(level: string)
    requires '/' !in level
    ensures GraphDirDataset(DatasetRoot + "Letter/" + level + "/") == "Letter_" + level
  {
    var rel := (DatasetRoot + "Letter/" + level + "/")[|DatasetRoot|..];
    assert rel == "Letter" + "/" + (level + "/");
    FirstSegmentOfPath("Letter", level + "/");
    assert rel[7..] == level + "/" + "";
    FirstSegmentOfPath(level, "");
  }

  /** The graph directory of a known dataset determines the dataset. */
  lemma GraphDirRoundTrip(dataset: string)
    requires dataset in KnownDatasets
    ensures GraphDirDataset(GraphDir(dataset).value) == dataset
  {
    GraphDirShape(dataset);
    DatasetNamesArePlain(dataset);
    var path := GraphDir(dataset).value;
    if IsLetterDataset(dataset) {
      var level := dataset[7..];
      assert '/' !in level by {
        forall i | 0 <= i < |level| ensures level[i] != '/' {
          assert level[i] == dataset[i + 7];
        }
      }
      LetterDirRoundTrip(level);
      assert dataset == "Letter_" + level;
    } else {
      var tail := path[|DatasetRoot| + |dataset| + 1..];
      assert path == DatasetRoot + dataset + "/" + tail;
      assert dataset != "Letter";
      OwnDirRoundTrip(dataset, tail);
    }
  }

  /** No two known datasets share a graph directory. */
  lemma GraphDirInjective(d1: string, d2: string)
    requires GraphDir(d1).Success? && GraphDir(d1) == GraphDir(d2)
    ensures d1 == d2
  {
    GraphDirRoundTrip(d1);
    GraphDirRoundTrip(d2);
  }

  /** The file name shared by a dataset's train and test collections: the three
      Letter datasets share one collection. */
  function CollectionStem(dataset: string): string
  {
    if IsLetterDataset(dataset) then "Letter" else dataset
  }

  /** `train_collection`. */
  function TrainCollection(dataset: string): (r: Result<string>)
    ensures r.Success? <==> dataset in KnownDatasets
    ensures r.Failure? ==> r.error == UnknownDataset(dataset)
    ensures r.Success? ==> r.value == TrainCollectionRoot + CollectionStem(dataset) + "_50.xml"
  {
    var rootDir := TrainCollectionRoot;
    :- CheckDataset(dataset);
    if IsLetterDataset(dataset) then Success(rootDir + "Letter_50.xml")
    else Success(rootDir + dataset + "_50.xml")
  }

  /** `test_collection`. */
  function TestCollection(dataset: string): (r: Result<string>)
    ensures r.Success? <==> dataset in KnownDatasets
    ensures r.Failure? ==> r.error == UnknownDataset(dataset)
    ensures r.Success? ==> r.value == TestCollectionRoot + CollectionStem(dataset) + ".xml"
  {
    var rootDir := TestCollectionRoot;
    :- CheckDataset(dataset);
    if IsLetterDataset(dataset) then Success(rootDir + "Letter.xml")
    else Success(rootDir + dataset + ".xml")
  }

  /** Two known datasets share a collection exactly when they are both Letter
      datasets or are the same dataset; the train and test collections agree on this. */
  lemma SharedCollections(d1: string, d2: string)
    requires d1 in KnownDatasets && d2 in KnownDatasets
    ensures TrainCollection(d1) == TrainCollection(d2) <==> d1 == d2 || (IsLetterDataset(d1) && IsLetterDataset(d2))
    ensures TestCollection(d1) == TestCollection(d2) <==> d1 == d2 || (IsLetterDataset(d1) && IsLetterDataset(d2))
  {
    StemsCancel(TrainCollectionRoot, CollectionStem(d1), CollectionStem(d2), "_50.xml");
    StemsCancel(TestCollectionRoot, CollectionStem(d1), CollectionStem(d2), ".xml");
  }

  lemma StemsCancel(root: string, x: string, y: string, ext: string)
    ensures root + x + ext == root + y + ext <==> x == y
  {
    if root + x + ext == root + y + ext {
      assert x == (root + x + ext)[|root|..|root| + |x|];
      assert y == (root + y + ext)[|root|..|root| + |y|];
    }
  }

  /** The output prefix `config_prefix` builds, with the dataset read back out of it. */
  function PrefixDataset(prefix: string): string
    requires IsPrefix(OutputRoot, prefix) && |prefix| > |OutputRoot|
  {
    prefix[|OutputRoot|..|prefix| - 1]
  }

  /** `config_prefix`: the output directory and the dataset followed by an
      underscore, from which the dataset can be read back. */
  function ConfigPrefix(dataset: string): (r: Result<string>)
    ensures r.Success? <==> dataset in KnownDatasets
    ensures r.Failure? ==> r.error == UnknownDataset(dataset)
    ensures r.Success? ==> IsPrefix(OutputRoot, r.value) && |r.value| > |OutputRoot|
    ensures r.Success? ==> r.value[|r.value| - 1] == '_' && PrefixDataset(r.value) == dataset
  {
    var check := CheckDataset(dataset);
    :- check;
    Success(OutputRoot + dataset + "_")
  }
}
