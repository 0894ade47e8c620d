/** The thirteen benchmark datasets the test programs recognise, the two
    families among them, and the validation that rejects every other name.
 */
module Datasets {
  import opened Wrappers

  /** The chemical datasets (molecule graphs). */
  const ChemicalDatasets: set<string> := {"AIDS", "Mutagenicity", "acyclic", "alkane", "mao", "pah"}

  /** The three distortion levels of the Letter dataset. */
  const LetterDatasets: set<string> := {"Letter_HIGH", "Letter_LOW", "Letter_MED"}

  /** The datasets that belong to neither family. */
  const OtherDatasets: set<string> := {"CMU-GED", "Fingerprint", "GREC", "Protein"}

  /** Every name the helpers accept. */
  const KnownDatasets: set<string> := ChemicalDatasets + LetterDatasets + OtherDatasets

  const UnknownPrefix := "Dataset \""
  const UnknownSuffix := "\" does not exists."

  /** The error thrown for a name outside `KnownDatasets`; the name can be read back from its message. */
  function UnknownDataset(dataset: string): (e: Error)
    ensures |e.message| == |UnknownPrefix| + |dataset| + |UnknownSuffix|
    ensures e.message[|UnknownPrefix|..|UnknownPrefix| + |dataset|] == dataset
  {
    Error(UnknownPrefix + dataset + UnknownSuffix)
  }

  /** `is_chemical_dataset`: every chemical dataset is known and none is a
      Letter dataset. */
  function IsChemicalDataset(dataset: string): (b: bool)
    ensures b ==> dataset in KnownDatasets && dataset !in LetterDatasets
  {
    dataset in ChemicalDatasets
  }

  /** `is_letter_dataset`: every Letter dataset is named `Letter_` and its level. */
  function IsLetterDataset(dataset: string): (b: bool)
    ensures b ==> |dataset| > 7 && dataset[..7] == "Letter_"
  {
    dataset in LetterDatasets
  }

  /** `check_dataset`: passes exactly on the known names and otherwise fails
      with the error naming the dataset. */
  function CheckDataset(dataset: string): (r: Outcome)
    ensures r.Pass? <==> dataset in KnownDatasets
    ensures r.Fail? ==> r.error == UnknownDataset(dataset)
  {
    if !(IsChemicalDataset(dataset) || IsLetterDataset(dataset) || dataset in OtherDatasets)
    then Fail(UnknownDataset(dataset))
    else Pass
  }

  /** The three families are pairwise disjoint. */
  lemma DatasetFamiliesDisjoint()
    ensures ChemicalDatasets !! LetterDatasets
    ensures ChemicalDatasets !! OtherDatasets && LetterDatasets !! OtherDatasets
  {
  }

  /** Six chemical, three Letter and four other datasets: thirteen names in all. */
  lemma KnownDatasetCount()
    ensures |ChemicalDatasets| == 6 && |LetterDatasets| == 3 && |OtherDatasets| == 4
    ensures |KnownDatasets| == 13
  {
    DatasetFamiliesDisjoint();
    assert |ChemicalDatasets + LetterDatasets| == 9;
  }

  /** Known names are non-empty and contain neither a path separator nor a space,
      so they can stand as one path component and as one word of an option string. */
  lemma DatasetNamesArePlain(dataset: string)
    requires dataset in KnownDatasets
    ensures |dataset| > 0 && '/' !in dataset && ' ' !in dataset
  {

  }

  /** `setup_datasets`: the datasets the benchmark runs over, in order. */
  function SetupDatasets(): (datasets: seq<string>)
    ensures |datasets| == 6
    ensures forall i :: 0 <= i < |datasets| ==> datasets[i] in KnownDatasets
    ensures forall i, j :: 0 <= i < j < |datasets| ==> datasets[i] != datasets[j]
    ensures "Protein" in datasets && "GREC" in datasets && "Fingerprint" in datasets
  {
    ["Letter_HIGH", "pah", "AIDS", "Protein", "GREC", "Fingerprint"]
  }
}
