/** The loading and cost settings chosen per dataset: the edit cost model, how
    node and edge labels are read, which attributes are ignored, and how the
    environment is initialised.
 */
module GedOptions {
  import opened Wrappers
  import opened Datasets
  import opened Paths

  /** The constructors of `ged::Options::EditCosts` that the helpers name. */
  datatype EditCosts = Chem2 | Letter | Cmu | Fingerprint | Grec2 | Protein | Constant

  /** `ged::Options::GXLNodeEdgeType`. */
  datatype NodeEdgeType = Labeled | Unlabeled

  /** The constructors of `ged::Options::InitType` that the helpers name. */
  datatype InitType = EagerWithoutShuffledCopies | LazyWithoutShuffledCopies

  /** `edit_costs`. Like `graph_dir` it repeats the name tests instead of calling
      `check_dataset`, and accepts the same names. Its final `CONSTANT` return
      follows a branch that always throws, so it is never reached. */
  function EditCostsOf(dataset: string): (r: Result<EditCosts>)
    ensures r.Success? <==> dataset in KnownDatasets
    ensures r.Failure? ==> r.error == UnknownDataset(dataset)
    ensures r.Success? ==> r.value != Constant
    ensures IsChemicalDataset(dataset) ==> r == Success(Chem2)
    ensures IsLetterDataset(dataset) ==> r == Success(Letter)
    ensures dataset == "CMU-GED" ==> r == Success(Cmu)
    ensures dataset == "Fingerprint" ==> r == Success(Fingerprint)
    ensures dataset == "GREC" ==> r == Success(Grec2)
    ensures dataset == "Protein" ==> r == Success(Protein)
  {
    if IsChemicalDataset(dataset) then Success(Chem2)
    else if IsLetterDataset(dataset) then Success(Letter)
    else if dataset == "CMU-GED" then Success(Cmu)
    else if dataset == "Fingerprint" then Success(Fingerprint)
    else if dataset == "GREC" then Success(Grec2)
    else if dataset == "Protein" then Success(Protein)
    else Failure(UnknownDataset(dataset))
  }

  /** Two known datasets share a cost model exactly when both are chemical, both
      are Letter datasets, or they are the same dataset. */
  lemma EditCostsFamilies(d1: string, d2: string)
    requires d1 in KnownDatasets && d2 in KnownDatasets
    ensures EditCostsOf(d1) == EditCostsOf(d2) <==>
      d1 == d2 || (IsChemicalDataset(d1) && IsChemicalDataset(d2)) || (IsLetterDataset(d1) && IsLetterDataset(d2))
  {

  }

  /** `node_type`: node labels are ignored exactly for Fingerprint and CMU-GED. */
  function NodeType(dataset: string): (r: Result<NodeEdgeType>)
    ensures r.Success? <==> dataset in KnownDatasets
    ensures r.Failure? ==> r.error == UnknownDataset(dataset)
    ensures r.Success? ==> (r.value == Unlabeled <==> dataset in {"Fingerprint", "CMU-GED"})
  {
    var check := CheckDataset(dataset);
    :- check;
    if dataset in {"Fingerprint", "CMU-GED"} then Success(Unlabeled) else Success(Labeled)
  }

  /** `edge_type`: edge labels are ignored exactly for the Letter datasets. */
  function EdgeType(dataset: string): (r: Result<NodeEdgeType>)
    ensures r.Success? <==> dataset in KnownDatasets
    ensures r.Failure? ==> r.error == UnknownDataset(dataset)
    ensures r.Success? ==> (r.value == Unlabeled <==> IsLetterDataset(dataset))
  {
    var check := CheckDataset(dataset);
    :- check;
    if IsLetterDataset(dataset) then Success(Unlabeled) else Success(Labeled)
  }

  /** No known dataset has both its node and its edge labels ignored. */
  lemma NeverBothUnlabeled(dataset: string)
    requires dataset in KnownDatasets
    ensures NodeType(dataset).value == Labeled || EdgeType(dataset).value == Labeled
  {
  }

  /** `irrelevant_node_attributes`: only AIDS and Protein ignore node attributes. */
  function IrrelevantNodeAttributes(dataset: string): (r: Result<set<string>>)
    ensures r.Success? <==> dataset in KnownDatasets
    ensures r.Failure? ==> r.error == UnknownDataset(dataset)
    ensures r.Success? && r.value != {} <==> dataset in {"AIDS", "Protein"}
    ensures dataset == "AIDS" ==> r == Success({"x", "y", "symbol"})
    ensures dataset == "Protein" ==> r == Success({"aaLength"})
  {
    var check := CheckDataset(dataset);
    :- check;
    if dataset == "AIDS" then Success({"x", "y", "symbol"})
    else if dataset == "Protein" then Success({"aaLength"})
    else Success({})
  }

  /** `irrelevant_edge_attributes`: only GREC, Protein and Fingerprint ignore edge attributes. */
  function IrrelevantEdgeAttributes(dataset: string): (r: Result<set<string>>)
    ensures r.Success? <==> dataset in KnownDatasets
    ensures r.Failure? ==> r.error == UnknownDataset(dataset)
    ensures r.Success? && r.value != {} <==> dataset in {"GREC", "Protein", "Fingerprint"}
    ensures dataset == "GREC" ==> r == Success({"angle0", "angle1"})
    ensures dataset == "Protein" ==> r == Success({"distance0", "distance1"})
    ensures dataset == "Fingerprint" ==> r == Success({"angle"})
  {
    var check := CheckDataset(dataset);
    :- check;
    if dataset == "GREC" then Success({"angle0", "angle1"})
    else if dataset == "Protein" then Success({"distance0", "distance1"})
    else if dataset == "Fingerprint" then Success({"angle"})
    else Success({})
  }

  /** No attribute is ignored both on nodes and on edges of the same dataset. */
  lemma IrrelevantAttributesDisjoint(dataset: string)
    requires dataset in KnownDatasets
    ensures IrrelevantNodeAttributes(dataset).value !! IrrelevantEdgeAttributes(dataset).value
  {
  }

  /** `init_type`: it never checks the name. Chemical datasets and Protein are
      initialised eagerly, every other string, known or not, lazily. */
  function InitTypeOf(dataset: string): (r: InitType)
    ensures r == EagerWithoutShuffledCopies <==> IsChemicalDataset(dataset) || dataset == "Protein"
    ensures r == EagerWithoutShuffledCopies ==> dataset in KnownDatasets
  {
    if IsChemicalDataset(dataset) || dataset == "Protein" then EagerWithoutShuffledCopies
    else LazyWithoutShuffledCopies
  }

  /** Every dataset `setup_datasets` lists passes every lookup that sets up its
      environment, for the train and for the test collection. */
  lemma SetupDatasetsAreLoadable(dataset: string)
    requires dataset in SetupDatasets()
    ensures GraphDir(dataset).Success?
    ensures TrainCollection(dataset).Success? && TestCollection(dataset).Success?
    ensures NodeType(dataset).Success? && EdgeType(dataset).Success?
    ensures IrrelevantNodeAttributes(dataset).Success? && IrrelevantEdgeAttributes(dataset).Success?
    ensures EditCostsOf(dataset).Success?
  {
  }
}
