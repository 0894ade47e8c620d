# Dataset configuration helpers of the GEDLIB PR 2018 benchmarks

The benchmark programs under `tests/pr2018` choose, for each dataset name, where
its graphs live, which collection files to load, how node and edge labels are
read, which attributes to ignore, which edit cost model to use, how to
initialise the environment, and which command-line options to pass to the
method under test. All of it lives in `namespace util` of
`tests/pr2018/src/util.hpp` as pure functions over dataset names. This project
models each of those functions in Dafny and proves how they relate:

- all of them agree on one domain of thirteen dataset names, including
  `graph_dir` and `edit_costs`, which repeat the name tests instead of calling
  `check_dataset`;
- each fails outside that domain with the error naming the dataset;
- `init_type` is the one lookup that never fails;
- the option strings decompose into the flags and values a command-line
  reader sees.

Modules:

- `Wrappers` (`wrappers.dfy`): `ged::Error` as a value. `Outcome` is the result of
  the `void` check, and `Result<T>` the result of every helper that may throw.
- `Decimal` (`decimal.dfy`): `std::to_string` for a `std::size_t`, as the
  canonical decimal numeral, with its inverse.
- `Words` (`words.dfy`): option strings as words separated by single spaces
  (`Join`, `Split`), proved inverse to each other.
- `Datasets` (`datasets.dfy`): the chemical and Letter families,
  `check_dataset` and `setup_datasets`.
- `Paths` (`paths.dfy`): `graph_dir`, `train_collection`, `test_collection`,
  `config_prefix`.
- `CommandLine` (`command_line.dfy`): `init_options`, `ground_truth_option`.
- `GedOptions` (`ged_options.dfy`): `edit_costs`, `node_type`, `edge_type`,
  `irrelevant_node_attributes`, `irrelevant_edge_attributes`, `init_type`, and
  the enums they return.

The known names are `KnownDatasets`, the union of three listed families:
- six chemical datasets: AIDS, Mutagenicity, acyclic, alkane, mao, pah;
- three Letter datasets: Letter_HIGH, Letter_LOW, Letter_MED;
- four others: CMU-GED, Fingerprint, GREC, Protein.

Each helper's contract is stated against this reference set, not against the
name tests in its own body.

## Model

| member | source | states |
|---|---|---|
| Decimal.NatToString | tests/pr2018/src/util.hpp:80 | `std::to_string(threads)` is a canonical numeral: non-empty, all digits, and starting with '0' only for the value 0 |
| Decimal.DecimalValueOfNatToString | tests/pr2018/src/util.hpp:80 | reading the printed thread count back in base ten gives the thread count |
| Decimal.NatToStringOfDecimalValue | tests/pr2018/src/util.hpp:80 | every canonical numeral is the printout of the value it denotes, so printing is a bijection onto canonical numerals |
| Decimal.NatToStringInjective | tests/pr2018/src/util.hpp:80 | different thread counts give different `--threads` values |
| Datasets.UnknownDataset | tests/pr2018/src/util.hpp:24 | the "does not exists" error message contains the rejected name, which can be read back from it |
| Datasets.IsChemicalDataset | tests/pr2018/src/util.hpp:14-16 | every chemical dataset passes `check_dataset` and none is a Letter dataset |
| Datasets.IsLetterDataset | tests/pr2018/src/util.hpp:18-20 | every Letter dataset is named `Letter_` followed by its distortion level |
| Datasets.CheckDataset | tests/pr2018/src/util.hpp:22-26 | passes exactly on the thirteen known names; on every other string it fails with the error naming the string |
| Datasets.DatasetFamiliesDisjoint | tests/pr2018/src/util.hpp:14-26 | no dataset is both chemical and Letter, and neither family overlaps CMU-GED, Fingerprint, GREC, Protein |
| Datasets.KnownDatasetCount | tests/pr2018/src/util.hpp:14-26 | six chemical, three Letter and four other names: thirteen accepted names in all |
| Datasets.DatasetNamesArePlain | tests/pr2018/src/util.hpp:14-26 | known names are non-empty and contain no '/' and no space, so each is one path component and one option word |
| Datasets.SetupDatasets | tests/pr2018/src/util.hpp:183-185 | six distinct names, each passing `check_dataset`, among them Protein, GREC and Fingerprint |
| Paths.GraphDir | tests/pr2018/src/util.hpp:28-52 | accepts exactly the names `check_dataset` accepts, although it repeats the tests itself, and fails on the rest with the same error |
| Paths.GraphDirShape | tests/pr2018/src/util.hpp:28-47 | every graph directory lies under `../../../data/datasets/` and ends in '/'; `Letter_X` maps to `Letter/X/`; AIDS, Fingerprint, GREC, Protein and Mutagenicity map to `<name>/data/`, CMU-GED to `CMU-GED/CMU/`, and acyclic, alkane, mao, pah to `<name>/` |
| Paths.GraphDirRoundTrip | tests/pr2018/src/util.hpp:28-47 | the dataset can be read back from its graph directory |
| Paths.GraphDirInjective | tests/pr2018/src/util.hpp:28-47 | no two datasets share a graph directory |
| Paths.TrainCollection | tests/pr2018/src/util.hpp:54-61 | fails exactly on unknown names; otherwise `../collections/` + stem + `_50.xml`, where the stem is `Letter` for the three Letter datasets and the name itself for the rest |
| Paths.TestCollection | tests/pr2018/src/util.hpp:63-70 | fails exactly on unknown names; otherwise `../../../data/collections/` + the same stem + `.xml` |
| Paths.SharedCollections | tests/pr2018/src/util.hpp:54-70 | two datasets share a train collection iff they share a test collection iff they are equal or both Letter datasets |
| Paths.ConfigPrefix | tests/pr2018/src/util.hpp:72-75 | fails exactly on unknown names; otherwise an output-directory path ending in '_', from which the dataset can be read back |
| CommandLine.InitOptions | tests/pr2018/src/util.hpp:77-92 | fails on an unknown dataset first, whatever the flags; for a known dataset fails exactly when training data is to be both saved and loaded |
| CommandLine.InitOptionsJoinsArguments | tests/pr2018/src/util.hpp:79-91 | a successful options string is its argument list joined by single spaces: `--threads` with the thread count, `--save` with the configuration file, then `--save-train` and `--load-train` with the data file when requested |
| CommandLine.InitOptionsWords | tests/pr2018/src/util.hpp:77-92 | when the suffixes contain no space, splitting the options string at spaces gives the argument list back; `--save-train` is one of its words iff training data is saved, and `--load-train` iff it is loaded |
| CommandLine.ConfigPathExtendsConfigPrefix | tests/pr2018/src/util.hpp:72-81 | the file `--save` names is the dataset's `config_prefix` followed by the configuration suffix and `.ini` |
| CommandLine.GroundTruthOption | tests/pr2018/src/util.hpp:94-100 | fails exactly on unknown names, with the unknown-dataset error |
| CommandLine.GroundTruthOptionAppendsWords | tests/pr2018/src/util.hpp:94-100 | appending the ground-truth option to any options string adds exactly the words `--ground-truth-method` and `IPFP`, for every known dataset, Letter ones included |
| GedOptions.EditCostsOf | tests/pr2018/src/util.hpp:102-125 | defined exactly on the known names, although it repeats the tests itself; chemical names give CHEM_2, Letter names give LETTER, CMU-GED gives CMU, Fingerprint FINGERPRINT, GREC GREC_2 and Protein PROTEIN; the result is never CONSTANT |
| GedOptions.EditCostsFamilies | tests/pr2018/src/util.hpp:102-120 | two datasets share a cost model iff they are equal, both chemical or both Letter |
| GedOptions.NodeType | tests/pr2018/src/util.hpp:127-133 | fails exactly on unknown names; node labels are UNLABELED iff the dataset is Fingerprint or CMU-GED |
| GedOptions.EdgeType | tests/pr2018/src/util.hpp:135-141 | fails exactly on unknown names; edge labels are UNLABELED iff the dataset is a Letter dataset |
| GedOptions.NeverBothUnlabeled | tests/pr2018/src/util.hpp:127-141 | no dataset has both node and edge labels unlabeled |
| GedOptions.IrrelevantNodeAttributes | tests/pr2018/src/util.hpp:143-153 | fails exactly on unknown names; the set is non-empty iff the dataset is AIDS ({x, y, symbol}) or Protein ({aaLength}) |
| GedOptions.IrrelevantEdgeAttributes | tests/pr2018/src/util.hpp:155-168 | fails exactly on unknown names; the set is non-empty iff the dataset is GREC ({angle0, angle1}), Protein ({distance0, distance1}) or Fingerprint ({angle}) |
| GedOptions.IrrelevantAttributesDisjoint | tests/pr2018/src/util.hpp:143-168 | no attribute is ignored both on the nodes and on the edges of one dataset |
| GedOptions.InitTypeOf | tests/pr2018/src/util.hpp:170-175 | total, with no dataset check; EAGER_WITHOUT_SHUFFLED_COPIES iff chemical or Protein, LAZY_WITHOUT_SHUFFLED_COPIES for every other string; eager only ever for known names |
| GedOptions.SetupDatasetsAreLoadable | tests/pr2018/src/util.hpp:177-185 | for every dataset in `setup_datasets`, every lookup `setup_environment` makes succeeds |

## Left out

- `setup_environment` (util.hpp:177-181) loads GXL files and initialises a
  `GEDEnv`. That is file I/O and environment set-up. Only the lookups it makes
  are modelled (`SetupDatasetsAreLoadable`).
- `src/methods/branch_uniform.hpp` declares `BranchUniform` but gives no bodies.
  The LSAPE-based framework, the branch substitution/deletion/insertion costs,
  the sorted incident-label cache, counting sort and the option parser are
  therefore not part of this model.
- The enums of `ged::Options` are declared in a header that is not part of this
  model. Only the constructors util.hpp names are modelled.
- `std::to_string` is modelled as the decimal numeral of the value, which is
  what it prints for an unsigned integer. `threads` ranges over `std::size_t`,
  modelled as values below 2^64.
- The consumer of the option strings is not part of this model. `Words.Split`
  stands for reading them as words separated by single spaces.
- CommandLine.InitOptionsWords: the two training flags are characterised by
  the space-separated words of the string, and only when the two suffixes
  contain no space. A substring form of this property is false: the suffixes
  are arbitrary strings, so a configuration suffix may itself contain the text
  ` --save-train`. Without that assumption, `InitOptionsJoinsArguments` still
  gives the exact argument list.
- Datasets.SetupDatasets: `setup_datasets` assigns the list to the caller's
  vector, replacing whatever it held. The model returns the list as its result
  instead. Because the assignment discards the old contents, the two agree.
- The evaluation order of `setup_environment`'s arguments is unspecified in C++.
  Every lookup it makes is pure, so the order does not matter.
