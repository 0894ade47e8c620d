/** The option strings the test programs pass to the method under test:
    `init_options` and `ground_truth_option`.

    An option string is a sequence of words separated by spaces; each flag is
    followed by its value. The lemmas here state which words a string holds.
 */
module CommandLine {
  import opened Wrappers
  import opened Datasets
  import opened Decimal
  import opened Words
  import opened Paths

  const TrainingConflictMessage := "Training data cannot be both saved and loaded."

  /** The file, in the output directory, that training data is saved to or loaded from. */
  function TrainingDataPath(dataset: string, dataSuffix: string): string
  {
    OutputRoot + dataset + "_" + dataSuffix + ".data"
  }

  /** The file, in the output directory, that the method's configuration is saved to. */
  function ConfigPath(dataset: string, configSuffix: string): string
  {
    OutputRoot + dataset + "_" + configSuffix + ".ini"
  }

  /** The arguments an `init_options` string carries, each flag followed by its value. */
  function InitArguments(dataset: string, configSuffix: string, dataSuffix: string,
                         saveTrain: bool, loadTrain: bool, threads: nat): seq<string>
  {
    ["--threads", NatToString(threads), "--save", ConfigPath(dataset, configSuffix)]
      + (if saveTrain then ["--save-train", TrainingDataPath(dataset, dataSuffix)] else [])
      + (if loadTrain then ["--load-train", TrainingDataPath(dataset, dataSuffix)] else [])
  }

  /** `init_options`, with the default arguments of `init_options`. It fails on an unknown
      dataset first, then when training data is to be both saved and loaded. */
  function InitOptions(dataset: string, configSuffix: string, dataSuffix: string := "",
                       saveTrain: bool := false, loadTrain: bool := false, threads: SizeT := 8): (r: Result<string>)
    ensures r.Failure? <==> dataset !in KnownDatasets || (saveTrain && loadTrain)
    ensures dataset !in KnownDatasets ==> r == Failure(UnknownDataset(dataset))
    ensures dataset in KnownDatasets && saveTrain && loadTrain ==> r == Failure(Error(TrainingConflictMessage))
  {
    var check := CheckDataset(dataset);
    :- check;
    var head := "--threads " + (NatToString(threads) + " --save ../output/") + (dataset + "_" + configSuffix + ".ini");
    var withSave :-
      if saveTrain then
        if loadTrain then Failure(Error(TrainingConflictMessage))
        else Success(head + (" --save-train ../output/" + dataset + "_" + dataSuffix + ".data"))
      else Success(head);
    var withLoad :=
      if loadTrain then withSave + (" --load-train ../output/" + dataset + "_" + dataSuffix + ".data")
      else withSave;
    Success(withLoad)
  }

  /** The configuration file `init_options` saves to starts with the dataset's `config_prefix`. */
  lemma ConfigPathExtendsConfigPrefix(dataset: string, configSuffix: string)
    requires dataset in KnownDatasets
    ensures ConfigPath(dataset, configSuffix) == ConfigPrefix(dataset).value + configSuffix + ".ini"
  {
  }

  lemma ThreadsLiteral()
    ensures "--threads " == "--threads" + " "
  {
  }

  lemma SaveLiteral()
    ensures " --save ../output/" == " " + "--save" + " " + OutputRoot
  {
  }

  lemma SaveTrainLiteral()
    ensures " --save-train ../output/" == " " + "--save-train" + " " + OutputRoot
  {
  }

  lemma LoadTrainLiteral()
    ensures " --load-train ../output/" == " " + "--load-train" + " " + OutputRoot
  {
  }

  lemma JoinFour(a: string, b: string, c: string, d: string)
    ensures Join([a, b, c, d]) == a + " " + (b + " " + (c + " " + d))
  {
    assert [a, b, c, d][1..] == [b, c, d] && [b, c, d][1..] == [c, d] && [c, d][1..] == [d];
    assert Join([c, d]) == c + " " + d;
    assert Join([b, c, d]) == b + " " + Join([c, d]);
  }

  lemma RegroupHead(t: string, sp: string, n: string, v: string, r: string, tail: string)
    ensures (t + sp) + (n + (((sp + v) + sp) + r)) + tail == t + sp + (n + sp + (v + sp + (r + tail)))
  {
  }

  lemma RegroupSegment(h: string, sp: string, f: string, r: string, tail: string)
    ensures h + ((((sp + f) + sp) + r) + tail) == h + sp + (f + sp + (r + tail))
  {
  }

  /** The words before the optional training flags, joined, are the fixed head of `init_options`. */
  lemma InitHeadJoinsArguments(dataset: string, configSuffix: string, threads: nat)
    ensures "--threads " + (NatToString(threads) + " --save ../output/") + (dataset + "_" + configSuffix + ".ini")
         == Join(["--threads", NatToString(threads), "--save", ConfigPath(dataset, configSuffix)])
  {
    var tail := dataset + "_" + configSuffix + ".ini";
    assert ConfigPath(dataset, configSuffix) == OutputRoot + tail;
    ThreadsLiteral();
    SaveLiteral();
    RegroupHead("--threads", " ", NatToString(threads), "--save", OutputRoot, tail);
    JoinFour("--threads", NatToString(threads), "--save", ConfigPath(dataset, configSuffix));
  }

  /** An optional training segment of `init_options` adds its flag and the data file as two more words. */
  lemma TrainingSegmentJoinsArguments(head: string, literal: string, flag: string, dataset: string, dataSuffix: string)
    requires literal == " " + flag + " " + OutputRoot
    ensures head + (literal + dataset + "_" + dataSuffix + ".data")
         == head + " " + Join([flag, TrainingDataPath(dataset, dataSuffix)])
  {

  }

  /** A successful `init_options` string is exactly its arguments joined by spaces. */
  lemma InitOptionsJoinsArguments(dataset: string, configSuffix: string, dataSuffix: string,
                                  saveTrain: bool, loadTrain: bool, threads: SizeT)
    requires InitOptions(dataset, configSuffix, dataSuffix, saveTrain, loadTrain, threads).Success?
    ensures InitOptions(dataset, configSuffix, dataSuffix, saveTrain, loadTrain, threads).value
         == Join(InitArguments(dataset, configSuffix, dataSuffix, saveTrain, loadTrain, threads))
  {
    var n := NatToString(threads);
    var base := ["--threads", n, "--save", ConfigPath(dataset, configSuffix)];
    var head := "--threads " + (n + " --save ../output/") + (dataset + "_" + configSuffix + ".ini");
    InitHeadJoinsArguments(dataset, configSuffix, threads);
    var data := TrainingDataPath(dataset, dataSuffix);
    if saveTrain {
      SaveTrainLiteral();
      TrainingSegmentJoinsArguments(head, " --save-train ../output/", "--save-train", dataset, dataSuffix);
      JoinAppend(base, ["--save-train", data]);
      assert base + ["--save-train", data] + [] == base + ["--save-train", data];
    } else if loadTrain {
      LoadTrainLiteral();
      TrainingSegmentJoinsArguments(head, " --load-train ../output/", "--load-train", dataset, dataSuffix);
      JoinAppend(base, ["--load-train", data]);
      assert base + [] + ["--load-train", data] == base + ["--load-train", data];
    } else {
      assert base + [] + [] == base;
    }
  }

  /** The flags are words of their own, and none of them is a value `init_options` writes. */
  lemma FlagsAreWords(n: string, config: string, data: string)
    requires IsCanonical(n) && |config| > 0 && config[0] == '.' && |data| > 0 && data[0] == '.'
    ensures ' ' !in "--threads" && ' ' !in "--save" && ' ' !in "--save-train" && ' ' !in "--load-train"
    ensures "--save-train" !in {"--threads", n, "--save", config, "--load-train", data}
    ensures "--load-train" !in {"--threads", n, "--save", config, "--save-train", data}
  {

  }

  /** With a known dataset and spaceless suffixes, no argument contains a space. */
  lemma InitArgumentsAreWords(dataset: string, configSuffix: string, dataSuffix: string,
                              saveTrain: bool, loadTrain: bool, threads: nat)
    requires dataset in KnownDatasets
    requires ' ' !in configSuffix && ' ' !in dataSuffix
    ensures forall w :: w in InitArguments(dataset, configSuffix, dataSuffix, saveTrain, loadTrain, threads) ==> ' ' !in w
  {
    var n := NatToString(threads);
    var config := ConfigPath(dataset, configSuffix);
    var data := TrainingDataPath(dataset, dataSuffix);
    DatasetNamesArePlain(dataset);
    assert ' ' !in n by {
      assert forall i :: 0 <= i < |n| ==> IsDigit(n[i]);
    }
    assert ' ' !in config && ' ' !in data;
    FlagsAreWords(n, config, data);
  }

  /** The arguments hold the save flag exactly when training data is saved, and
      the load flag exactly when it is loaded. */
  lemma TrainingFlagsInArguments(dataset: string, configSuffix: string, dataSuffix: string,
                                 saveTrain: bool, loadTrain: bool, threads: nat)
    ensures "--save-train" in InitArguments(dataset, configSuffix, dataSuffix, saveTrain, loadTrain, threads) <==> saveTrain
    ensures "--load-train" in InitArguments(dataset, configSuffix, dataSuffix, saveTrain, loadTrain, threads) <==> loadTrain
  {

  }

  /** When neither suffix contains a space, the words of a successful
      `init_options` string are its arguments: it asks to save training data
      exactly when `saveTrain` holds, and to load it exactly when `loadTrain` holds. */
  lemma InitOptionsWords(dataset: string, configSuffix: string, dataSuffix: string,
                         saveTrain: bool, loadTrain: bool, threads: SizeT)
    requires InitOptions(dataset, configSuffix, dataSuffix, saveTrain, loadTrain, threads).Success?
    requires ' ' !in configSuffix && ' ' !in dataSuffix
    ensures Split(InitOptions(dataset, configSuffix, dataSuffix, saveTrain, loadTrain, threads).value)
         == InitArguments(dataset, configSuffix, dataSuffix, saveTrain, loadTrain, threads)
    ensures "--save-train" in Split(InitOptions(dataset, configSuffix, dataSuffix, saveTrain, loadTrain, threads).value) <==> saveTrain
    ensures "--load-train" in Split(InitOptions(dataset, configSuffix, dataSuffix, saveTrain, loadTrain, threads).value) <==> loadTrain
  {
    InitArgumentsAreWords(dataset, configSuffix, dataSuffix, saveTrain, loadTrain, threads);
    InitOptionsJoinsArguments(dataset, configSuffix, dataSuffix, saveTrain, loadTrain, threads);
    SplitJoin(InitArguments(dataset, configSuffix, dataSuffix, saveTrain, loadTrain, threads));
    TrainingFlagsInArguments(dataset, configSuffix, dataSuffix, saveTrain, loadTrain, threads);
  }

  /** `ground_truth_option`: the IPFP ground-truth flag for every known dataset
      (`util.hpp` keeps a Letter-specific EXACT branch commented out). */
  function GroundTruthOption(dataset: string): (r: Result<string>)
    ensures r.Success? <==> dataset in KnownDatasets
    ensures r.Failure? ==> r.error == UnknownDataset(dataset)
  {
    var check := CheckDataset(dataset);
    :- check;
    Success(" --ground-truth-method IPFP")
  }

  lemma GroundTruthLiteral()
    ensures " --ground-truth-method IPFP" == " " + ("--ground-truth-method" + " " + "IPFP")
  {
  }

  lemma GroundTruthWords()
    ensures Join(["--ground-truth-method", "IPFP"]) == "--ground-truth-method" + " " + "IPFP"
    ensures ' ' !in "--ground-truth-method" && ' ' !in "IPFP"
  {

  }

  /** Appending the ground-truth option to an option string adds exactly the
      flag and its value to the string's words. */
  lemma GroundTruthOptionAppendsWords(options: string, dataset: string)
    requires GroundTruthOption(dataset).Success?
    ensures Split(options + GroundTruthOption(dataset).value) == Split(options) + ["--ground-truth-method", "IPFP"]
  {
    var words := ["--ground-truth-method", "IPFP"];
    GroundTruthLiteral();
    GroundTruthWords();
    assert options + GroundTruthOption(dataset).value == options + " " + Join(words);
    SplitAtSpace(options, Join(words));
    SplitJoin(words);
  }
}
