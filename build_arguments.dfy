/**
 * The command-line build arguments of the C# port (src/CLI/BuildArguments.cs)
 * and the kaniko flags they pass straight through.
 */
module BuildArguments {
  import opened Wrappers
  import opened KanikoFlags

  datatype BuildArguments = BuildArguments(
    destinationTags: seq<string>,
    relativeDockerfilePath: Option<string>,
    buildArgVariables: seq<string>,
    metadataLabels: seq<string>,
    target: Option<string>,
    platform: Option<string>,
    quiet: bool,
    iidFile: Option<string>,
    contextLocation: string)

  /** The constructor: only the context location is given, every list starts empty. */
  function NewBuildArguments(contextLocation: string): (b: BuildArguments)
    ensures b.contextLocation == contextLocation
    ensures b.destinationTags == b.buildArgVariables == b.metadataLabels == []
    ensures b.relativeDockerfilePath == b.target == b.platform == b.iidFile == None && !b.quiet
  {
    BuildArguments([], None, [], [], None, None, false, None, contextLocation)
  }

  /** A flag followed by its value as a separate argument, when the value is set. */
  function OptionPair(flag: string, value: Option<string>): (r: seq<string>)
    ensures |r| == if value.Some? then 2 else 0
  {
    if value.Some? then [flag, value.value] else []
  }

  /** How many arguments the target and platform options take up in front. */
  function HeaderLength(b: BuildArguments): nat
  {
    (if b.target.Some? then 2 else 0) + (if b.platform.Some? then 2 else 0)
  }

  /**
   * SerialiseKanikoPassthroughArgs: `--target T`, then `--customPlatform P`,
   * then the `--label=` flags and the `--build-arg` pairs, each group in its
   * input order.
   */
  function SerialiseKanikoPassthroughArgs(b: BuildArguments): (r: seq<string>)
    ensures |r| == HeaderLength(b) + |b.metadataLabels| + 2 * |b.buildArgVariables|
    ensures b.target.Some? ==> r[0] == "--target" && r[1] == b.target.value
    ensures b.platform.Some? ==>
      var p := if b.target.Some? then 2 else 0;
      r[p] == "--customPlatform" && r[p + 1] == b.platform.value
    ensures r[HeaderLength(b)..HeaderLength(b) + |b.metadataLabels|] == FlagEach("label", b.metadataLabels)
    ensures r[HeaderLength(b) + |b.metadataLabels|..] == BuildArgPairs(b.buildArgVariables)
  {
    var header := OptionPair("--target", b.target) + OptionPair("--customPlatform", b.platform);
    var labels := FlagEach("label", b.metadataLabels);
    var buildArgs := BuildArgPairs(b.buildArgVariables);
    assert |header| == HeaderLength(b);
    assert (header + labels + buildArgs)[|header|..|header| + |labels|] == labels;
    assert (header + labels + buildArgs)[|header| + |labels|..] == buildArgs;
    header + labels + buildArgs
  }

  /** One `--label=` flag per label right after the header, in order. */
  lemma LabelsLayout(b: BuildArguments)
    ensures var r, h := SerialiseKanikoPassthroughArgs(b), HeaderLength(b);
      forall i :: 0 <= i < |b.metadataLabels| ==> r[h + i] == Flag("label", b.metadataLabels[i])
  {
    FlagEachAt(SerialiseKanikoPassthroughArgs(b), HeaderLength(b), "label", b.metadataLabels);
  }

  /** One `--build-arg` pair per build argument after the labels, in order. */
  lemma BuildArgsLayout(b: BuildArguments)
    ensures var r, h := SerialiseKanikoPassthroughArgs(b), HeaderLength(b) + |b.metadataLabels|;
      forall i :: 0 <= i < |b.buildArgVariables| ==> r[h + 2 * i] == "--build-arg" && r[h + 2 * i + 1] == b.buildArgVariables[i]
  {
    BuildArgPairsAt(SerialiseKanikoPassthroughArgs(b), HeaderLength(b) + |b.metadataLabels|, b.buildArgVariables);
  }
}
