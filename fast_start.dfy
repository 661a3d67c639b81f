/**
  `processVideoForFastStart`: the remuxed copy of a staged file is written
  next to it, under the staged file's path with `.processing` appended.
  Running `ffmpeg` is not modelled; whether it succeeded is an input.
 */
module FastStart {
  import opened Wrappers

  const Suffix: string := ".processing"

  function OutputPath(input: string): string {
    input + Suffix
  }

  /** The path a remux output was derived from, if `output` has the remux suffix. */
  function InputPath(output: string): (r: Option<string>)
    ensures r.Some? ==> OutputPath(r.value) == output
  {
    if |output| >= |Suffix| && output[|output| - |Suffix|..] == Suffix
    then Some(output[..|output| - |Suffix|])
    else None
  }

  /** The output path always leads back to the staged file it was made from. */
  lemma OutputPathInverse(input: string)
    ensures InputPath(OutputPath(input)) == Some(input)
  {
    var out := OutputPath(input);
    assert out[|out| - |Suffix|..] == Suffix;
    assert out[..|out| - |Suffix|] == input;
  }

  /** The remux output never overwrites the staged file, and distinct inputs give distinct outputs. */
  lemma OutputPathFresh(input: string, other: string)
    ensures OutputPath(input) != input
    ensures OutputPath(input) == OutputPath(other) ==> input == other
  {
    assert |OutputPath(input)| == |input| + 11;
    if OutputPath(input) == OutputPath(other) {
      OutputPathInverse(input);
      OutputPathInverse(other);
    }
  }

  /** The arguments `ffmpeg` runs with: stream copy, the index moved to the front, MP4 out. */
  function RemuxArguments(input: string): (args: seq<string>)
    ensures |args| >= 2 && args[0] == "-i" && args[1] == input
    ensures args[|args| - 1] == OutputPath(input) != input
    ensures "faststart" in args[..|args| - 1]
  {
    OutputPathFresh(input, input);
    var args := ["-i", input, "-c", "copy", "-movflags", "faststart", "-f", "mp4", OutputPath(input)];
    assert args[..8][5] == "faststart";
    args
  }

  /** The derived output path on success, an error (`None`) when the tool fails. */
  function ProcessVideoForFastStart(input: string, toolOk: bool): (r: Option<string>)
    ensures r.Some? <==> toolOk
    ensures r.Some? ==> r.value != input && InputPath(r.value) == Some(input)
  {
    OutputPathFresh(input, input);
    OutputPathInverse(input);
    if toolOk then Some(OutputPath(input)) else None
  }
}
