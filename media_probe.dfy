/**
  `getVideoAspectRatio`: the external probe's stream list, reduced to the
  aspect class that names the object key's directory. Running `ffprobe` and
  decoding its JSON are not modelled; their outcome is a `ProbeOutput`.
 */
module MediaProbe {

  /** The three directories an uploaded video can be filed under. */
  datatype AspectClass = Landscape | Portrait | Other

  /** The key prefix `getVideoAspectRatio` returns for each class. */
  function ClassName(c: AspectClass): (name: string)
    ensures '/' !in name
  {
    match c
    case Landscape => "landscape"
    case Portrait => "portrait"
    case Other => "other"
  }

  /** Distinct classes have names of distinct lengths, so a name determines its class. */
  lemma ClassNameInjective(c: AspectClass, d: AspectClass)
    requires |ClassName(c)| == |ClassName(d)|
    ensures c == d
  {
  }

  /** The arguments `ffprobe` runs with: errors only, every stream's metadata as JSON. */
  function ProbeArguments(path: string): (args: seq<string>)
    ensures args != [] && args[|args| - 1] == path
    ensures "-show_streams" in args[..|args| - 1] && "json" in args[..|args| - 1]
  {
    var args := ["-v", "error", "-print_format", "json", "-show_streams", path];
    assert args[..5][3] == "json" && args[..5][4] == "-show_streams";
    args
  }

  /** One element of the probe's `streams` array; a stream without `display_aspect_ratio` decodes with `""`. */
  datatype Stream = Stream(displayAspectRatio: string)

  /** What running the probe and decoding its output may produce. */
  datatype ProbeOutput =
    | ToolFailed                      // ffprobe exited with an error
    | Unparseable                     // its standard output is not valid JSON
    | Decoded(streams: seq<Stream>)   // the decoded `streams` array, possibly empty

  datatype ProbeResult =
    | Class(aspect: AspectClass)
    | ProbeError       // the probe's error is returned to the caller
    | IndexOutOfRange  // `Streams[0]` on an empty list: a run-time panic

  /** The switch on the first stream's ratio string. */
  function Classify(ratio: string): (c: AspectClass)
    ensures c == Landscape <==> ratio == "16:9"
    ensures c == Portrait <==> ratio == "9:16"
  {
    if ratio == "16:9" then Landscape
    else if ratio == "9:16" then Portrait
    else Other
  }

  function GetVideoAspectRatio(probe: ProbeOutput): (r: ProbeResult)
    ensures r.ProbeError? <==> probe.ToolFailed? || probe.Unparseable?
    ensures r.IndexOutOfRange? <==> probe.Decoded? && probe.streams == []
    ensures r.Class? ==> r.aspect == Classify(probe.streams[0].displayAspectRatio)
  {
    match probe
    case ToolFailed => ProbeError
    case Unparseable => ProbeError
    case Decoded(streams) =>
      if streams == [] then IndexOutOfRange
      else Class(Classify(streams[0].displayAspectRatio))
  }

  /** Only the first stream is consulted: the streams after it never change the result. */
  lemma OnlyFirstStreamCounts(first: Stream, rest: seq<Stream>)
    ensures GetVideoAspectRatio(Decoded([first] + rest)) == GetVideoAspectRatio(Decoded([first]))
  {
  }

  /** A missing or empty ratio string is filed under `other`. */
  lemma EmptyRatioIsOther()
    ensures Classify("") == Other
  {
  }
}
