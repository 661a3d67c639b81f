/**
  `handlerUploadVideo`: the upload endpoint as a linear sequence of checks
  and effects with early returns and deferred clean-ups.

  Every collaborator the handler calls (uuid parsing, the bearer-token and
  JWT helpers, the datastore, the multipart reader, the file system, the two
  external tools, the random source and the storage client) is one call whose
  outcome is fixed in advance by a `Collaborators` value. The pipeline being
  linear, each of them is called at most once, except the copy of the upload
  into the temporary file, which the handler repeats after the storage call.

  `Run` is the specification: which exit a request takes, the calls made up
  to it, the clean-ups deferred by then and the artifacts created. The
  imperative model, `HandleUploadVideo`, runs the steps against a `World`
  (the files on disk, the open handles and the log of calls) and then the
  deferred calls last-in first-out, as Go does on `return` and on a panic;
  it is proved to do what `Run` says.
 */
module UploadPipeline {
  import opened Wrappers
  import opened Base64Url
  import opened MediaProbe
  import Mime
  import FastStart
  import ObjectKey

  type Path = string

  /** A `uuid.UUID`: 16 bytes. */
  type Uuid = s: seq<byte> | |s| == 16 witness [0, 0, 0, 0, 0, 0, 0, 0, 0, 0, 0, 0, 0, 0, 0, 0]

  /** The 32 bytes that `rand.Read` fills in. */
  type RandomBlock = s: seq<byte> | |s| == 32 witness seq(32, i => 0)

  /**
    A video record as the datastore returns it. `rest` stands for every
    other column (title, description, timestamps, thumbnail URL): the handler
    passes them through untouched.
   */
  datatype VideoRecord = VideoRecord(id: Uuid, userId: Uuid, videoUrl: Option<string>, rest: seq<string>)

  /** The parts of `apiConfig` the handler reads. */
  datatype Config = Config(jwtSecret: string, s3Bucket: string, s3CfDistribution: string)

  /** The request as far as the handler reads it itself: the `videoID` path value. */
  datatype Request = Request(videoIdPath: string)

  /** The outcome of every collaborator call, fixed before the run. */
  datatype Collaborators = Collaborators(
    videoId: Option<Uuid>,            // uuid.Parse of the path value
    bearerToken: Option<string>,      // auth.GetBearerToken
    jwtUser: Option<Uuid>,            // auth.ValidateJWT
    storedVideo: Option<VideoRecord>, // db.GetVideo
    partContentType: Option<string>,  // r.FormFile("video"): the part's Content-Type header ("" if absent)
    mediaGrammarOk: bool,             // the grammar check inside mime.ParseMediaType
    tempPath: Option<Path>,           // os.CreateTemp: the new file's name
    copyOk: bool,                     // io.Copy of the part into the temporary file
    probe: ProbeOutput,               // ffprobe and the JSON decoding of its output
    remuxOk: bool,                    // ffmpeg's exit status
    openOk: bool,                     // os.Open of the remuxed file
    randomBytes: RandomBlock,         // rand.Read; its error is ignored by the handler
    putObjectOk: bool,                // s3Client.PutObject; its error is ignored by the handler
    recopyOk: bool,                   // the second io.Copy(dst, file), after the upload
    updateOk: bool                    // db.UpdateVideo
  )

  /** Things the handler holds open and closes in a deferred call. */
  datatype Handle = UploadPart | TempFile(path: Path) | OutputFile(path: Path)

  /** A deferred call. */
  datatype Deferred = CloseHandle(handle: Handle) | RemovePath(path: Path)

  /** One call to a collaborator, with the arguments that matter. */
  datatype Event =
    | ParseUuid(text: string)
    | GetBearerToken
    | ValidateJwt(token: string, secret: string)
    | GetVideo(id: Uuid)
    | FormFile(field: string)
    | ParseMediaType(header: string)
    | CreateTemp(dir: string, pattern: string)
    | CopyUpload(dst: Path)
    | Exec(program: string, args: seq<string>)
    | Open(path: Path)
    | SeekStart(handle: Handle)
    | ReadRandom(count: nat)
    | PutObject(bucket: string, key: string, contentType: string)
    | UpdateVideo(video: VideoRecord)
    | Close(handle: Handle)
    | Remove(path: Path)

  const StatusOK: int := 200
  const StatusBadRequest: int := 400
  const StatusUnauthorized: int := 401
  const StatusInternalServerError: int := 500

  const FormField: string := "video"
  const TempPattern: string := "tubely-upload*.mp4"
  const AcceptedMediaType: string := "video/mp4"
  const RandomLength: nat := 32

  /** What the client receives. A panic writes no response: the server drops the connection. */
  datatype Response =
    | ErrorReply(status: int, message: string)
    | JsonReply(status: int, video: VideoRecord)
    | ConnectionAborted

  /** The point at which a run leaves the handler. */
  datatype Exit =
    | InvalidId
    | MissingJwt
    | InvalidJwt
    | VideoNotFound
    | NotOwner
    | FormFileFailed
    | InvalidContentType
    | WrongFileType
    | TempCreateFailed
    | TempCopyFailed
    | RatioFailed
    | RatioPanicked
    | ConvertFailed
    | OpenFailed
    | RecopyFailed
    | UpdateFailed
    | Updated(video: VideoRecord)
  {
    /**
      Bad input answers 400, a missing, invalid or foreign JWT 401, a failure
      on the server's side 500; only a successful update answers with JSON,
      and only the probe's panic writes nothing.
     */
    function Response(): (r: Response)
      ensures r.JsonReply? <==> this.Updated?
      ensures this.Updated? ==> r == JsonReply(StatusOK, this.video)
      ensures r.ConnectionAborted? <==> this == RatioPanicked
      ensures r.ErrorReply? && r.status == StatusBadRequest <==>
                this in {InvalidId, FormFileFailed, InvalidContentType, WrongFileType}
      ensures r.ErrorReply? && r.status == StatusUnauthorized <==> this in {MissingJwt, InvalidJwt, NotOwner}
      ensures r.ErrorReply? ==> r.status in {StatusBadRequest, StatusUnauthorized, StatusInternalServerError}
    {
      match this
      case InvalidId => ErrorReply(StatusBadRequest, "Invalid ID")
      case MissingJwt => ErrorReply(StatusUnauthorized, "Couldn't find JWT")
      case InvalidJwt => ErrorReply(StatusUnauthorized, "Couldn't validate JWT")
      case VideoNotFound => ErrorReply(StatusInternalServerError, "Couldn't find video")
      case NotOwner => ErrorReply(StatusUnauthorized, "Not authorized to update this video")
      case FormFileFailed => ErrorReply(StatusBadRequest, "Unable to parse form file")
      case InvalidContentType => ErrorReply(StatusBadRequest, "Invalid Content-Type")
      case WrongFileType => ErrorReply(StatusBadRequest, "Invalid file type")
      case TempCreateFailed => ErrorReply(StatusInternalServerError, "Unable to create temp file on server")
      case TempCopyFailed => ErrorReply(StatusInternalServerError, "Error saving temp file")
      case RatioFailed => ErrorReply(StatusInternalServerError, "Could not get ratio")
      case RatioPanicked => ConnectionAborted
      case ConvertFailed => ErrorReply(StatusInternalServerError, "Could convert video")
      case OpenFailed => ErrorReply(StatusInternalServerError, "Could find converted video")
      case RecopyFailed => ErrorReply(StatusInternalServerError, "Could not upload object")
      case UpdateFailed => ErrorReply(StatusInternalServerError, "Couldn't update video")
      case Updated(v) => JsonReply(StatusOK, v)
    }
  }

  /** A response tells which exit the run took: no two exits share a status and message. */
  lemma ResponsesDistinct(e: Exit, f: Exit)
    requires e.Response() == f.Response()
    ensures e == f
  {
  }

  /**
    What a run has done so far: the calls made in order, the deferred entries
    in the order they were deferred, and the files created and handles opened.
   */
  datatype Trace = Trace(
    calls: seq<Event>,
    defers: seq<Deferred>,
    filesCreated: set<Path>,
    handlesOpened: set<Handle>
  ) {
    function Call(e: Event): Trace {
      this.(calls := calls + [e])
    }
    function Defer(d: Deferred): Trace {
      this.(defers := defers + [d])
    }
    function Create(p: Path): Trace {
      this.(filesCreated := filesCreated + {p})
    }
    function Hold(h: Handle): Trace {
      this.(handlesOpened := handlesOpened + {h})
    }
  }

  const Start: Trace := Trace([], [], {}, {})

  /** A run up to the point where the handler returns or panics. */
  datatype Outcome = Outcome(exit: Exit, trace: Trace) {
    function Response(): Response {
      exit.Response()
    }
  }

  /** The specification of the handler body: the path value, the JWT and the ownership check. */
  function Run(cfg: Config, req: Request, c: Collaborators): Outcome {
    var t := Start.Call(ParseUuid(req.videoIdPath));
    if c.videoId.None? then Outcome(InvalidId, t) else
    var t := t.Call(GetBearerToken);
    if c.bearerToken.None? then Outcome(MissingJwt, t) else
    var t := t.Call(ValidateJwt(c.bearerToken.value, cfg.jwtSecret));
    if c.jwtUser.None? then Outcome(InvalidJwt, t) else
    var t := t.Call(GetVideo(c.videoId.value));
    if c.storedVideo.None? then Outcome(VideoNotFound, t) else
    var video := c.storedVideo.value;
    if video.userId != c.jwtUser.value then Outcome(NotOwner, t) else
    Receive(cfg, c, video, t)
  }

  /** The form file and its media type; `Save` goes on with the parsed media type. */
  function Receive(cfg: Config, c: Collaborators, video: VideoRecord, t: Trace): Outcome {
    var t := t.Call(FormFile(FormField));
    if c.partContentType.None? then Outcome(FormFileFailed, t) else
    var header := c.partContentType.value;
    var t := t.Hold(UploadPart).Defer(CloseHandle(UploadPart)).Call(ParseMediaType(header));
    Save(cfg, c, video, Mime.ParseMediaType(header, c.mediaGrammarOk), t)
  }

  /** The media-type check and the copy into a temporary file. */
  function Save(cfg: Config, c: Collaborators, video: VideoRecord, mediaType: Option<string>, t: Trace): Outcome {
    if mediaType.None? then Outcome(InvalidContentType, t) else
    if mediaType.value != AcceptedMediaType then Outcome(WrongFileType, t) else
    var t := t.Call(CreateTemp("", TempPattern));
    if c.tempPath.None? then Outcome(TempCreateFailed, t) else
    var dst := c.tempPath.value;
    var t := t.Create(dst).Defer(RemovePath(dst)).Hold(TempFile(dst)).Defer(CloseHandle(TempFile(dst)));
    var t := t.Call(CopyUpload(dst));
    if !c.copyOk then Outcome(TempCopyFailed, t) else
    Transcode(cfg, c, video, mediaType.value, dst, t)
  }

  /** The aspect-ratio probe, the fast-start remux and the opening of its output. */
  function Transcode(cfg: Config, c: Collaborators, video: VideoRecord, mediaType: string, dst: Path, t: Trace): Outcome {
    var t := t.Call(Exec("ffprobe", ProbeArguments(dst)));
    var ratio := GetVideoAspectRatio(c.probe);
    if ratio.ProbeError? then Outcome(RatioFailed, t) else
    if ratio.IndexOutOfRange? then Outcome(RatioPanicked, t) else
    var t := t.Call(Exec("ffmpeg", FastStart.RemuxArguments(dst)));
    var converted := FastStart.ProcessVideoForFastStart(dst, c.remuxOk);
    if converted.None? then Outcome(ConvertFailed, t) else
    var bodyPath := converted.value;
    var t := t.Create(bodyPath).Defer(RemovePath(bodyPath)).Call(Open(bodyPath));
    if !c.openOk then Outcome(OpenFailed, t) else
    var t := t.Hold(OutputFile(bodyPath)).Defer(CloseHandle(OutputFile(bodyPath)));
    Publish(cfg, c, video, mediaType, dst, ClassName(ratio.aspect), bodyPath, t)
  }

  /** The storage upload, the copy after it, and the record update. */
  function Publish(cfg: Config, c: Collaborators, video: VideoRecord, mediaType: string,
                   dst: Path, prefix: string, bodyPath: Path, t: Trace): Outcome {
    var key := ObjectKey.Key(prefix, c.randomBytes);
    var t := t.Call(SeekStart(OutputFile(bodyPath))).Call(ReadRandom(RandomLength))
              .Call(PutObject(cfg.s3Bucket, key, mediaType)).Call(CopyUpload(dst));
    if !c.recopyOk then Outcome(RecopyFailed, t) else
    var updated := video.(videoUrl := Some(ObjectKey.PublicUrl(cfg.s3CfDistribution, key)));
    var t := t.Call(UpdateVideo(updated));
    if !c.updateOk then Outcome(UpdateFailed, t) else
    Outcome(Updated(updated), t)
  }

  /** The call a deferred entry makes when it runs. */
  function Effect(d: Deferred): Event {
    match d
    case CloseHandle(h) => Close(h)
    case RemovePath(p) => Remove(p)
  }

  /** The calls made when the stack of deferred entries `s` is unwound: the last deferred runs first. */
  function Unwinding(s: seq<Deferred>): seq<Event> {
    if s == [] then [] else Unwinding(s[1..]) + [Effect(s[0])]
  }

  /** The paths a stack of deferred entries removes. */
  function RemovedBy(s: seq<Deferred>): set<Path> {
    if s == [] then {}
    else (if s[0].RemovePath? then {s[0].path} else {}) + RemovedBy(s[1..])
  }

  /** The handles a stack of deferred entries closes. */
  function ClosedBy(s: seq<Deferred>): set<Handle> {
    if s == [] then {}
    else (if s[0].CloseHandle? then {s[0].handle} else {}) + ClosedBy(s[1..])
  }

  /** Unwinding runs the deferred calls in exactly the reverse order of deferral. */
  lemma {:induction false} UnwindingIsLifo(s: seq<Deferred>)
    ensures |Unwinding(s)| == |s|
    ensures forall k :: 0 <= k < |s| ==> Unwinding(s)[k] == Effect(s[|s| - 1 - k])
  {
    if s != [] {
      UnwindingIsLifo(s[1..]);
      forall k | 0 <= k < |s|
        ensures Unwinding(s)[k] == Effect(s[|s| - 1 - k])
      {
        if k < |s| - 1 {
          assert Unwinding(s)[k] == Unwinding(s[1..])[k];
          assert s[1..][|s| - 2 - k] == s[|s| - 1 - k];
        }
      }
    }
  }

  /** The entry deferred last is the one that runs first. */
  lemma {:induction false} UnwindingOfPush(s: seq<Deferred>, d: Deferred)
    ensures Unwinding(s + [d]) == [Effect(d)] + Unwinding(s)
  {
    if s != [] {
      assert (s + [d])[1..] == s[1..] + [d];
      UnwindingOfPush(s[1..], d);
    } else {
      assert [d][1..] == [];
    }
  }

  /** Deferring one more entry adds exactly what that entry removes or closes. */
  lemma {:induction false} CleanupOfPush(s: seq<Deferred>, d: Deferred)
    ensures RemovedBy(s + [d]) == RemovedBy(s) + RemovedBy([d])
    ensures ClosedBy(s + [d]) == ClosedBy(s) + ClosedBy([d])
  {
    if s != [] {
      assert (s + [d])[1..] == s[1..] + [d];
      CleanupOfPush(s[1..], d);
    }
  }

  /** Every file created is removed by a deferred entry, every handle opened is closed by one, and no more. */
  predicate Balanced(t: Trace) {
    RemovedBy(t.defers) == t.filesCreated && ClosedBy(t.defers) == t.handlesOpened
  }

  lemma DeferRemoval(t: Trace, p: Path)
    requires Balanced(t)
    ensures Balanced(t.Create(p).Defer(RemovePath(p)))
  {
    CleanupOfPush(t.defers, RemovePath(p));
  }

  lemma DeferClose(t: Trace, h: Handle)
    requires Balanced(t)
    ensures Balanced(t.Hold(h).Defer(CloseHandle(h)))
  {
    CleanupOfPush(t.defers, CloseHandle(h));
  }

  lemma PublishBalanced(cfg: Config, c: Collaborators, video: VideoRecord, mediaType: string,
                        dst: Path, prefix: string, bodyPath: Path, t: Trace)
    requires Balanced(t)
    ensures Balanced(Publish(cfg, c, video, mediaType, dst, prefix, bodyPath, t).trace)
  {
  }

  lemma TranscodeBalanced(cfg: Config, c: Collaborators, video: VideoRecord, mediaType: string, dst: Path, t: Trace)
    requires Balanced(t)
    ensures Balanced(Transcode(cfg, c, video, mediaType, dst, t).trace)
  {
    var t1 := t.Call(Exec("ffprobe", ProbeArguments(dst))).Call(Exec("ffmpeg", FastStart.RemuxArguments(dst)));
    var bodyPath := FastStart.OutputPath(dst);
    DeferRemoval(t1, bodyPath);
    var t2 := t1.Create(bodyPath).Defer(RemovePath(bodyPath)).Call(Open(bodyPath));
    DeferClose(t2, OutputFile(bodyPath));
    var ratio := GetVideoAspectRatio(c.probe);
    if ratio.Class? && c.remuxOk && c.openOk {
      PublishBalanced(cfg, c, video, mediaType, dst, ClassName(ratio.aspect), bodyPath,
                      t2.Hold(OutputFile(bodyPath)).Defer(CloseHandle(OutputFile(bodyPath))));
    }
  }

  lemma ReceiveBalanced(cfg: Config, c: Collaborators, video: VideoRecord, t: Trace)
    requires Balanced(t)
    ensures Balanced(Receive(cfg, c, video, t).trace)
  {
    var t1 := t.Call(FormFile(FormField));
    DeferClose(t1, UploadPart);
    if c.partContentType.Some? && c.tempPath.Some? {
      var header := c.partContentType.value;
      var dst := c.tempPath.value;
      var t2 := t1.Hold(UploadPart).Defer(CloseHandle(UploadPart)).Call(ParseMediaType(header))
                  .Call(CreateTemp("", TempPattern));
      DeferRemoval(t2, dst);
      var t3 := t2.Create(dst).Defer(RemovePath(dst));
      DeferClose(t3, TempFile(dst));
      var mediaType := Mime.ParseMediaType(header, c.mediaGrammarOk);
      if mediaType.Some? && mediaType.value == AcceptedMediaType && c.copyOk {
        TranscodeBalanced(cfg, c, video, mediaType.value, dst,
                          t3.Hold(TempFile(dst)).Defer(CloseHandle(TempFile(dst))).Call(CopyUpload(dst)));
      }
    }
  }

  /** Every artifact a run creates or opens is scheduled for clean-up, and nothing else is. */
  lemma CleanupMatchesArtifacts(cfg: Config, req: Request, c: Collaborators)
    ensures Balanced(Run(cfg, req, c).trace)
  {
    if c.videoId.Some? && c.bearerToken.Some? && c.jwtUser.Some? && c.storedVideo.Some? {
      var t := Start.Call(ParseUuid(req.videoIdPath)).Call(GetBearerToken)
                 .Call(ValidateJwt(c.bearerToken.value, cfg.jwtSecret)).Call(GetVideo(c.videoId.value));
      ReceiveBalanced(cfg, c, c.storedVideo.value, t);
    }
  }

  /** The state of a `World` at one moment. */
  datatype Snapshot = Snapshot(files: set<Path>, handles: set<Handle>, log: seq<Event>)

  /** The files on disk, the handles open and every call made, as the handler sees them. */
  class World {
    var files: set<Path>
    var handles: set<Handle>
    var log: seq<Event>

    constructor (files: set<Path>)
      ensures this.files == files && handles == {} && log == []
    {
      this.files := files;
      handles := {};
      log := [];
    }

    function State(): Snapshot
      reads this
    {
      Snapshot(files, handles, log)
    }

    /** The world is `base` with exactly what the trace `t` did added to it. */
    predicate Extends(base: Snapshot, t: Trace)
      reads this
    {
      && log == base.log + t.calls
      && files == base.files + t.filesCreated
      && handles == base.handles + t.handlesOpened
    }

    /** Makes the call `e`. */
    method Call(e: Event, ghost base: Snapshot, ghost t: Trace)
      requires Extends(base, t)
      modifies this
      ensures Extends(base, t.Call(e))
    {
      log := log + [e];
    }

    /** A call has created the file `p`. */
    method CreateFile(p: Path, ghost base: Snapshot, ghost t: Trace)
      requires Extends(base, t)
      modifies this
      ensures Extends(base, t.Create(p))
    {
      files := files + {p};
    }

    /** A call has opened the handle `h`. */
    method Hold(h: Handle, ghost base: Snapshot, ghost t: Trace)
      requires Extends(base, t)
      modifies this
      ensures Extends(base, t.Hold(h))
    {
      handles := handles + {h};
    }
  }

  /** Runs the deferred entries, the last one first; errors of `Close` and `os.Remove` are ignored. */
  method Unwind(world: World, stack: seq<Deferred>)
    modifies world
    ensures world.log == old(world.log) + Unwinding(stack)
    ensures world.files == old(world.files) - RemovedBy(stack)
    ensures world.handles == old(world.handles) - ClosedBy(stack)
  {
    var i := |stack|;
    while i > 0
      invariant 0 <= i <= |stack|
      invariant world.log == old(world.log) + Unwinding(stack[i..])
      invariant world.files == old(world.files) - RemovedBy(stack[i..])
      invariant world.handles == old(world.handles) - ClosedBy(stack[i..])
    {
      i := i - 1;
      assert stack[i..][1..] == stack[i + 1..];
      world.log := world.log + [Effect(stack[i])];
      match stack[i]
      case CloseHandle(h) =>
        world.handles := world.handles - {h};
      case RemovePath(p) =>
        world.files := world.files - {p};
    }
  }

  /**
    The body of `handlerUploadVideo` up to its `return` or panic: it makes
    the calls, creates and opens what it creates and opens, and hands back the
    stack of deferred entries for `Unwind`.
   */
  method RunToReturn(cfg: Config, req: Request, c: Collaborators, world: World)
    returns (exit: Exit, deferred: seq<Deferred>)
    modifies world
    ensures var o := Run(cfg, req, c);
      && exit == o.exit && deferred == o.trace.defers
      && world.log == old(world.log) + o.trace.calls
      && world.files == old(world.files) + o.trace.filesCreated
      && world.handles == old(world.handles) + o.trace.handlesOpened
  {
    ghost var base := world.State();
    ghost var t := Start;
    deferred := [];

    world.Call(ParseUuid(req.videoIdPath), base, t);
    t := t.Call(ParseUuid(req.videoIdPath));
    if c.videoId.None? {
      return InvalidId, deferred;
    }
    var videoId := c.videoId.value;

    world.Call(GetBearerToken, base, t);
    t := t.Call(GetBearerToken);
    if c.bearerToken.None? {
      return MissingJwt, deferred;
    }
    var token := c.bearerToken.value;

    world.Call(ValidateJwt(token, cfg.jwtSecret), base, t);
    t := t.Call(ValidateJwt(token, cfg.jwtSecret));
    if c.jwtUser.None? {
      return InvalidJwt, deferred;
    }
    var userId := c.jwtUser.value;

    world.Call(GetVideo(videoId), base, t);
    t := t.Call(GetVideo(videoId));
    if c.storedVideo.None? {
      return VideoNotFound, deferred;
    }
    var video := c.storedVideo.value;
    if video.userId != userId {
      return NotOwner, deferred;
    }

    exit, deferred := ReceiveUpload(cfg, c, video, world, deferred, base, t);
  }

  /** The steps that `Receive` specifies. */
  method ReceiveUpload(cfg: Config, c: Collaborators, video: VideoRecord, world: World,
                       deferred0: seq<Deferred>, ghost base: Snapshot, ghost t0: Trace)
    returns (exit: Exit, deferred: seq<Deferred>)
    requires world.Extends(base, t0) && deferred0 == t0.defers
    modifies world
    ensures var o := Receive(cfg, c, video, t0);
      exit == o.exit && deferred == o.trace.defers && world.Extends(base, o.trace)
  {
    ghost var t := t0;
    deferred := deferred0;

    world.Call(FormFile(FormField), base, t);
    t := t.Call(FormFile(FormField));
    if c.partContentType.None? {
      return FormFileFailed, deferred;
    }
    var header := c.partContentType.value;
    world.Hold(UploadPart, base, t);
    t := t.Hold(UploadPart);
    deferred, t := deferred + [CloseHandle(UploadPart)], t.Defer(CloseHandle(UploadPart));

    world.Call(ParseMediaType(header), base, t);
    t := t.Call(ParseMediaType(header));
    var parsed := Mime.ParseMediaType(header, c.mediaGrammarOk);
    if parsed.None? {
      return InvalidContentType, deferred;
    }
    var mediaType := parsed.value;
    if mediaType != AcceptedMediaType {
      return WrongFileType, deferred;
    }

    world.Call(CreateTemp("", TempPattern), base, t);
    t := t.Call(CreateTemp("", TempPattern));
    if c.tempPath.None? {
      return TempCreateFailed, deferred;
    }
    var dst := c.tempPath.value;
    world.CreateFile(dst, base, t);
    t := t.Create(dst);
    deferred, t := deferred + [RemovePath(dst)], t.Defer(RemovePath(dst));
    world.Hold(TempFile(dst), base, t);
    t := t.Hold(TempFile(dst));
    deferred, t := deferred + [CloseHandle(TempFile(dst))], t.Defer(CloseHandle(TempFile(dst)));

    world.Call(CopyUpload(dst), base, t);
    t := t.Call(CopyUpload(dst));
    if !c.copyOk {
      return TempCopyFailed, deferred;
    }

    exit, deferred := ProbeAndRemux(cfg, c, video, mediaType, dst, world, deferred, base, t);
  }

  /** The steps that `Transcode` specifies. */
  method ProbeAndRemux(cfg: Config, c: Collaborators, video: VideoRecord, mediaType: string, dst: Path,
                       world: World, deferred0: seq<Deferred>, ghost base: Snapshot, ghost t0: Trace)
    returns (exit: Exit, deferred: seq<Deferred>)
    requires world.Extends(base, t0) && deferred0 == t0.defers
    modifies world
    ensures var o := Transcode(cfg, c, video, mediaType, dst, t0);
      exit == o.exit && deferred == o.trace.defers && world.Extends(base, o.trace)
  {
    ghost var t := t0;
    deferred := deferred0;

    world.Call(Exec("ffprobe", ProbeArguments(dst)), base, t);
    t := t.Call(Exec("ffprobe", ProbeArguments(dst)));
    var ratio := GetVideoAspectRatio(c.probe);
    if ratio.ProbeError? {
      return RatioFailed, deferred;
    }
    if ratio.IndexOutOfRange? {
      return RatioPanicked, deferred;
    }
    var prefix := ClassName(ratio.aspect);

    world.Call(Exec("ffmpeg", FastStart.RemuxArguments(dst)), base, t);
    t := t.Call(Exec("ffmpeg", FastStart.RemuxArguments(dst)));
    var converted := FastStart.ProcessVideoForFastStart(dst, c.remuxOk);
    if converted.None? {
      return ConvertFailed, deferred;
    }
    var bodyPath := converted.value;
    world.CreateFile(bodyPath, base, t);
    t := t.Create(bodyPath);
    deferred, t := deferred + [RemovePath(bodyPath)], t.Defer(RemovePath(bodyPath));

    world.Call(Open(bodyPath), base, t);
    t := t.Call(Open(bodyPath));
    if !c.openOk {
      return OpenFailed, deferred;
    }
    world.Hold(OutputFile(bodyPath), base, t);
    t := t.Hold(OutputFile(bodyPath));
    deferred, t := deferred + [CloseHandle(OutputFile(bodyPath))], t.Defer(CloseHandle(OutputFile(bodyPath)));

    exit := UploadObject(cfg, c, video, mediaType, dst, prefix, bodyPath, world, base, t);
  }

  /** The steps that `Publish` specifies; they defer nothing. */
  method UploadObject(cfg: Config, c: Collaborators, video: VideoRecord, mediaType: string,
                      dst: Path, prefix: string, bodyPath: Path,
                      world: World, ghost base: Snapshot, ghost t0: Trace)
    returns (exit: Exit)
    requires world.Extends(base, t0)
    modifies world
    ensures var o := Publish(cfg, c, video, mediaType, dst, prefix, bodyPath, t0);
      exit == o.exit && o.trace.defers == t0.defers && world.Extends(base, o.trace)
  {
    ghost var t := t0;
    world.Call(SeekStart(OutputFile(bodyPath)), base, t);
    t := t.Call(SeekStart(OutputFile(bodyPath)));
    world.Call(ReadRandom(RandomLength), base, t);
    t := t.Call(ReadRandom(RandomLength));
    var key := ObjectKey.Key(prefix, c.randomBytes);
    world.Call(PutObject(cfg.s3Bucket, key, mediaType), base, t);
    t := t.Call(PutObject(cfg.s3Bucket, key, mediaType));
    world.Call(CopyUpload(dst), base, t);
    t := t.Call(CopyUpload(dst));
    if !c.recopyOk {
      return RecopyFailed;
    }

    var updated := video.(videoUrl := Some(ObjectKey.PublicUrl(cfg.s3CfDistribution, key)));
    world.Call(UpdateVideo(updated), base, t);
    t := t.Call(UpdateVideo(updated));
    if !c.updateOk {
      return UpdateFailed;
    }
    return Updated(updated);
  }

  /**
    The handler: the body, then the deferred calls. Nothing it created is
    left on disk and nothing it opened is left open; everything else on disk
    is as before.
   */
  method HandleUploadVideo(cfg: Config, req: Request, c: Collaborators, world: World)
    returns (resp: Response)
    modifies world
    ensures var o := Run(cfg, req, c);
      && resp == o.Response()
      && world.log == old(world.log) + o.trace.calls + Unwinding(o.trace.defers)
      && world.files == old(world.files) - o.trace.filesCreated
      && world.handles == old(world.handles) - o.trace.handlesOpened
  {
    var exit, deferred := RunToReturn(cfg, req, c, world);
    Unwind(world, deferred);
    CleanupMatchesArtifacts(cfg, req, c);
    resp := exit.Response();
  }
}
