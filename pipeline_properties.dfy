/**
  What one request through `handlerUploadVideo` can and cannot do, stated
  about the specification `Run` (and so, through `HandleUploadVideo`'s
  contract, about the handler).

  Each phase of the handler (`Receive`, `Transcode`, `Publish`) has a lemma
  about its own outcome for any trace it is entered with; the lemmas about
  whole runs hand a run over to the phase concerned and use those.
 */
module PipelineProperties {
  import opened Wrappers
  import opened MediaProbe
  import Mime
  import FastStart
  import ObjectKey
  import opened UploadPipeline

  /** The path value parses, the JWT is present and valid, the video exists and belongs to the caller. */
  predicate Authorized(c: Collaborators) {
    && c.videoId.Some? && c.bearerToken.Some? && c.jwtUser.Some? && c.storedVideo.Some?
    && c.storedVideo.value.userId == c.jwtUser.value
  }

  /** The media type the form part's Content-Type header parses to, if there is a part at all. */
  function PartMediaType(c: Collaborators): Option<string> {
    if c.partContentType.None? then None
    else Mime.ParseMediaType(c.partContentType.value, c.mediaGrammarOk)
  }

  /** The upload is saved in a temporary file, so the probe runs on it. */
  predicate ReachesProbe(c: Collaborators) {
    Authorized(c) && PartMediaType(c) == Some(AcceptedMediaType) && c.tempPath.Some? && c.copyOk
  }

  /** The probe classifies the video, the remux succeeds and its output opens: the storage call is made. */
  predicate ReachesUpload(c: Collaborators) {
    ReachesProbe(c) && GetVideoAspectRatio(c.probe).Class? && c.remuxOk && c.openOk
  }

  /** The object key of a run that reaches the storage call. */
  function UploadKey(c: Collaborators): string
    requires ReachesUpload(c)
  {
    ObjectKey.Key(ClassName(GetVideoAspectRatio(c.probe).aspect), c.randomBytes)
  }

  function Last<T>(s: seq<T>): T
    requires s != []
  {
    s[|s| - 1]
  }

  /** `u` is `t` with more done: no call is taken back, no deferral dropped, nothing forgotten. */
  predicate Grows(t: Trace, u: Trace) {
    && t.calls <= u.calls && t.defers <= u.defers
    && t.filesCreated <= u.filesCreated && t.handlesOpened <= u.handlesOpened
  }

  /** The handler's phases, in the order they run. */
  datatype Phase = Lookups | Receiving | Transcoding | Publishing

  /** Which phase an exit belongs to. */
  function PhaseOf(e: Exit): Phase {
    match e
    case InvalidId | MissingJwt | InvalidJwt | VideoNotFound | NotOwner => Lookups
    case FormFileFailed | InvalidContentType | WrongFileType | TempCreateFailed | TempCopyFailed => Receiving
    case RatioFailed | RatioPanicked | ConvertFailed | OpenFailed => Transcoding
    case RecopyFailed | UpdateFailed | Updated(_) => Publishing
  }

  /** The trace after the four lookups. */
  function LookupTrace(cfg: Config, req: Request, c: Collaborators): Trace
    requires c.videoId.Some? && c.bearerToken.Some?
  {
    Start.Call(ParseUuid(req.videoIdPath)).Call(GetBearerToken)
      .Call(ValidateJwt(c.bearerToken.value, cfg.jwtSecret)).Call(GetVideo(c.videoId.value))
  }

  /** The trace once the part with Content-Type `header` is saved in `dst`, from `t` on. */
  function SavedTrace(header: string, dst: Path, t: Trace): Trace {
    t.Call(FormFile(FormField)).Hold(UploadPart).Defer(CloseHandle(UploadPart))
      .Call(ParseMediaType(header)).Call(CreateTemp("", TempPattern))
      .Create(dst).Defer(RemovePath(dst)).Hold(TempFile(dst)).Defer(CloseHandle(TempFile(dst)))
      .Call(CopyUpload(dst))
  }

  /** The trace once the remuxed copy of `dst` is open, from `t` on. */
  function OpenedTrace(dst: Path, t: Trace): Trace {
    var out := FastStart.OutputPath(dst);
    t.Call(Exec("ffprobe", ProbeArguments(dst))).Call(Exec("ffmpeg", FastStart.RemuxArguments(dst)))
      .Create(out).Defer(RemovePath(out)).Call(Open(out))
      .Hold(OutputFile(out)).Defer(CloseHandle(OutputFile(out)))
  }

  /** The deferred entries once the upload is saved in `dst`. */
  function SavedStack(dst: Path): seq<Deferred> {
    [CloseHandle(UploadPart), RemovePath(dst), CloseHandle(TempFile(dst))]
  }

  /** The deferred entries once the remuxed file `out` is open too. */
  function OpenedStack(dst: Path, out: Path): seq<Deferred> {
    SavedStack(dst) + [RemovePath(out), CloseHandle(OutputFile(out))]
  }

  lemma UnwindSaved(dst: Path)
    ensures Unwinding(SavedStack(dst)) == [Close(TempFile(dst)), Remove(dst), Close(UploadPart)]
  {
    UnwindingOfPush([], CloseHandle(UploadPart));
    UnwindingOfPush([CloseHandle(UploadPart)], RemovePath(dst));
    UnwindingOfPush([CloseHandle(UploadPart), RemovePath(dst)], CloseHandle(TempFile(dst)));
  }

  lemma UnwindOpened(dst: Path, out: Path)
    ensures Unwinding(OpenedStack(dst, out))
         == [Close(OutputFile(out)), Remove(out), Close(TempFile(dst)), Remove(dst), Close(UploadPart)]
  {
    UnwindSaved(dst);
    UnwindingOfPush(SavedStack(dst), RemovePath(out));
    assert OpenedStack(dst, out) == SavedStack(dst) + [RemovePath(out)] + [CloseHandle(OutputFile(out))];
    UnwindingOfPush(SavedStack(dst) + [RemovePath(out)], CloseHandle(OutputFile(out)));
  }

  lemma SavedTraceStack(header: string, dst: Path, t: Trace)
    ensures SavedTrace(header, dst, t).defers == t.defers + SavedStack(dst)
  {
  }

  lemma OpenedTraceStack(dst: Path, t: Trace)
    ensures var out := FastStart.OutputPath(dst);
      OpenedTrace(dst, t).defers == t.defers + [RemovePath(out), CloseHandle(OutputFile(out))]
  {
  }

  lemma RunHandsOff(cfg: Config, req: Request, c: Collaborators)
    requires Authorized(c)
    ensures Run(cfg, req, c) == Receive(cfg, c, c.storedVideo.value, LookupTrace(cfg, req, c))
  {
  }

  lemma ReceiveHandsOff(cfg: Config, c: Collaborators, v: VideoRecord, t: Trace)
    requires PartMediaType(c) == Some(AcceptedMediaType) && c.tempPath.Some? && c.copyOk
    ensures Receive(cfg, c, v, t)
         == Transcode(cfg, c, v, AcceptedMediaType, c.tempPath.value,
                      SavedTrace(c.partContentType.value, c.tempPath.value, t))
  {
  }

  lemma TranscodeHandsOff(cfg: Config, c: Collaborators, v: VideoRecord, m: string, dst: Path, t: Trace)
    requires GetVideoAspectRatio(c.probe).Class? && c.remuxOk && c.openOk
    ensures Transcode(cfg, c, v, m, dst, t)
         == Publish(cfg, c, v, m, dst, ClassName(GetVideoAspectRatio(c.probe).aspect),
                    FastStart.OutputPath(dst), OpenedTrace(dst, t))
  {
  }

  /** The trace a run that reaches the probe enters `Transcode` with. */
  function ProbeEntry(cfg: Config, req: Request, c: Collaborators): Trace
    requires ReachesProbe(c)
  {
    SavedTrace(c.partContentType.value, c.tempPath.value, LookupTrace(cfg, req, c))
  }

  lemma RunReachesTranscode(cfg: Config, req: Request, c: Collaborators)
    requires ReachesProbe(c)
    ensures Run(cfg, req, c)
         == Transcode(cfg, c, c.storedVideo.value, AcceptedMediaType, c.tempPath.value, ProbeEntry(cfg, req, c))
  {
    RunHandsOff(cfg, req, c);
    ReceiveHandsOff(cfg, c, c.storedVideo.value, LookupTrace(cfg, req, c));
  }

  lemma RunReachesPublish(cfg: Config, req: Request, c: Collaborators)
    requires ReachesUpload(c)
    ensures Run(cfg, req, c)
         == Publish(cfg, c, c.storedVideo.value, AcceptedMediaType, c.tempPath.value,
                    ClassName(GetVideoAspectRatio(c.probe).aspect), FastStart.OutputPath(c.tempPath.value),
                    OpenedTrace(c.tempPath.value, ProbeEntry(cfg, req, c)))
  {
    RunReachesTranscode(cfg, req, c);
    TranscodeHandsOff(cfg, c, c.storedVideo.value, AcceptedMediaType, c.tempPath.value, ProbeEntry(cfg, req, c));
  }

  /**
    Publishing: the storage call uses the key built from the prefix and the
    random bytes; the second copy's error answers 500, then the update's; on
    success the record gets the distribution URL of the key. Nothing is
    created, opened or deferred here.
   */
  lemma PublishOutcome(cfg: Config, c: Collaborators, v: VideoRecord, m: string,
                       dst: Path, prefix: string, bodyPath: Path, t: Trace)
    ensures var o := Publish(cfg, c, v, m, dst, prefix, bodyPath, t);
      var key := ObjectKey.Key(prefix, c.randomBytes);
      && PhaseOf(o.exit) == Publishing
      && (o.exit == RecopyFailed <==> !c.recopyOk)
      && (o.exit == UpdateFailed <==> c.recopyOk && !c.updateOk)
      && (o.exit.Updated? <==> c.recopyOk && c.updateOk)
      && (o.exit.Updated? ==>
            && o.exit.video == v.(videoUrl := Some(ObjectKey.PublicUrl(cfg.s3CfDistribution, key)))
            && Last(o.trace.calls) == UpdateVideo(o.exit.video))
      && PutObject(cfg.s3Bucket, key, m) in o.trace.calls
      && Grows(t, o.trace)
      && o.trace.defers == t.defers && o.trace.filesCreated == t.filesCreated
      && o.trace.handlesOpened == t.handlesOpened
  {
  }

  /**
    Probe and remux: a failed probe answers 500 and an empty stream list
    panics, both before ffmpeg runs; a failed remux answers 500 before
    anything is opened; an output that does not open answers 500.
   */
  lemma TranscodeOutcome(cfg: Config, c: Collaborators, v: VideoRecord, m: string, dst: Path, t: Trace)
    ensures var o := Transcode(cfg, c, v, m, dst, t);
      var ratio := GetVideoAspectRatio(c.probe);
      var out := FastStart.OutputPath(dst);
      && (PhaseOf(o.exit) == Transcoding || PhaseOf(o.exit) == Publishing)
      && (o.exit == RatioFailed <==> c.probe.ToolFailed? || c.probe.Unparseable?)
      && (o.exit == RatioPanicked <==> c.probe.Decoded? && c.probe.streams == [])
      && (o.exit == ConvertFailed <==> ratio.Class? && !c.remuxOk)
      && (o.exit == OpenFailed <==> ratio.Class? && c.remuxOk && !c.openOk)
      && (!ratio.Class? ==> o.trace == t.Call(Exec("ffprobe", ProbeArguments(dst))))
      && (ratio.Class? && !c.remuxOk ==>
            o.trace == t.Call(Exec("ffprobe", ProbeArguments(dst))).Call(Exec("ffmpeg", FastStart.RemuxArguments(dst))))
      && (ratio.Class? && c.remuxOk ==>
            out in o.trace.filesCreated && o.trace.filesCreated == t.filesCreated + {out})
      && Grows(t, o.trace)
  {
    var ratio := GetVideoAspectRatio(c.probe);
    if ratio.Class? && c.remuxOk && c.openOk {
      PublishOutcome(cfg, c, v, m, dst, ClassName(ratio.aspect), FastStart.OutputPath(dst), OpenedTrace(dst, t));
    }
  }

  /**
    After the media type is parsed: an unparsable or empty media type, one
    other than `video/mp4`, a temporary file that cannot be created and a
    failed copy each answer with their own error; a rejected part adds
    nothing to the trace.
   */
  lemma SaveOutcome(cfg: Config, c: Collaborators, v: VideoRecord, m: Option<string>, t: Trace)
    ensures var o := Save(cfg, c, v, m, t);
      && PhaseOf(o.exit) != Lookups && o.exit != FormFileFailed
      && (o.exit == InvalidContentType <==> m.None?)
      && (o.exit == WrongFileType <==> m.Some? && m.value != AcceptedMediaType)
      && (o.exit == TempCreateFailed <==> m == Some(AcceptedMediaType) && c.tempPath.None?)
      && (o.exit == TempCopyFailed <==> m == Some(AcceptedMediaType) && c.tempPath.Some? && !c.copyOk)
      && (m != Some(AcceptedMediaType) ==> o.trace == t)
      && Grows(t, o.trace)
  {
    if m == Some(AcceptedMediaType) && c.tempPath.Some? && c.copyOk {
      var dst := c.tempPath.value;
      var t' := t.Call(CreateTemp("", TempPattern))
        .Create(dst).Defer(RemovePath(dst)).Hold(TempFile(dst)).Defer(CloseHandle(TempFile(dst)))
        .Call(CopyUpload(dst));
      TranscodeOutcome(cfg, c, v, AcceptedMediaType, dst, t');
    }
  }

  /**
    Receiving the part: a missing part answers 400 before anything else;
    otherwise the part is held, its close deferred, its media type parsed,
    and each later failure answers with its own error; a rejected part has
    been opened and nothing else.
   */
  lemma ReceiveOutcome(cfg: Config, c: Collaborators, v: VideoRecord, t: Trace)
    ensures var o := Receive(cfg, c, v, t);
      var m := PartMediaType(c);
      && PhaseOf(o.exit) != Lookups
      && (o.exit == FormFileFailed <==> c.partContentType.None?)
      && (o.exit == InvalidContentType <==> c.partContentType.Some? && m.None?)
      && (o.exit == WrongFileType <==> m.Some? && m.value != AcceptedMediaType)
      && (o.exit == TempCreateFailed <==> m == Some(AcceptedMediaType) && c.tempPath.None?)
      && (o.exit == TempCopyFailed <==> m == Some(AcceptedMediaType) && c.tempPath.Some? && !c.copyOk)
      && (c.partContentType.Some? && m != Some(AcceptedMediaType) ==>
            o.trace == t.Call(FormFile(FormField)).Hold(UploadPart).Defer(CloseHandle(UploadPart))
                        .Call(ParseMediaType(c.partContentType.value)))
      && Grows(t.Call(FormFile(FormField)), o.trace)
  {
    if c.partContentType.Some? {
      var t1 := t.Call(FormFile(FormField)).Hold(UploadPart).Defer(CloseHandle(UploadPart))
        .Call(ParseMediaType(c.partContentType.value));
      SaveOutcome(cfg, c, v, PartMediaType(c), t1);
    }
  }

  /**
    The lookups run in order and each failure answers with its own status
    and message, after exactly the calls made so far: until all of them
    pass, the handler reads no form, creates nothing and defers nothing.
   */
  lemma AuthorizationGate(cfg: Config, req: Request, c: Collaborators)
    ensures var o := Run(cfg, req, c);
      var parse := ParseUuid(req.videoIdPath);
      && (c.videoId.None? ==>
            o.Response() == ErrorReply(400, "Invalid ID") && o.trace == Trace([parse], [], {}, {}))
      && (c.videoId.Some? && c.bearerToken.None? ==>
            && o.Response() == ErrorReply(401, "Couldn't find JWT")
            && o.trace == Trace([parse, GetBearerToken], [], {}, {}))
      && (c.videoId.Some? && c.bearerToken.Some? && c.jwtUser.None? ==>
            && o.Response() == ErrorReply(401, "Couldn't validate JWT")
            && o.trace == Trace([parse, GetBearerToken, ValidateJwt(c.bearerToken.value, cfg.jwtSecret)],
                                [], {}, {}))
      && (c.videoId.Some? && c.bearerToken.Some? && c.jwtUser.Some? && c.storedVideo.None? ==>
            && o.Response() == ErrorReply(500, "Couldn't find video")
            && o.trace == Trace([parse, GetBearerToken, ValidateJwt(c.bearerToken.value, cfg.jwtSecret),
                                 GetVideo(c.videoId.value)], [], {}, {}))
      && (PhaseOf(o.exit) == Lookups <==> !Authorized(c))
      && (Authorized(c) ==> FormFile(FormField) in o.trace.calls)
  {
    if Authorized(c) {
      RunHandsOff(cfg, req, c);
      ReceiveOutcome(cfg, c, c.storedVideo.value, LookupTrace(cfg, req, c));
    }
  }

  /** A video owned by someone else: a 401 after exactly the four lookups, and nothing else happens. */
  lemma OwnerMismatchStopsEverything(cfg: Config, req: Request, c: Collaborators)
    requires c.videoId.Some? && c.bearerToken.Some? && c.jwtUser.Some? && c.storedVideo.Some?
    requires c.storedVideo.value.userId != c.jwtUser.value
    ensures var o := Run(cfg, req, c);
      && o.Response() == ErrorReply(401, "Not authorized to update this video")
      && o.trace == Trace([ParseUuid(req.videoIdPath), GetBearerToken,
                           ValidateJwt(c.bearerToken.value, cfg.jwtSecret), GetVideo(c.videoId.value)],
                          [], {}, {})
  {
  }

  /**
    Only a part whose Content-Type parses to exactly `video/mp4` gets past
    the media-type check; a rejected part answers 400 once `ParseMediaType`
    has been called, with only the part open and its close deferred.
   */
  lemma MediaTypeGate(cfg: Config, req: Request, c: Collaborators)
    requires Authorized(c) && c.partContentType.Some?
    ensures var o := Run(cfg, req, c);
      var m := Mime.ParseMediaType(c.partContentType.value, c.mediaGrammarOk);
      && (o.exit == InvalidContentType <==> m.None?)
      && (o.exit == WrongFileType <==> m.Some? && m.value != AcceptedMediaType)
      && (m != Some(AcceptedMediaType) ==>
            && o.Response().ErrorReply? && o.Response().status == 400
            && o.trace.filesCreated == {} && o.trace.handlesOpened == {UploadPart}
            && o.trace.defers == [CloseHandle(UploadPart)]
            && Last(o.trace.calls) == ParseMediaType(c.partContentType.value))
  {
    RunHandsOff(cfg, req, c);
    ReceiveOutcome(cfg, c, c.storedVideo.value, LookupTrace(cfg, req, c));
  }

  /**
    A probe that fails answers 500 and a probe whose stream list is empty
    drops the connection; either way ffmpeg never runs and only the
    temporary file exists.
   */
  lemma ProbeFailuresStop(cfg: Config, req: Request, c: Collaborators)
    requires ReachesProbe(c)
    ensures var o := Run(cfg, req, c);
      var dst := c.tempPath.value;
      && (o.exit == RatioFailed <==> c.probe.ToolFailed? || c.probe.Unparseable?)
      && (o.exit == RatioPanicked <==> c.probe.Decoded? && c.probe.streams == [])
      && (o.exit == RatioPanicked ==> o.Response() == ConnectionAborted)
      && (!GetVideoAspectRatio(c.probe).Class? ==>
            && o.trace.filesCreated == {dst}
            && Last(o.trace.calls) == Exec("ffprobe", ProbeArguments(dst)))
  {
    RunReachesTranscode(cfg, req, c);
    TranscodeOutcome(cfg, c, c.storedVideo.value, AcceptedMediaType, c.tempPath.value, ProbeEntry(cfg, req, c));
  }

  /**
    After a failed probe, and after the panic of an empty stream list too,
    the deferred calls close the temporary file, remove it and close the
    part, in that order.
   */
  lemma CleanupOrderAfterProbe(cfg: Config, req: Request, c: Collaborators)
    requires ReachesProbe(c) && !GetVideoAspectRatio(c.probe).Class?
    ensures var dst := c.tempPath.value;
      Unwinding(Run(cfg, req, c).trace.defers) == [Close(TempFile(dst)), Remove(dst), Close(UploadPart)]
  {
    var dst := c.tempPath.value;
    RunReachesTranscode(cfg, req, c);
    TranscodeOutcome(cfg, c, c.storedVideo.value, AcceptedMediaType, dst, ProbeEntry(cfg, req, c));
    SavedTraceStack(c.partContentType.value, dst, LookupTrace(cfg, req, c));
    assert Run(cfg, req, c).trace.defers == SavedStack(dst);
    UnwindSaved(dst);
  }

  /**
    A failed remux answers 500 before anything is opened; a successful one
    adds exactly its output file, whose path is the input's plus the
    `.processing` suffix and never the input itself.
   */
  lemma RemuxOutcome(cfg: Config, req: Request, c: Collaborators)
    requires ReachesProbe(c) && GetVideoAspectRatio(c.probe).Class?
    ensures var o := Run(cfg, req, c);
      var dst := c.tempPath.value;
      && (o.exit == ConvertFailed <==> !c.remuxOk)
      && (!c.remuxOk ==> o.trace.filesCreated == {dst}
                         && Last(o.trace.calls) == Exec("ffmpeg", FastStart.RemuxArguments(dst)))
      && (c.remuxOk ==> o.trace.filesCreated == {dst, FastStart.OutputPath(dst)}
                        && FastStart.OutputPath(dst) != dst)
  {
    var dst := c.tempPath.value;
    RunReachesTranscode(cfg, req, c);
    TranscodeOutcome(cfg, c, c.storedVideo.value, AcceptedMediaType, dst, ProbeEntry(cfg, req, c));
    FastStart.OutputPathFresh(dst, dst);
  }

  /**
    The storage call puts the object under `<class>/<43 URL-safe characters>.mp4`,
    the class being that of the first stream's display aspect ratio, with
    content type `video/mp4`.
   */
  lemma UploadKeyShape(cfg: Config, req: Request, c: Collaborators)
    requires ReachesUpload(c)
    ensures var o := Run(cfg, req, c);
      var key := UploadKey(c);
      && PutObject(cfg.s3Bucket, key, AcceptedMediaType) in o.trace.calls
      && ObjectKey.KeyPatternWith(key, ClassName(Classify(c.probe.streams[0].displayAspectRatio)))
      && ObjectKey.MatchesKeyPattern(key)
  {
    var dst := c.tempPath.value;
    var aspect := GetVideoAspectRatio(c.probe).aspect;
    RunReachesPublish(cfg, req, c);
    PublishOutcome(cfg, c, c.storedVideo.value, AcceptedMediaType, dst, ClassName(aspect),
                   FastStart.OutputPath(dst), OpenedTrace(dst, ProbeEntry(cfg, req, c)));
    ObjectKey.KeyShape(aspect, c.randomBytes);
  }

  /**
    The storage client's error decides nothing: what `PutObject` returns
    changes no step of the run, and "Could not upload object" comes from the
    second copy into the temporary file alone.
   */
  lemma PutObjectErrorIgnored(cfg: Config, req: Request, c: Collaborators, ok: bool)
    ensures Run(cfg, req, c.(putObjectOk := ok)) == Run(cfg, req, c)
    ensures Run(cfg, req, c).exit == RecopyFailed <==> ReachesUpload(c) && !c.recopyOk
  {
    var c' := c.(putObjectOk := ok);
    if Authorized(c) {
      RunHandsOff(cfg, req, c);
      RunHandsOff(cfg, req, c');
      ReceiveIgnoresPutObject(cfg, c, c.storedVideo.value, LookupTrace(cfg, req, c), ok);
      ReceiveOutcome(cfg, c, c.storedVideo.value, LookupTrace(cfg, req, c));
      if ReachesUpload(c) {
        RunReachesPublish(cfg, req, c);
        var dst := c.tempPath.value;
        PublishOutcome(cfg, c, c.storedVideo.value, AcceptedMediaType, dst,
                       ClassName(GetVideoAspectRatio(c.probe).aspect), FastStart.OutputPath(dst),
                       OpenedTrace(dst, ProbeEntry(cfg, req, c)));
      } else if ReachesProbe(c) {
        RunReachesTranscode(cfg, req, c);
        TranscodeOutcome(cfg, c, c.storedVideo.value, AcceptedMediaType, c.tempPath.value, ProbeEntry(cfg, req, c));
      }
    }
  }

  lemma ReceiveIgnoresPutObject(cfg: Config, c: Collaborators, v: VideoRecord, t: Trace, ok: bool)
    ensures Receive(cfg, c.(putObjectOk := ok), v, t) == Receive(cfg, c, v, t)
  {
    var c' := c.(putObjectOk := ok);
    if PartMediaType(c) == Some(AcceptedMediaType) && c.tempPath.Some? && c.copyOk {
      ReceiveHandsOff(cfg, c, v, t);
      ReceiveHandsOff(cfg, c', v, t);
      var t' := SavedTrace(c.partContentType.value, c.tempPath.value, t);
      if GetVideoAspectRatio(c.probe).Class? && c.remuxOk && c.openOk {
        TranscodeHandsOff(cfg, c, v, AcceptedMediaType, c.tempPath.value, t');
        TranscodeHandsOff(cfg, c', v, AcceptedMediaType, c.tempPath.value, t');
      }
    }
  }

  /**
    A run succeeds exactly when every step does; it then stores the record it
    read with only the video URL changed, to the distribution URL of the key
    just uploaded, and answers 200 with that record.
   */
  lemma SuccessOutcome(cfg: Config, req: Request, c: Collaborators)
    ensures var o := Run(cfg, req, c);
      && (o.exit.Updated? <==> ReachesUpload(c) && c.recopyOk && c.updateOk)
      && (o.exit.Updated? ==>
            var v := o.exit.video;
            var stored := c.storedVideo.value;
            && v.id == stored.id && v.userId == stored.userId && v.rest == stored.rest
            && v.videoUrl == Some(ObjectKey.PublicUrl(cfg.s3CfDistribution, UploadKey(c)))
            && ObjectKey.KeyOfUrl(cfg.s3CfDistribution, v.videoUrl.value) == Some(UploadKey(c))
            && o.Response() == JsonReply(200, v)
            && Last(o.trace.calls) == UpdateVideo(v))
  {
    if Authorized(c) {
      RunHandsOff(cfg, req, c);
      ReceiveOutcome(cfg, c, c.storedVideo.value, LookupTrace(cfg, req, c));
      if ReachesProbe(c) {
        RunReachesTranscode(cfg, req, c);
        TranscodeOutcome(cfg, c, c.storedVideo.value, AcceptedMediaType, c.tempPath.value, ProbeEntry(cfg, req, c));
      }
      if ReachesUpload(c) {
        var dst := c.tempPath.value;
        RunReachesPublish(cfg, req, c);
        PublishOutcome(cfg, c, c.storedVideo.value, AcceptedMediaType, dst,
                       ClassName(GetVideoAspectRatio(c.probe).aspect), FastStart.OutputPath(dst),
                       OpenedTrace(dst, ProbeEntry(cfg, req, c)));
        ObjectKey.UrlNamesKey(cfg.s3CfDistribution, UploadKey(c));
      }
    }
  }

  /**
    Once the remuxed file is open, every later exit runs the same clean-up:
    close the remuxed file, remove it, close the temporary file, remove it,
    close the part.
   */
  lemma CleanupOrderAfterOpen(cfg: Config, req: Request, c: Collaborators)
    requires ReachesUpload(c)
    ensures var o := Run(cfg, req, c);
      var dst := c.tempPath.value;
      var out := FastStart.OutputPath(dst);
      Unwinding(o.trace.defers)
        == [Close(OutputFile(out)), Remove(out), Close(TempFile(dst)), Remove(dst), Close(UploadPart)]
  {
    var dst := c.tempPath.value;
    var out := FastStart.OutputPath(dst);
    RunReachesPublish(cfg, req, c);
    PublishOutcome(cfg, c, c.storedVideo.value, AcceptedMediaType, dst,
                   ClassName(GetVideoAspectRatio(c.probe).aspect), out, OpenedTrace(dst, ProbeEntry(cfg, req, c)));
    SavedTraceStack(c.partContentType.value, dst, LookupTrace(cfg, req, c));
    OpenedTraceStack(dst, ProbeEntry(cfg, req, c));
    assert Run(cfg, req, c).trace.defers == OpenedStack(dst, out);
    UnwindOpened(dst, out);
  }
}
