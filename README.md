# Tubely video upload, modelled in Dafny

This project models the video upload endpoint of the Tubely file-storage
server: `handlerUploadVideo` and its two helpers, `getVideoAspectRatio` and
`processVideoForFastStart`. A request goes through these steps:

1. The handler parses the `videoID` path value.
2. It authenticates the caller by bearer JWT.
3. It loads the video record and checks that the caller owns it.
4. It reads the multipart part `video` and accepts it only when its media type is `video/mp4`.
5. It saves the part in a temporary file.
6. It asks `ffprobe` for the first stream's display aspect ratio and classifies it as `landscape`, `portrait` or `other`.
7. It remuxes the file with `ffmpeg` for fast start into `<temp>.processing`.
8. It uploads the remuxed file to the S3 bucket under the key `<class>/<base64url of 32 random bytes>.mp4`.
9. It copies the part into the temporary file a second time.
10. It stores `<distribution>/<key>` as the record's video URL and answers with the record.

Deferred calls close and remove what was opened and created. They run last-in first-out on every return, and also when the handler panics.

Modules:

- `UploadPipeline` (`upload_pipeline.dfy`) is the handler itself.
  - Every collaborator is one call whose outcome is given in advance by a `Collaborators` value. These are the uuid parser, the auth helpers, the database, the multipart reader, the file system, the two tools, `rand.Read`, the S3 client and the second copy.
  - `Run` is the specification of the body, written in four phases: the lookups, then `Receive` (which goes on in `Save` with the parsed media type), `Transcode` and `Publish`. For a request it gives the exit taken and a trace: the calls made, the deferred entries, the files created and the handles opened.
  - The imperative model is a `World` class holding the files on disk, the open handles and the log of calls.
  - `RunToReturn` runs the body against a `World`, one method per phase, up to its `return` or panic. It hands the stack of deferred entries to `Unwind`.
  - `Unwind` is a loop that runs the stack from the top.
  - `HandleUploadVideo` is the two together.
- `PipelineProperties` (`pipeline_properties.dfy`) holds the properties of whole runs: the check order, the gates, the failure paths, the key, the success outcome and the clean-up order.
- `MediaProbe` (`media_probe.dfy`) covers the probe's output, the aspect-ratio classification and the class names.
- `FastStart` (`fast_start.dfy`) covers the remux output path and the `ffmpeg` arguments.
- `Mime` (`mime.dfy`) covers the media-type part of `mime.ParseMediaType`: cut at the first `;`, lower-case, trim spaces, reject an empty result.
- `Base64Url` (`base64url.dfy`) covers unpadded base64 with the URL-safe alphabet (RFC 4648, section 5), with its decoder and the round trip.
- `ObjectKey` (`object_key.dfy`) covers the object key and the public URL.

Where the code and the written description of the service differ, the model follows the code:

- The video URL is `<distribution>/<key>`, formatted with `%v/%v`.
- An empty stream list is not a probe error. It makes `video.Streams[0]` panic. `net/http` recovers the panic and drops the connection, so no response is written (`RatioPanicked`, `ConnectionAborted`). The deferred calls still run.
- The error returned by `PutObject` is never read. The next statement overwrites it with the result of a second `io.Copy(dst, file)`, and only that result can produce "Could not upload object".
- The temporary file's removal is deferred right after `os.CreateTemp`, before its close.
- The remuxed file's removal is deferred as soon as `ffmpeg` succeeds, before it is opened.

## Model

| member | source | states |
|---|---|---|
| UploadPipeline.HandleUploadVideo | handler_upload_video.go:28-138 | the response is the one `Run` gives; the log is the body's calls followed by the deferred calls in reverse order of deferral; every file the run created is gone and every handle it opened is closed; nothing else on disk changes |
| UploadPipeline.RunToReturn | handler_upload_video.go:29-137 | the body's steps up to its return or panic make exactly `Run`'s calls, exit and deferred entries, and add exactly `Run`'s created files and opened handles to the world |
| UploadPipeline.ReceiveUpload | handler_upload_video.go:58-89 | reading the part, the media-type check, `os.CreateTemp` and the copy do what `Receive` specifies, from any trace on |
| UploadPipeline.ProbeAndRemux | handler_upload_video.go:91-109 | the probe, the remux and the opening of its output do what `Transcode` specifies, deferring the remuxed file's removal and then its close |
| UploadPipeline.UploadObject | handler_upload_video.go:111-137 | seek, random bytes, `PutObject`, the second copy and the update do what `Publish` specifies, and defer nothing |
| UploadPipeline.Run | handler_upload_video.go:29-56 | the specification of the body's lookups: parse the path value, read the JWT, validate it, read the video and compare its owner, each failure returning at once; past them it hands over to `Receive` (its properties: `AuthorizationGate`, `OwnerMismatchStopsEverything`) |
| UploadPipeline.Receive | handler_upload_video.go:61-72 | the specification of reading the part, deferring its close and parsing its Content-Type; it hands the parsed media type to `Save` (its properties: `ReceiveOutcome`, `MediaTypeGate`) |
| UploadPipeline.Save | handler_upload_video.go:73-89 | the specification of the `video/mp4` check, `os.CreateTemp` with the removal then the close deferred, and the copy; it hands over to `Transcode` (its properties: `SaveOutcome`) |
| UploadPipeline.Transcode | handler_upload_video.go:91-109 | the specification of the probe, the remux, the deferred removal of its output, its opening and the deferred close (its properties: `TranscodeOutcome`, `ProbeFailuresStop`, `RemuxOutcome`) |
| UploadPipeline.Publish | handler_upload_video.go:111-137 | the specification of the key, `PutObject`, the second copy, the URL and the update (its properties: `PublishOutcome`, `UploadKeyShape`, `PutObjectErrorIgnored`, `SuccessOutcome`) |
| UploadPipeline.Exit.Response | handler_upload_video.go:32-137 | 400 exactly for the invalid ID, the unreadable form file and the two Content-Type rejections; 401 exactly for the missing or invalid JWT and the foreign video; every other error is 500; JSON with 200 and the updated record only on success; no response only for the probe's panic |
| UploadPipeline.ResponsesDistinct | handler_upload_video.go:32-137 | two exits with the same response are the same exit: every error has its own status and message |
| UploadPipeline.Unwind | handler_upload_video.go:66-109 | running the deferred entries top first logs `Unwinding(stack)` and removes exactly the paths and closes exactly the handles named in the stack |
| UploadPipeline.UnwindingIsLifo | handler_upload_video.go:66-109 | the k-th deferred call to run is the entry deferred k-th from the end |
| UploadPipeline.UnwindingOfPush | handler_upload_video.go:83-84 | the entry deferred last runs first, before the rest of the stack |
| UploadPipeline.CleanupMatchesArtifacts | handler_upload_video.go:61-109 | in every run, the paths the deferred entries remove are exactly the files created, and the handles they close are exactly the handles opened |
| UploadPipeline.ReceiveBalanced | handler_upload_video.go:61-89 | receiving the part keeps "every artifact has its clean-up deferred" true |
| UploadPipeline.TranscodeBalanced | handler_upload_video.go:97-109 | the remux output's removal and its handle's close keep that balance |
| PipelineProperties.AuthorizationGate | handler_upload_video.go:29-52 | invalid ID gives 400 "Invalid ID" after the parse alone; a missing token gives 401 "Couldn't find JWT" after the parse and the token read; an invalid token gives 401 "Couldn't validate JWT" after those and the validation with the configured secret; a missing video gives 500 "Couldn't find video" after those and the read of that video; each with nothing deferred, created or opened; the run exits in the lookup phase iff it is not authorized, and otherwise it reads the form |
| PipelineProperties.OwnerMismatchStopsEverything | handler_upload_video.go:53-56 | a video owned by someone else gives 401 "Not authorized to update this video" after exactly the four lookups, with nothing deferred, created or opened |
| PipelineProperties.MediaTypeGate | handler_upload_video.go:68-76 | an unparsable or empty media type gives "Invalid Content-Type" iff parsing fails; any other media type than `video/mp4` gives "Invalid file type"; both are 400 with only the part open and its close deferred |
| PipelineProperties.SaveOutcome | handler_upload_video.go:73-89 | for any parsed media type: no media type gives "Invalid Content-Type", one other than `video/mp4` gives "Invalid file type", a temporary file that cannot be created and a failed copy each give their own exit, each exactly under its own condition; a rejected media type adds nothing to the trace |
| PipelineProperties.ReceiveOutcome | handler_upload_video.go:61-89 | each of the five failure exits of the receiving phase happens exactly under its own condition; a rejected part leaves the trace at the media-type call |
| PipelineProperties.TranscodeOutcome | handler_upload_video.go:91-109 | probe failure, empty stream list, remux failure and open failure each lead to their own exit exactly under their own condition; ffmpeg is not called after a probe failure; a successful remux adds exactly its output file |
| PipelineProperties.PublishOutcome | handler_upload_video.go:111-137 | the storage call uses the key built from the prefix and the random bytes with the parsed media type; the second copy's failure and then the update's decide the exit; success stores the record with the URL of that key; nothing is created, opened or deferred |
| PipelineProperties.ProbeFailuresStop | handler_upload_video.go:91-95 | a failed tool run or undecodable output gives "Could not get ratio"; an empty stream list aborts the connection; in both cases ffprobe was the last call and only the temporary file exists |
| PipelineProperties.CleanupOrderAfterProbe | handler_upload_video.go:83-95 | after a probe failure or the panic, the clean-up is: close the temporary file, remove it, close the part |
| PipelineProperties.RemuxOutcome | handler_upload_video.go:97-102 | "Could convert video" iff ffmpeg fails, with ffmpeg the last call and only the temporary file created; otherwise exactly the `.processing` file is added, and it differs from the input |
| PipelineProperties.UploadKeyShape | handler_upload_video.go:113-122 | the object is put under `<class>/<43 URL-safe characters>.mp4` with content type `video/mp4`, where the class is that of the first stream's display aspect ratio |
| PipelineProperties.PutObjectErrorIgnored | handler_upload_video.go:117-126 | the run is identical whatever `PutObject` returns; "Could not upload object" happens iff the run reaches the upload and the second copy fails |
| PipelineProperties.SuccessOutcome | handler_upload_video.go:128-137 | a run answers 200 iff every step succeeds; the stored record is the one read with only the video URL changed, to `<distribution>/<key>` of the uploaded key, from which the key can be recovered; the update is the last call |
| PipelineProperties.CleanupOrderAfterOpen | handler_upload_video.go:83-109 | once the remuxed file is open, the clean-up is: close it, remove it, close the temporary file, remove it, close the part |
| MediaProbe.ProbeArguments | handler_upload_video.go:141 | the probed file is the last argument; the streams are requested as JSON |
| MediaProbe.Classify | handler_upload_video.go:154-161 | the class is landscape iff the ratio is exactly "16:9", portrait iff exactly "9:16", and other for every other string |
| MediaProbe.GetVideoAspectRatio | handler_upload_video.go:140-161 | a failed tool run or undecodable output is an error; an empty stream list is an index-out-of-range panic; otherwise the class is that of the first stream |
| MediaProbe.OnlyFirstStreamCounts | handler_upload_video.go:154 | the streams after the first never change the class |
| MediaProbe.EmptyRatioIsOther | handler_upload_video.go:159-160 | a stream with no display aspect ratio is classed as other |
| MediaProbe.ClassName | handler_upload_video.go:155-160 | the class names contain no `/`, so the key prefix is a single path segment |
| MediaProbe.ClassNameInjective | handler_upload_video.go:155-160 | different classes have different names |
| FastStart.ProcessVideoForFastStart | handler_upload_video.go:164-173 | the output path exists iff ffmpeg succeeds; it is never the input, and the input can be recovered from it |
| FastStart.OutputPath | handler_upload_video.go:165 | the staged path with `.processing` appended (its properties: `OutputPathInverse`, `OutputPathFresh`) |
| FastStart.RemuxArguments | handler_upload_video.go:166 | `ffmpeg` reads the staged file (`-i <input>`), asks for the fast-start layout, and writes the output path, which is never the input |
| FastStart.OutputPathInverse | handler_upload_video.go:165 | removing the `.processing` suffix from the output path gives back the input |
| FastStart.OutputPathFresh | handler_upload_video.go:165 | the output path differs from the input, and different inputs have different output paths |
| Mime.MediaTypeOf | handler_upload_video.go:68 | the media type of a header value: the text before the first `;`, lower-cased, with white space trimmed (its properties: `MediaTypeOfPadded`, `MediaTypeShape`, `ParametersIgnored`) |
| Mime.ParseMediaType | handler_upload_video.go:68-72 | the parse fails iff the grammar check fails or the media type is empty; otherwise it returns the media type |
| Mime.MediaTypeOfPadded | handler_upload_video.go:68 | white space, a media type, white space and then nothing or `;` with parameters has exactly that media type, lower-cased |
| Mime.AcceptedVariants | handler_upload_video.go:68-73 | `video/mp4` in any ASCII case, with white space around it and with or without parameters, parses to exactly `video/mp4` when the grammar check passes |
| Mime.ExactHeaderAccepted | handler_upload_video.go:68-73 | the header `video/mp4` has the media type `video/mp4` |
| Mime.OtherHeaderRejected | handler_upload_video.go:68-73 | the header `video/avi` has a media type other than `video/mp4` |
| Mime.TrimSpaceOfPadded | handler_upload_video.go:68 | trimming white space around a text that neither starts nor ends with white space gives exactly that text |
| Mime.MediaTypeShape | handler_upload_video.go:68 | the media type has no `;`, no upper-case letter, and does not start or end with white space |
| Mime.ParametersIgnored | handler_upload_video.go:68 | parameters after `;` do not change the media type |
| Mime.TrimSpace | handler_upload_video.go:68 | the result is a slice of the input with only white space cut off before and after it, and a non-empty result neither starts nor ends with white space |
| Mime.BeforeSemicolon | handler_upload_video.go:68 | the result is the longest prefix without `;` |
| Base64Url.Encode | handler_upload_video.go:115 | every character is from the URL-safe alphabet |
| Base64Url.DecodeEncode | handler_upload_video.go:115 | decoding the encoding gives back the bytes |
| Base64Url.EncodeInjective | handler_upload_video.go:115 | different byte strings have different encodings |
| Base64Url.EncodedLength | handler_upload_video.go:115 | the length is `n/3*4 + (n%3*8+5)/6`, the unpadded encoded length |
| Base64Url.EncodedLength32 | handler_upload_video.go:113-115 | 32 random bytes encode to 43 characters |
| Base64Url.Value | handler_upload_video.go:115 | a character has a value iff it is in the alphabet, and the value encodes back to it |
| ObjectKey.Key | handler_upload_video.go:115 | the prefix, `/`, the unpadded URL-safe base64 of the random bytes and `.mp4` (its properties: `KeyShape`, `KeyInjective`) |
| ObjectKey.KeyShape | handler_upload_video.go:113-115 | every key has the form `<class>/<43 URL-safe characters>.mp4` |
| ObjectKey.KeyInjective | handler_upload_video.go:113-115 | the key determines the class and the random bytes |
| ObjectKey.PublicUrl | handler_upload_video.go:128 | the distribution, `/` and the key, as `%v/%v` formats them (its properties: `KeyOfUrl`, `UrlNamesKey`) |
| ObjectKey.KeyOfUrl | handler_upload_video.go:128 | a key recovered from a URL gives back that URL |
| ObjectKey.UrlNamesKey | handler_upload_video.go:128 | the key is recovered from its public URL |

## Left out

- The collaborators' own logic is left out. Each is one given outcome: uuid parsing, `auth.GetBearerToken`, `auth.ValidateJWT`, the database, the multipart reader, `os.CreateTemp`, the file copies, `ffprobe`, `ffmpeg`, `os.Open`, `rand.Read`, the S3 client and `db.UpdateVideo`. The same goes for the HTTP response writing and JSON encoding.
- The temporary file name is an input: `os.CreateTemp` chooses it from `tubely-upload*.mp4`.
- The random bytes are an input, because randomness cannot be modelled.
- `http.MaxBytesReader` with its 1 GiB limit is not modelled on its own. A body over the limit makes `r.FormFile` fail, and that failure is modelled as `FormFileFailed`.
- The errors of `body.Seek` and `rand.Read` are ignored in the source, and the model ignores them too. The same goes for the errors of the deferred `Close` and `os.Remove` calls.
- JSON decoding of the probe output is a given outcome: decoded streams or a decoding error. A stream without `display_aspect_ratio` decodes to the empty string, and that case is modelled.
- Mime.ParseMediaType: the RFC 2045/2231 parameter grammar is not modelled. Whether the header passes it is an input (`grammarOk`). Lower-casing and trimming cover ASCII only, where Go uses Unicode.
- A partial `.processing` file that `ffmpeg` may leave behind on failure is not modelled. Its removal is deferred only on success.
- Concurrency between requests is not modelled.
- `Base64Url.Decode` is not used by the handler. It exists to state the round trip and injectivity of the encoding.
