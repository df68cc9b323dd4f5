# Tubely upload handlers in Dafny

Tubely is a small video-hosting service. This project models its two upload handlers. Each
reads the video ID from the request path (`r.PathValue("videoID")`), a bearer JWT from the
headers, one multipart form field, and the video record through the service's database handle.

- `handlerUploadVideo` reads the form field "video". It checks the caller and the file, then
  stages the MP4 in a temporary file and probes its aspect ratio with ffprobe. It remuxes the file
  for fast start with ffmpeg and puts the result in S3 under `landscape/`, `portrait/` or
  `other/`. Last, it records the object's URL on the video.
- `handlerUploadThumbnail` reads the form field "thumbnail" and stores the image on the video
  record as a `data:` URL (RFC 2397). The image is in standard Base 64 with padding (section 4 of
  RFC 4648).

Each handler is a fail-fast sequence of steps. Every call into code outside the model is an
input: the outcome of parsing, authentication, database access, the external tools and S3,
gathered in an `Env` value for one request.

Each handler has two forms:

- A reference function `Expected` says what one request does: the reply, the steps run, the
  calls made and the records written.
- A class `Server` has a method that performs the same steps in the source's order on mutable
  state, with early returns. It is proved to end in the state `Expected` gives.

For the video handler, the method also keeps Go's stack of `defer`red `Close`/`Remove` calls.
A loop runs that stack newest first on every return. The model tracks the set of local files,
so cleanup facts are stated about it.

Files:

- `common.dfy`: the video record and the reply kinds.
- `base64.dfy`: the encoder, its decoder and the round trip.
- `media.dfy`: the pure pieces of the video handler:
  - the aspect ratio;
  - the storage key;
  - the fast-start path;
  - the public URL.
- `video_upload.dfy`: the video pipeline.
- `thumbnail_upload.dfy`: the thumbnail pipeline and its data URL.

Facts about the code that the model keeps:

- A successful video upload writes no response of its own. No `respondWithJSON` follows
  `UpdateVideo` (handler_upload_video.go:124-126), so net/http sends an empty 200. This is
  `NoReply`.
- A probe failure does not abort the upload. The probe's error is overwritten by the `Seek` at
  handler_upload_video.go:83, and the video is filed under other/.
- The video form limit `10 << 30` (handler_upload_video.go:20) is 10 GiB, though the comment
  beside it says 1 GB.
- ffprobe runs with `-show_streams` and no stream selection (handler_upload_video.go:135), and
  the handler reads `streams[0]` of all streams. An MP4 whose first stream is audio has no display
  ratio, so it is filed under other/ whatever its video stream's ratio.

## Model

| member | source | states |
|---|---|---|
| Media.GetVideoAspectRatio | handler_upload_video.go:138-155 | each error (tool failure, invalid JSON, no streams) happens iff its cause, and then the ratio is ""; on success the ratio is "16:9", "9:16" or "other", it is "other" iff the first stream is neither, and otherwise it is the first stream's ratio |
| Media.KeyFor | handler_upload_video.go:89-96 | the key is the directory of the ratio's class plus the random name: "16:9" gives landscape/, "9:16" gives portrait/, every other string gives other/ |
| Media.ParseKeyFor | handler_upload_video.go:89-96 | the orientation and the random name can be read back from every key |
| Media.KeyForInjective | handler_upload_video.go:89-96 | two keys are equal only for the same orientation and the same name |
| Media.KeyFollowsFirstStream | handler_upload_video.go:82-96 | the key's directory is the orientation of the first probed stream, and other/ when the probe fails |
| Media.ProcessVideoForFastStart | handler_upload_video.go:158-168 | it fails iff ffmpeg fails, and then the path is ""; on success the path is the input path with "-faststart.mp4" appended |
| Media.FastStartPath | handler_upload_video.go:159 | the output path is the input with "-faststart.mp4" appended: the input can be read back from it |
| Media.FastStartPathDistinct | handler_upload_video.go:159 | the output path never equals the input path, and different inputs give different outputs |
| Media.VideoURL | handler_upload_video.go:122 | the URL is the bucket's LocalStack endpoint, the key and the dummy query, and the key can be read back from it |
| Media.VideoURLInjective | handler_upload_video.go:122 | different keys in one bucket never share a URL |
| Media.AudioFirstStreamFilesUnderOther | handler_upload_video.go:135-155 | a first stream with no display ratio (an audio stream) gives "other" with no error, and the key goes under other/, whatever the later streams are |
| Media.VideoMaxMemoryValue | handler_upload_video.go:20 | `10 << 30` is 10737418240 bytes (10 GiB) |
| VideoUpload.RunDeferred | handler_upload_video.go:56-109 | running the defer stack produces one effect per registration, newest first, and removes exactly the registered paths |
| VideoUpload.Finish | handler_upload_video.go:19-126 | a return keeps the steps, calls and record, runs the defer stack last-in first-out and removes its paths |
| VideoUpload.StepsFollowSourceOrder | handler_upload_video.go:19-126 | the steps run are always an initial part of the source order, so nothing runs out of order or after a failing step |
| VideoUpload.StoppedBeforeStaging | handler_upload_video.go:21-65 | a request stopped by an earlier check runs fewer than 8 steps and writes no local file, S3 object or record (GetVideo may have read the record); the only defer it can register is the part's Close |
| VideoUpload.GatesBeforeStaging | handler_upload_video.go:21-66 | `os.CreateTemp` is called iff form, ID, JWT, owner check and media-type gate all pass (the call may still fail with 500); otherwise no local file, put or update happens |
| VideoUpload.NonOwnerRejected | handler_upload_video.go:46-54 | a non-owner gets 401 "Not your video" before FormFile and CreateTemp run, with nothing registered, removed, put or updated |
| VideoUpload.MediaTypeGate | handler_upload_video.go:57-65 | a media type other than exactly video/mp4 gets 400; only the upload part is closed, and no file, put or update happens |
| VideoUpload.MissingPartPanics | handler_upload_video.go:55-57 | a failed FormFile leads to a panic at `defer file.Close()` on the nil file, before any defer is registered or any file is staged |
| VideoUpload.Expected | handler_upload_video.go:19-126 | the whole handler: the form, ID, bearer and JWT checks of lines 19-45, then the stages; on every return, of every request, the registered calls run newest first, one effect each |
| VideoUpload.Authenticated | handler_upload_video.go:46-54 | the GetVideo and owner-check stage; every return from it runs the registered calls newest first |
| VideoUpload.Owned | handler_upload_video.go:55-76 | the FormFile, media-type gate and CreateTemp stage, with its three defers; every return from it runs the registered calls newest first |
| VideoUpload.Staged | handler_upload_video.go:77-106 | the copy, probe, seek, random name and ffmpeg stage; every return from it runs the registered calls newest first |
| VideoUpload.Remuxed | handler_upload_video.go:107-124 | the open, PutObject, record and UpdateVideo stage, with its two defers; every return from it runs the registered calls newest first |
| VideoUpload.RegisteredDefers | handler_upload_video.go:56-109 | what is registered is the first 0, 1, 3 or 5 of the handler's defers; 3 or more iff the temp file was created; 5 iff ffmpeg succeeded |
| VideoUpload.RegisteredFilesRemoved | handler_upload_video.go:71-109 | every file whose removal was registered is gone after any return |
| VideoUpload.StagedFileCleanup | handler_upload_video.go:71-109 | once staged, the temp file is gone on every return; the staged file is closed before it is removed, and the output file is closed and removed before both |
| VideoUpload.NoOtherFileTouched | handler_upload_video.go:66-109 | only files with a registered removal are deleted; no created file stays behind except a partial ffmpeg output |
| VideoUpload.RemuxFailure | handler_upload_video.go:102-106 | a failed ffmpeg gets 500 with no put; the temp file is removed; removal of the output path is never registered, so a partial output stays |
| VideoUpload.ProbeNeverAborts | handler_upload_video.go:82-87 | the probe's result changes neither the reply, the steps, the defers, the files nor the number of puts |
| VideoUpload.SinglePut | handler_upload_video.go:110-115 | PutObject is called at most once, exactly when ffmpeg succeeded, with the bucket, the prefixed key, "video/mp4" and the remuxed file |
| VideoUpload.FailedProbeFilesUnderOther | handler_upload_video.go:82-96 | a failed probe files the video under other/ |
| VideoUpload.RecordSetAfterPut | handler_upload_video.go:116-124 | the record is updated iff the put succeeded, with only VideoURL changed to the key's URL; a failed put gets 500 and leaves the handler's record as fetched |
| VideoUpload.UpdateErrorIgnored | handler_upload_video.go:124 | UpdateVideo's result does not change the outcome |
| VideoUpload.SuccessWritesNoBody | handler_upload_video.go:116-126 | no reply is written iff the request got through a successful put |
| VideoUpload.LandscapeUpload | handler_upload_video.go:89-124 | a 16:9 video is put under landscape/ and recorded at that key's URL, with the local files as before |
| VideoUpload.FourByThreeUpload | handler_upload_video.go:89-96 | a 4:3 video is put under other/ |
| VideoUpload.Server.HandlerUploadVideo | handler_upload_video.go:19-126 | the handler's steps, defer stack, files, puts, updates, record and reply end as `Expected` gives |
| VideoUpload.Server.ServeAuthenticated | handler_upload_video.go:46-54 | from GetVideo on, the state ends as `Authenticated` gives |
| VideoUpload.Server.ServeOwned | handler_upload_video.go:55-76 | from FormFile on, the state ends as `Owned` gives |
| VideoUpload.Server.ServeStaged | handler_upload_video.go:77-106 | from the copy on, the state ends as `Staged` gives |
| VideoUpload.Server.ServeRemuxed | handler_upload_video.go:107-124 | from opening the remuxed file on, the state ends as `Remuxed` gives |
| VideoUpload.Server.Return | handler_upload_video.go:56-109 | returning writes the reply, then runs the registered calls newest first and removes their paths |
| Base64.Encode | handler_upload_thumbnail.go:62 | the encoding of n bytes has 4·⌈n/3⌉ characters |
| Base64.DecodeEncode | handler_upload_thumbnail.go:62 | decoding the encoding gives back the bytes |
| Base64.EncodeAlphabet | handler_upload_thumbnail.go:62 | the encoding is digits of the alphabet of section 4 of RFC 4648 followed by exactly (3 − n mod 3) mod 3 pads |
| Base64.RfcTestVectors | handler_upload_thumbnail.go:62 | the encoder gives the test vectors of section 10 of RFC 4648, "" to "Zm9vYmFy" |
| Base64.EncodeInjective | handler_upload_thumbnail.go:62 | different byte strings have different encodings |
| ThumbnailUpload.ThumbnailMaxMemoryValue | handler_upload_thumbnail.go:36 | `10 << 20` is 10485760 bytes, 10 MiB as the comment says |
| ThumbnailUpload.DataURLPayload | handler_upload_thumbnail.go:47-63 | the URL is "data:", the unvalidated content type and ";base64,", followed by exactly the encoding: 4·⌈n/3⌉ characters, RFC 4648 digits then the required pads |
| ThumbnailUpload.DataURL | handler_upload_thumbnail.go:47-63 | the content type (any string, even one containing ';') and the image bytes can be read back from the URL |
| ThumbnailUpload.DataURLInjective | handler_upload_thumbnail.go:62-63 | different content types or images never give the same URL |
| ThumbnailUpload.InvalidIDFirst | handler_upload_thumbnail.go:14-19 | an unparsable ID gets 400 "Invalid ID" with only the parse run |
| ThumbnailUpload.JWTBeforeForm | handler_upload_thumbnail.go:21-41 | a missing or invalid JWT gets 401 before the form is parsed, and nothing is updated |
| ThumbnailUpload.OwnerCheckedAfterRead | handler_upload_thumbnail.go:48-61 | a non-owner gets 401 "Not your video" after the bytes were read; UpdateVideo is never called |
| ThumbnailUpload.OnlyThumbnailChanges | handler_upload_thumbnail.go:53-65 | UpdateVideo is called iff every check passed, once; only ThumbnailURL changes, to a data URL that gives back the part's content type and bytes |
| ThumbnailUpload.ReplyFollowsUpdate | handler_upload_thumbnail.go:65-70 | 200 with the updated record iff every check and UpdateVideo succeeded; a failed update gets 500 |
| ThumbnailUpload.Expected | handler_upload_thumbnail.go:13-71 | the step-by-step reference for one request: every return writes an error or the JSON record (no silent return, no panic), UpdateVideo is called at most once, and a JSON reply is 200 with exactly the record passed to UpdateVideo |
| ThumbnailUpload.StepsFollowSourceOrder | handler_upload_thumbnail.go:13-71 | the steps run are always an initial part of the source order |
| ThumbnailUpload.Server.HandlerUploadThumbnail | handler_upload_thumbnail.go:13-71 | the handler's steps, updates, record and reply end as `Expected` gives |

## Left out

- cache.go (`noCacheMiddleware`) only sets one response header and delegates, so it is not part of this model.
- Running ffprobe and ffmpeg is left out. Each run is an outcome in `Env`. The remuxed file exists only as a name in the set of local files.
- Decoding ffprobe's JSON is left out. Its result is a sequence of streams, each with its display aspect ratio, or an invalid-output outcome.
- The S3 client, the AWS SDK and the request context are left out. A put is recorded as a `PutCall` with its bucket, key, content type and body path, and its success is an input.
- `auth.GetBearerToken`, `auth.ValidateJWT`, the database, multipart parsing and `mime.ParseMediaType` are not part of this model. Their results are inputs.
- VideoUpload.MediaTypeGate: the parsed media type is an input of its own, not computed from the part's Content-Type header, so the model admits a header and a parsed type that disagree (header "image/png", type "video/mp4"). It also does not capture that `mime.ParseMediaType` lower-cases the type and drops parameters, so a header "Video/MP4; codecs=avc1" passes the gate in the source.
- `getRandomName` is not part of this model. The name is an opaque input, so key uniqueness across requests is not modelled.
- The result of `os.Open(fastStart)` at handler_upload_video.go:107 is never checked by the handler. The model leaves it out, and the put outcome alone decides what follows.
- The check of `err` at handler_upload_video.go:72-75 runs right after a successful `os.CreateTemp`, so it can never fire. It is not modelled as a branch.
- The bytes of the uploaded video are not modelled. The copy into the temp file, and the seek, are success/failure outcomes.
- Logging and printing are left out. Response writing is modelled only as the reply kind, status code, message and JSON record.
- `Common.Video` keeps only the record's ID, owner, thumbnail URL and video URL. The record type is defined outside these handlers, and the handlers neither read nor change its other fields, so they are left out. The JSON body of the thumbnail handler's 200 reply therefore carries only these four fields in the model, while the source sends the whole record.
- Concurrency between requests is left out. Each request runs alone against one `Server`.
- VideoUpload.Server.HandlerUploadVideo: a panic is modelled as a reply kind that ends the request. Whatever net/http does after recovering is left out.
