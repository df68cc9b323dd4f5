/** handlerUploadVideo as a fail-fast sequence of steps. Every call the handler makes into code
    outside this model (form parsing, UUID parsing, JWT checks, the database, ffprobe, ffmpeg,
    the random name, S3) is an outcome in `Env`. `Expected` is the reference: it says, step by
    step, what one request does. `Server.HandlerUploadVideo` performs the same steps on mutable
    state, keeping Go's stack of deferred calls in a local and running it last-in first-out on
    every return, and is proved to end in the state `Expected` describes. The lemmas state what
    the handler guarantees. */
module VideoUpload {
  import opened Common
  import opened Media

  /** What running ffmpeg can give: on failure it may or may not have left an output file. */
  datatype RemuxRun = RemuxSucceeded | RemuxFailed(leftOutput: bool)

  /** The outcomes of every external call, for one request. */
  datatype Env = Env(
    formParsed: bool,                // r.ParseMultipartForm(10 << 30)
    videoID: Option<string>,         // uuid.Parse(r.PathValue("videoID"))
    bearer: Option<string>,          // auth.GetBearerToken(r.Header)
    jwtUser: Option<string>,         // auth.ValidateJWT(token, cfg.jwtSecret)
    stored: Option<Video>,           // cfg.db.GetVideo(videoID)
    partContentType: Option<string>, // r.FormFile("video"): the part's Content-Type header; None when it fails (only presence is used)
    mediaType: Option<string>,       // mime.ParseMediaType of that header
    tempName: Option<string>,        // os.CreateTemp("", "tubely-upload.mp4")
    copied: bool,                    // io.Copy(tempFile, file)
    probe: ProbeRun,                 // ffprobe and the decoding of its output
    seeked: bool,                    // tempFile.Seek(0, io.SeekStart)
    randomName: Option<string>,      // cfg.getRandomName()
    remux: RemuxRun,                 // ffmpeg
    putSucceeded: bool,              // cfg.s3Client.PutObject
    updateSucceeded: bool)           // cfg.db.UpdateVideo, whose error the handler ignores

  /** The handler's steps, in the order of the source. */
  datatype Step =
    | ParseForm | ParseID | GetBearerToken | ValidateJWT | GetVideo | FormFile | ParseMediaType
    | CreateTemp | CopyToTemp | Probe | Seek | RandomName | Remux | OpenOutput | PutObject | UpdateVideo

  const AllSteps: seq<Step> := [
    ParseForm, ParseID, GetBearerToken, ValidateJWT, GetVideo, FormFile, ParseMediaType,
    CreateTemp, CopyToTemp, Probe, Seek, RandomName, Remux, OpenOutput, PutObject, UpdateVideo]

  /** Open files the handler closes on return. */
  datatype Handle = UploadPart | StagedFile(path: string) | OutputFile(path: string)

  /** A registered `defer`. */
  datatype Deferred = CloseFile(handle: Handle) | RemoveFile(path: string)

  /** What a deferred call did when it ran. */
  datatype Effect = Closed(handle: Handle) | Removed(path: string)

  datatype PutCall = PutCall(bucket: string, key: string, contentType: string, bodyPath: string)

  function EffectOf(d: Deferred): Effect {
    match d
    case CloseFile(h) => Closed(h)
    case RemoveFile(p) => Removed(p)
  }

  /** The paths a defer stack removes. */
  function RemovedBy(stack: seq<Deferred>): set<string> {
    set d | d in stack && d.RemoveFile? :: d.path
  }

  datatype Cleanup = Cleanup(effects: seq<Effect>, disk: set<string>)

  /** `effects` is what running `stack` newest first does, one effect per registration. */
  ghost predicate LastInFirstOut(effects: seq<Effect>, stack: seq<Deferred>) {
    |effects| == |stack| && forall k :: 0 <= k < |stack| ==> effects[k] == EffectOf(stack[|stack| - 1 - k])
  }

  /** Running the deferred calls on return: the most recently registered first, each removal
      deleting its path (a missing path is not an error the handler looks at). */
  function RunDeferred(stack: seq<Deferred>, disk: set<string>): (c: Cleanup)
    ensures |c.effects| == |stack|
    ensures forall k :: 0 <= k < |stack| ==> c.effects[k] == EffectOf(stack[|stack| - 1 - k])
    ensures c.disk == disk - RemovedBy(stack)
    decreases |stack|
  {
    if stack == [] then Cleanup([], disk)
    else
      var top := stack[|stack| - 1];
      var below := stack[..|stack| - 1];
      var after := match top case CloseFile(_) => disk case RemoveFile(p) => disk - {p};
      var rest := RunDeferred(below, after);
      assert stack == below + [top];
      assert RemovedBy(stack) == RemovedBy(below) + (if top.RemoveFile? then {top.path} else {});
      Cleanup([EffectOf(top)] + rest.effects, rest.disk)
  }

  /** Registering one more call removes one more path when it is a removal. */
  lemma RemovedByPush(stack: seq<Deferred>, d: Deferred)
    ensures RemovedBy([d] + stack) == RemovedBy(stack) + (if d.RemoveFile? then {d.path} else {})
  {
    assert forall e :: e in [d] + stack <==> e == d || e in stack;
  }

  /** Where a request has got to. */
  datatype Progress = Progress(
    steps: seq<Step>,
    registered: seq<Deferred>,
    disk: set<string>,
    puts: seq<PutCall>,
    updates: seq<Video>,
    record: Option<Video>)
  {
    function Then(s: Step): Progress { this.(steps := steps + [s]) }
    function Defer(d: Deferred): Progress { this.(registered := registered + [d]) }
  }

  /** The result of one request. */
  datatype Outcome = Outcome(
    reply: Reply,
    steps: seq<Step>,          // the steps that ran, in order
    registered: seq<Deferred>, // the defer stack when the handler returned, oldest first
    cleanup: seq<Effect>,      // what the deferred calls did, in the order they ran
    disk: set<string>,         // local files afterwards
    puts: seq<PutCall>,        // calls made to S3
    updates: seq<Video>,       // records passed to UpdateVideo
    record: Option<Video>)     // the handler's copy of the record on return

  /** Returning from the handler: the reply is written, then every registered call runs. */
  function Finish(p: Progress, reply: Reply): (o: Outcome)
    ensures o.reply == reply && o.steps == p.steps && o.registered == p.registered
    ensures o.puts == p.puts && o.updates == p.updates && o.record == p.record
    ensures o.disk == p.disk - RemovedBy(p.registered)
    ensures o.cleanup == RunDeferred(p.registered, p.disk).effects
    ensures LastInFirstOut(o.cleanup, o.registered)
  {
    var c := RunDeferred(p.registered, p.disk);
    Outcome(reply, p.steps, p.registered, c.effects, c.disk, p.puts, p.updates, p.record)
  }

  /** Reference behaviour of one request against bucket `bucket`, starting with the local files
      `disk`: parsing, authentication and the owner check. */
  function Expected(bucket: string, env: Env, disk: set<string>): (o: Outcome)
    ensures LastInFirstOut(o.cleanup, o.registered)
  {
    var p := Progress([ParseForm], [], disk, [], [], None);
    if !env.formParsed then Finish(p, ErrorReply(400, "Couldn't parse form")) else
    var p := p.Then(ParseID);
    if env.videoID.None? then Finish(p, ErrorReply(400, "Invalid ID")) else
    var p := p.Then(GetBearerToken);
    if env.bearer.None? then Finish(p, ErrorReply(401, "Couldn't find JWT")) else
    var p := p.Then(ValidateJWT);
    if env.jwtUser.None? then Finish(p, ErrorReply(401, "Couldn't validate JWT")) else
    Authenticated(bucket, env, p, env.jwtUser.value)
  }

  /** With the caller known as `userID`: fetching the record and the owner check. */
  function Authenticated(bucket: string, env: Env, p: Progress, userID: string): (o: Outcome)
    ensures LastInFirstOut(o.cleanup, o.registered)
  {
    var p := p.Then(GetVideo);
    if env.stored.None? then Finish(p, ErrorReply(500, "Couldn't get video")) else
    var video := env.stored.value;
    var p := p.(record := Some(video));
    if video.userID != userID then Finish(p, ErrorReply(401, "Not your video")) else
    Owned(bucket, env, p, video)
  }

  /** After the owner check: the file part, the media-type gate and the temporary file. */
  function Owned(bucket: string, env: Env, p: Progress, video: Video): (o: Outcome)
    ensures LastInFirstOut(o.cleanup, o.registered)
  {
    var p := p.Then(FormFile);
    // a failed FormFile leaves `file` and `header` nil; `defer file.Close()` then panics
    if env.partContentType.None? then Finish(p, Panicked) else
    var p := p.Defer(CloseFile(UploadPart)).Then(ParseMediaType);
    if env.mediaType.None? then Finish(p, ErrorReply(400, "Invalid Content-Type")) else
    var mediaType := env.mediaType.value;
    if mediaType != "video/mp4" then Finish(p, ErrorReply(400, "Invalid file type")) else
    var p := p.Then(CreateTemp);
    if env.tempName.None? then Finish(p, ErrorReply(500, "Couldn't create temp file")) else
    var temp := env.tempName.value;
    var p := p.(disk := p.disk + {temp}).Defer(RemoveFile(temp)).Defer(CloseFile(StagedFile(temp)));
    Staged(bucket, env, p, video, mediaType, temp)
  }

  /** With the upload staged in `temp`: copy, probe, seek, name and remux. */
  function Staged(bucket: string, env: Env, p: Progress, video: Video, mediaType: string, temp: string): (o: Outcome)
    ensures LastInFirstOut(o.cleanup, o.registered)
  {
    var p := p.Then(CopyToTemp);
    if !env.copied then Finish(p, ErrorReply(500, "Couldn't save file")) else
    // the probe's error is overwritten by the Seek's before anyone looks at it
    var ratio := GetVideoAspectRatio(env.probe).ratio;
    var p := p.Then(Probe).Then(Seek);
    if !env.seeked then Finish(p, ErrorReply(500, "Couldn't seek file")) else
    var p := p.Then(RandomName);
    if env.randomName.None? then Finish(p, ErrorReply(500, "Couldn't generate random ID")) else
    var key := KeyFor(ratio, env.randomName.value);
    var p := p.Then(Remux);
    var fast := ProcessVideoForFastStart(temp, env.remux.RemuxSucceeded?);
    var p := if env.remux.RemuxSucceeded? || env.remux.leftOutput
             then p.(disk := p.disk + {FastStartPath(temp)}) else p;
    if fast.failed then Finish(p, ErrorReply(500, "Couldn't process video")) else
    Remuxed(bucket, env, p, video, mediaType, key, fast.outputPath)
  }

  /** With the remuxed file at `out`: the upload and the record update. */
  function Remuxed(bucket: string, env: Env, p: Progress, video: Video, mediaType: string, key: string, out: string): (o: Outcome)
    ensures LastInFirstOut(o.cleanup, o.registered)
  {
    var p := p.Then(OpenOutput).Defer(RemoveFile(out)).Defer(CloseFile(OutputFile(out)));
    var p := p.Then(PutObject).(puts := p.puts + [PutCall(bucket, key, mediaType, out)]);
    if !env.putSucceeded then Finish(p, ErrorReply(500, "Couldn't upload video")) else
    var updated := video.(videoURL := Some(VideoURL(bucket, key)));
    var p := p.(record := Some(updated)).Then(UpdateVideo).(updates := p.updates + [updated]);
    Finish(p, NoReply)
  }

  /** The request gets past every check that precedes `os.CreateTemp`. */
  predicate PassesGates(env: Env) {
    env.formParsed && env.videoID.Some? && env.bearer.Some? && env.jwtUser.Some? && env.stored.Some? &&
    env.stored.value.userID == env.jwtUser.value && env.partContentType.Some? && env.mediaType == Some("video/mp4")
  }

  /** ... and the temporary file is created. */
  predicate IsStaged(env: Env) {
    PassesGates(env) && env.tempName.Some?
  }

  /** ... and it is copied, seeked and named, so that ffmpeg runs. */
  predicate ReachesRemux(env: Env) {
    IsStaged(env) && env.copied && env.seeked && env.randomName.Some?
  }

  /** ... and ffmpeg succeeds, so that the object is put. */
  predicate ReachesPut(env: Env) {
    ReachesRemux(env) && env.remux.RemuxSucceeded?
  }

  /** The name of the staged file ("" when there is none). */
  function TempOf(env: Env): string {
    if env.tempName.Some? then env.tempName.value else ""
  }

  /** Every defer the handler can register, in registration order. */
  function DeferStack(temp: string): seq<Deferred> {
    [CloseFile(UploadPart), RemoveFile(temp), CloseFile(StagedFile(temp)),
     RemoveFile(FastStartPath(temp)), CloseFile(OutputFile(FastStartPath(temp)))]
  }

  lemma NextStep(n: nat)
    requires n < |AllSteps|
    ensures AllSteps[..n] + [AllSteps[n]] == AllSteps[..n + 1]
  {
  }

  lemma RemuxedSteps(bucket: string, env: Env, p: Progress, video: Video, mediaType: string, key: string, out: string)
    requires p.steps == AllSteps[..13]
    ensures var o := Remuxed(bucket, env, p, video, mediaType, key, out);
      13 < |o.steps| <= |AllSteps| && o.steps == AllSteps[..|o.steps|]
  {
    NextStep(13);
    NextStep(14);
    NextStep(15);
  }

  lemma StagedSteps(bucket: string, env: Env, p: Progress, video: Video, mediaType: string, temp: string)
    requires p.steps == AllSteps[..8]
    ensures var o := Staged(bucket, env, p, video, mediaType, temp);
      8 < |o.steps| <= |AllSteps| && o.steps == AllSteps[..|o.steps|]
  {
    NextStep(8);
    NextStep(9);
    NextStep(10);
    NextStep(11);
    NextStep(12);
    if env.copied && env.seeked && env.randomName.Some? && env.remux.RemuxSucceeded? {
      var ratio := GetVideoAspectRatio(env.probe).ratio;
      var q := p.Then(CopyToTemp).Then(Probe).Then(Seek).Then(RandomName).Then(Remux).(disk := p.disk + {FastStartPath(temp)});
      assert q.steps == AllSteps[..13];
      RemuxedSteps(bucket, env, q, video, mediaType, KeyFor(ratio, env.randomName.value), FastStartPath(temp));
    }
  }

  lemma OwnedSteps(bucket: string, env: Env, p: Progress, video: Video)
    requires p.steps == AllSteps[..5]
    ensures var o := Owned(bucket, env, p, video);
      5 < |o.steps| <= |AllSteps| && o.steps == AllSteps[..|o.steps|]
  {
    NextStep(5);
    NextStep(6);
    NextStep(7);
    if env.partContentType.Some? && env.mediaType == Some("video/mp4") && env.tempName.Some? {
      var temp := env.tempName.value;
      var q0 := p.Then(FormFile).Defer(CloseFile(UploadPart)).Then(ParseMediaType).Then(CreateTemp);
      var q := q0.(disk := q0.disk + {temp}).Defer(RemoveFile(temp)).Defer(CloseFile(StagedFile(temp)));
      assert q.steps == AllSteps[..8];
      StagedSteps(bucket, env, q, video, "video/mp4", temp);
    }
  }

  /** The steps run are always an initial part of the source's order: nothing runs out of
      order, and nothing after a failing step runs. */
  lemma StepsFollowSourceOrder(bucket: string, env: Env, disk: set<string>)
    ensures var o := Expected(bucket, env, disk);
      0 < |o.steps| <= |AllSteps| && o.steps == AllSteps[..|o.steps|]
  {
    NextStep(1);
    NextStep(2);
    NextStep(3);
    NextStep(4);
    assert [ParseForm] == AllSteps[..1];
    if env.formParsed && env.videoID.Some? && env.bearer.Some? && env.jwtUser.Some? && env.stored.Some? &&
       env.stored.value.userID == env.jwtUser.value {
      var q := Progress([ParseForm], [], disk, [], [], None).Then(ParseID).Then(GetBearerToken).Then(ValidateJWT)
        .Then(GetVideo).(record := env.stored);
      assert q.steps == AllSteps[..5];
      OwnedSteps(bucket, env, q, env.stored.value);
    }
  }

  /** A request stopped before `os.CreateTemp` has run only the steps before it and written no
      local file, no S3 object and no record (GetVideo may already have read the record). */
  lemma StoppedBeforeStaging(bucket: string, env: Env, disk: set<string>)
    requires !PassesGates(env)
    ensures var o := Expected(bucket, env, disk);
      |o.steps| < 8 && o.disk == disk && o.puts == [] && o.updates == [] &&
      o.registered <= [CloseFile(UploadPart)]
  {
    if !env.formParsed || env.videoID.None? || env.bearer.None? || env.jwtUser.None? {
    } else if env.stored.None? || env.stored.value.userID != env.jwtUser.value {
    } else if env.partContentType.None? {
    } else {
      assert env.mediaType != Some("video/mp4");
    }
  }

  /** `os.CreateTemp` is called exactly when the form, the ID, the JWT, the owner check and the
      media-type gate all pass (the call itself may still fail); otherwise no local file, S3
      object or record is written. */
  lemma GatesBeforeStaging(bucket: string, env: Env, disk: set<string>)
    ensures var o := Expected(bucket, env, disk);
      (CreateTemp in o.steps <==> PassesGates(env)) &&
      (!PassesGates(env) ==> o.disk == disk && o.puts == [] && o.updates == [] &&
                             o.registered <= [CloseFile(UploadPart)])
  {
    var o := Expected(bucket, env, disk);
    StepsFollowSourceOrder(bucket, env, disk);
    assert forall k :: 0 <= k < |AllSteps| && AllSteps[k] == CreateTemp ==> k == 7;
    if PassesGates(env) {
      PassedGatesCreateTemp(bucket, env, disk);
      assert o.steps[7] == AllSteps[7];
    } else {
      StoppedBeforeStaging(bucket, env, disk);
      assert CreateTemp !in o.steps;
    }
  }

  /** Once the gates pass, `os.CreateTemp` runs, whatever it returns. */
  lemma PassedGatesCreateTemp(bucket: string, env: Env, disk: set<string>)
    requires PassesGates(env)
    ensures |Expected(bucket, env, disk).steps| >= 8
  {
    if env.tempName.Some? {
      var t := TempOf(env);
      ExpectedOnceStaged(bucket, env, disk);
      NextStep(1); NextStep(2); NextStep(3); NextStep(4); NextStep(5); NextStep(6); NextStep(7);
      assert StagingProgress(disk, env.stored.value, t).steps == AllSteps[..8];
      StagedSteps(bucket, env, StagingProgress(disk, env.stored.value, t), env.stored.value, "video/mp4", t);
    }
  }

  /** A caller who does not own the video gets 401 before the file part is even looked at. */
  lemma NonOwnerRejected(bucket: string, env: Env, disk: set<string>)
    requires env.formParsed && env.videoID.Some? && env.bearer.Some? && env.jwtUser.Some? && env.stored.Some?
    requires env.stored.value.userID != env.jwtUser.value
    ensures var o := Expected(bucket, env, disk);
      o.reply == ErrorReply(401, "Not your video") && FormFile !in o.steps && CreateTemp !in o.steps &&
      o.registered == [] && o.cleanup == [] && o.disk == disk && o.puts == [] && o.updates == [] &&
      o.record == env.stored
  {
  }

  /** Only a part whose media type is exactly video/mp4 is staged; anything else gets 400 with the
      upload part closed and nothing else done. */
  lemma MediaTypeGate(bucket: string, env: Env, disk: set<string>)
    requires env.formParsed && env.videoID.Some? && env.bearer.Some? && env.jwtUser.Some? && env.stored.Some?
    requires env.stored.value.userID == env.jwtUser.value && env.partContentType.Some?
    requires env.mediaType != Some("video/mp4")
    ensures var o := Expected(bucket, env, disk);
      o.reply.ErrorReply? && o.reply.code == 400 && CreateTemp !in o.steps &&
      o.cleanup == [Closed(UploadPart)] && o.disk == disk && o.puts == [] && o.updates == []
  {
  }

  /** A failed `r.FormFile` is a panic, before anything is registered or staged. */
  lemma MissingPartPanics(bucket: string, env: Env, disk: set<string>)
    requires env.formParsed && env.videoID.Some? && env.bearer.Some? && env.jwtUser.Some? && env.stored.Some?
    requires env.stored.value.userID == env.jwtUser.value && env.partContentType.None?
    ensures var o := Expected(bucket, env, disk);
      o.reply == Panicked && o.registered == [] && o.disk == disk && o.puts == []
  {
  }

  /** What the stages from the copy onwards register and leave on disk. */
  lemma StagedFiles(bucket: string, env: Env, p: Progress, video: Video, mediaType: string, temp: string)
    ensures var o := Staged(bucket, env, p, video, mediaType, temp);
      var out := FastStartPath(temp);
      var remuxRuns := env.copied && env.seeked && env.randomName.Some?;
      o.registered == p.registered + (if remuxRuns && env.remux.RemuxSucceeded? then [RemoveFile(out), CloseFile(OutputFile(out))] else []) &&
      o.disk == p.disk + (if remuxRuns && (env.remux.RemuxSucceeded? || env.remux.leftOutput) then {out} else {}) - RemovedBy(o.registered)
  {
  }

  /** The progress handed to `Staged` once the temporary file `temp` exists. */
  function StagingProgress(disk: set<string>, video: Video, temp: string): Progress {
    var p := Progress([ParseForm], [], disk, [], [], None).Then(ParseID).Then(GetBearerToken).Then(ValidateJWT)
      .Then(GetVideo).(record := Some(video));
    var p := p.Then(FormFile).Defer(CloseFile(UploadPart)).Then(ParseMediaType).Then(CreateTemp);
    p.(disk := p.disk + {temp}).Defer(RemoveFile(temp)).Defer(CloseFile(StagedFile(temp)))
  }

  lemma ExpectedOnceStaged(bucket: string, env: Env, disk: set<string>)
    requires IsStaged(env)
    ensures Expected(bucket, env, disk) ==
      Staged(bucket, env, StagingProgress(disk, env.stored.value, TempOf(env)), env.stored.value, "video/mp4", TempOf(env))
  {
  }

  lemma RemovedByDefers(temp: string, n: nat)
    requires n <= 5
    ensures RemovedBy(DeferStack(temp)[..n]) ==
      (if n >= 2 then {temp} else {}) + (if n >= 4 then {FastStartPath(temp)} else {})
  {
    var stack := DeferStack(temp)[..n];
    forall q | q in RemovedBy(stack)
      ensures q in (if n >= 2 then {temp} else {}) + (if n >= 4 then {FastStartPath(temp)} else {})
    {
      var d :| d in stack && d.RemoveFile? && d.path == q;
      var k :| 0 <= k < n && stack[k] == d;
    }
    if n >= 2 {
      assert stack[1] == RemoveFile(temp);
    }
    if n >= 4 {
      assert stack[3] == RemoveFile(FastStartPath(temp));
    }
  }

  /** What is registered is always an initial part of the handler's five defers: nothing, the
      upload part's Close, then the staged file's Remove and Close, then the output's. */
  lemma RegisteredDefers(bucket: string, env: Env, disk: set<string>)
    ensures var o := Expected(bucket, env, disk);
      var n := |o.registered|;
      (n == 0 || n == 1 || n == 3 || n == 5) && o.registered == DeferStack(TempOf(env))[..n] &&
      (n >= 3 <==> IsStaged(env)) && (n == 5 <==> ReachesPut(env))
  {
    if IsStaged(env) {
      var t := TempOf(env);
      ExpectedOnceStaged(bucket, env, disk);
      StagedFiles(bucket, env, StagingProgress(disk, env.stored.value, t), env.stored.value, "video/mp4", t);
      assert DeferStack(t)[..3] == [CloseFile(UploadPart), RemoveFile(t), CloseFile(StagedFile(t))];
      assert DeferStack(t)[..5] == DeferStack(t);
    } else {
      assert DeferStack(TempOf(env))[..1] == [CloseFile(UploadPart)];
    }
  }

  /** The files the handler creates: the staged file, and the remuxed output once ffmpeg has
      written one. */
  function Created(env: Env): set<string> {
    (if IsStaged(env) then {TempOf(env)} else {}) +
    (if ReachesRemux(env) && (env.remux.RemuxSucceeded? || env.remux.leftOutput) then {FastStartPath(TempOf(env))} else {})
  }

  /** The local files after any return: those there before and those created, less those whose
      removal was registered. */
  lemma DiskAfterReturn(bucket: string, env: Env, disk: set<string>)
    ensures var o := Expected(bucket, env, disk);
      o.disk == disk + Created(env) - RemovedBy(o.registered)
  {
    var o := Expected(bucket, env, disk);
    var t := TempOf(env);
    if IsStaged(env) {
      ExpectedOnceStaged(bucket, env, disk);
      StagedFiles(bucket, env, StagingProgress(disk, env.stored.value, t), env.stored.value, "video/mp4", t);
      assert StagingProgress(disk, env.stored.value, t).disk == disk + {t};
    } else {
      RegisteredDefers(bucket, env, disk);
      RemovedByDefers(t, |o.registered|);
      if PassesGates(env) {
        assert o.disk == disk;
      } else {
        StoppedBeforeStaging(bucket, env, disk);
      }
    }
  }

  /** Set reasoning shared by the cleanup lemmas. */
  lemma AfterRemovals(disk: set<string>, created: set<string>, registered: seq<Deferred>, after: set<string>)
    requires after == disk + created - RemovedBy(registered)
    ensures forall q :: q in disk && q !in after ==> RemoveFile(q) in registered
    ensures forall q :: RemoveFile(q) in registered ==> q !in after
    ensures created <= RemovedBy(registered) ==> after <= disk
  {
    forall q | q in disk && q !in after
      ensures RemoveFile(q) in registered
    {
      var d :| d in registered && d.RemoveFile? && d.path == q;
    }
    forall q | RemoveFile(q) in registered
      ensures q !in after
    {
      assert RemoveFile(q).path == q;
    }
  }

  /** Every file whose removal was registered is gone when the handler has returned, whatever
      the step it returned from. */
  lemma RegisteredFilesRemoved(bucket: string, env: Env, disk: set<string>)
    ensures var o := Expected(bucket, env, disk);
      forall q :: RemoveFile(q) in o.registered ==> q !in o.disk
  {
    var o := Expected(bucket, env, disk);
    DiskAfterReturn(bucket, env, disk);
    AfterRemovals(disk, Created(env), o.registered, o.disk);
  }

  /** The cleanup effects of a stack of three or five of the handler's defers. */
  lemma StackCleanup(t: string, n: nat, registered: seq<Deferred>, cleanup: seq<Effect>)
    requires (n == 3 || n == 5) && registered == DeferStack(t)[..n]
    requires LastInFirstOut(cleanup, registered)
    ensures |cleanup| >= 3 && cleanup[|cleanup| - 3..] == [Closed(StagedFile(t)), Removed(t), Closed(UploadPart)]
    ensures n == 5 ==> cleanup == [Closed(OutputFile(FastStartPath(t))), Removed(FastStartPath(t)),
                                   Closed(StagedFile(t)), Removed(t), Closed(UploadPart)]
  {
    assert registered[0] == CloseFile(UploadPart) && registered[1] == RemoveFile(t) &&
           registered[2] == CloseFile(StagedFile(t));
    assert cleanup[n - 3] == Closed(StagedFile(t)) && cleanup[n - 2] == Removed(t) && cleanup[n - 1] == Closed(UploadPart);
    if n == 5 {
      assert registered[3] == RemoveFile(FastStartPath(t)) && registered[4] == CloseFile(OutputFile(FastStartPath(t)));
      assert cleanup[0] == Closed(OutputFile(FastStartPath(t))) && cleanup[1] == Removed(FastStartPath(t));
    }
  }

  /** The staged file is gone on every return after it was created, and each file is closed
      before it is removed, the output file before the staged one. */
  lemma StagedFileCleanup(bucket: string, env: Env, disk: set<string>)
    requires IsStaged(env)
    ensures var o := Expected(bucket, env, disk);
      var t := TempOf(env);
      t !in o.disk && |o.cleanup| >= 3 &&
      o.cleanup[|o.cleanup| - 3..] == [Closed(StagedFile(t)), Removed(t), Closed(UploadPart)] &&
      (ReachesPut(env) ==> o.cleanup == [Closed(OutputFile(FastStartPath(t))), Removed(FastStartPath(t)),
                                         Closed(StagedFile(t)), Removed(t), Closed(UploadPart)])
  {
    var o := Expected(bucket, env, disk);
    var t := TempOf(env);
    RegisteredDefers(bucket, env, disk);
    RegisteredFilesRemoved(bucket, env, disk);
    assert o.registered[1] == RemoveFile(t);
    assert LastInFirstOut(o.cleanup, o.registered);
    StackCleanup(t, |o.registered|, o.registered, o.cleanup);
  }

  /** Unless ffmpeg failed after writing output, every file the handler creates has its
      removal registered. */
  lemma CreatedFilesRegistered(bucket: string, env: Env, disk: set<string>)
    requires !(ReachesRemux(env) && env.remux == RemuxFailed(true))
    ensures Created(env) <= RemovedBy(Expected(bucket, env, disk).registered)
  {
    RegisteredDefers(bucket, env, disk);
    RemovedByDefers(TempOf(env), |Expected(bucket, env, disk).registered|);
  }

  /** The handler deletes only files it registered, and leaves behind no file it created,
      except what a failed ffmpeg may have written, whose removal is never registered. */
  lemma NoOtherFileTouched(bucket: string, env: Env, disk: set<string>)
    ensures var o := Expected(bucket, env, disk);
      (forall q :: q in disk && q !in o.disk ==> RemoveFile(q) in o.registered) &&
      (!(ReachesRemux(env) && env.remux == RemuxFailed(true)) ==> o.disk <= disk)
  {
    var o := Expected(bucket, env, disk);
    DiskAfterReturn(bucket, env, disk);
    AfterRemovals(disk, Created(env), o.registered, o.disk);
    if !(ReachesRemux(env) && env.remux == RemuxFailed(true)) {
      CreatedFilesRegistered(bucket, env, disk);
    }
  }

  /** When ffmpeg fails the reply is 500, nothing is put, the staged file is removed, and the
      output path is never registered for removal, so a partial output file stays behind. */
  lemma RemuxFailure(bucket: string, env: Env, disk: set<string>)
    requires ReachesRemux(env) && env.remux.RemuxFailed?
    ensures var o := Expected(bucket, env, disk);
      var t := TempOf(env);
      o.reply == ErrorReply(500, "Couldn't process video") && o.puts == [] && o.updates == [] &&
      RemoveFile(FastStartPath(t)) !in o.registered && t !in o.disk &&
      (env.remux.leftOutput ==> FastStartPath(t) in o.disk)
  {
    FastStartPathDistinct(TempOf(env), TempOf(env));
  }

  lemma StagedProbeIrrelevant(bucket: string, env: Env, p: Progress, video: Video, mediaType: string, temp: string, other: ProbeRun)
    ensures var o1 := Staged(bucket, env, p, video, mediaType, temp);
      var o2 := Staged(bucket, env.(probe := other), p, video, mediaType, temp);
      o1.reply == o2.reply && o1.steps == o2.steps && o1.registered == o2.registered &&
      o1.cleanup == o2.cleanup && o1.disk == o2.disk && |o1.puts| == |o2.puts|
  {
  }

  /** The probe's result never ends the request: changing it changes nothing but the key. */
  lemma ProbeNeverAborts(bucket: string, env: Env, disk: set<string>, other: ProbeRun)
    ensures var o1 := Expected(bucket, env, disk);
      var o2 := Expected(bucket, env.(probe := other), disk);
      o1.reply == o2.reply && o1.steps == o2.steps && o1.registered == o2.registered &&
      o1.cleanup == o2.cleanup && o1.disk == o2.disk && |o1.puts| == |o2.puts|
  {
    if IsStaged(env) {
      var t := TempOf(env);
      var env' := env.(probe := other);
      assert IsStaged(env') && TempOf(env') == t;
      ExpectedOnceStaged(bucket, env, disk);
      ExpectedOnceStaged(bucket, env', disk);
      StagedProbeIrrelevant(bucket, env, StagingProgress(disk, env.stored.value, t), env.stored.value, "video/mp4", t, other);
    }
  }

  /** S3 is called at most once, exactly when ffmpeg has succeeded, with the remuxed file, the
      gated media type, and a key whose directory is the first stream's orientation. */
  lemma SinglePut(bucket: string, env: Env, disk: set<string>)
    ensures var o := Expected(bucket, env, disk);
      |o.puts| <= 1 && (|o.puts| == 1 <==> ReachesPut(env)) &&
      (ReachesPut(env) ==>
        o.puts[0] == PutCall(bucket, Directory(OrientationOf(env.probe)) + env.randomName.value,
                             "video/mp4", FastStartPath(TempOf(env))))
  {
    if ReachesPut(env) {
      KeyFollowsFirstStream(env.probe, env.randomName.value);
    }
  }

  /** A probe that fails (tool error, bad JSON, no streams) files the video under other/. */
  lemma FailedProbeFilesUnderOther(bucket: string, env: Env, disk: set<string>)
    requires ReachesPut(env) && GetVideoAspectRatio(env.probe).err.Some?
    ensures Expected(bucket, env, disk).puts == [PutCall(bucket, "other/" + env.randomName.value, "video/mp4", FastStartPath(TempOf(env)))]
  {
    SinglePut(bucket, env, disk);
  }

  /** The record is changed and written only after a successful put, and then only its
      VideoURL, which becomes the public locator of the key just put; after a failed put the
      reply is 500 and the record is as fetched. */
  lemma RecordSetAfterPut(bucket: string, env: Env, disk: set<string>)
    ensures var o := Expected(bucket, env, disk);
      (o.updates != [] <==> ReachesPut(env) && env.putSucceeded) &&
      (o.updates != [] ==>
        |o.puts| == 1 && o.updates == [env.stored.value.(videoURL := Some(VideoURL(bucket, o.puts[0].key)))] &&
        o.record == Some(o.updates[0])) &&
      (o.updates == [] ==> o.record.None? || o.record == env.stored) &&
      (ReachesPut(env) && !env.putSucceeded ==> o.record == env.stored) &&
      (ReachesPut(env) && !env.putSucceeded ==> o.reply == ErrorReply(500, "Couldn't upload video"))
  {
  }

  /** The handler ignores UpdateVideo's error: the outcome is the same either way. */
  lemma UpdateErrorIgnored(bucket: string, env: Env, disk: set<string>, succeeded: bool)
    ensures Expected(bucket, env.(updateSucceeded := succeeded), disk) == Expected(bucket, env, disk)
  {
  }

  /** A request that goes all the way writes no response of its own (net/http then answers 200
      with an empty body); every other one writes an error or panics. */
  lemma SuccessWritesNoBody(bucket: string, env: Env, disk: set<string>)
    ensures var o := Expected(bucket, env, disk);
      o.reply == NoReply <==> ReachesPut(env) && env.putSucceeded
  {
    if !PassesGates(env) {
      if !env.formParsed || env.videoID.None? || env.bearer.None? || env.jwtUser.None? {
      } else if env.stored.None? || env.stored.value.userID != env.jwtUser.value {
      } else if env.partContentType.None? {
      }
    } else if env.tempName.Some? {
      ExpectedOnceStaged(bucket, env, disk);
    }
  }

  /** A wide video: stored under landscape/ with its random name, recorded at that key's URL,
      and no temporary file left. */
  lemma LandscapeUpload(bucket: string, env: Env, disk: set<string>)
    requires ReachesPut(env) && env.putSucceeded
    requires env.probe.ProbeDecoded? && |env.probe.streams| > 0 && env.probe.streams[0].displayAspectRatio == "16:9"
    requires TempOf(env) !in disk && FastStartPath(TempOf(env)) !in disk
    ensures var o := Expected(bucket, env, disk);
      var key := "landscape/" + env.randomName.value;
      o.puts == [PutCall(bucket, key, "video/mp4", FastStartPath(TempOf(env)))] &&
      o.record.Some? && o.record.value.videoURL == Some(VideoURL(bucket, key)) && o.disk == disk
  {
    SinglePut(bucket, env, disk);
    RecordSetAfterPut(bucket, env, disk);
  }

  /** A 4:3 video is stored under other/. */
  lemma FourByThreeUpload(bucket: string, env: Env, disk: set<string>)
    requires ReachesPut(env)
    requires env.probe.ProbeDecoded? && |env.probe.streams| > 0 && env.probe.streams[0].displayAspectRatio == "4:3"
    ensures Expected(bucket, env, disk).puts[0].key == "other/" + env.randomName.value
  {
    SinglePut(bucket, env, disk);
  }

  /** The handler's world: local temporary storage, and what the request being served did:
      its steps, its deferred calls, its S3 and database calls, its copy of the record and its
      reply. */
  class Server {
    const bucket: string
    var disk: set<string>       // files on local storage
    var steps: seq<Step>        // the steps of the current request, in order
    var cleanup: seq<Effect>    // what its deferred calls did, in order
    var puts: seq<PutCall>      // its PutObject calls
    var updates: seq<Video>     // its UpdateVideo calls
    var record: Option<Video>   // its copy of the video record
    var reply: Reply

    constructor(bucket: string, disk: set<string>)
      ensures this.bucket == bucket && this.disk == disk
      ensures puts == [] && updates == [] && steps == [] && cleanup == [] && record == None && reply == NoReply
    {
      this.bucket := bucket;
      this.disk := disk;
      puts, updates, steps, cleanup, record, reply := [], [], [], [], None, NoReply;
    }

    ghost function Now(deferred: seq<Deferred>): Progress
      reads this
    {
      Progress(steps, deferred, disk, puts, updates, record)
    }

    /** The state the request ends in is the outcome `o`. */
    ghost predicate Ended(o: Outcome)
      reads this
    {
      reply == o.reply && steps == o.steps && cleanup == o.cleanup && disk == o.disk &&
      puts == o.puts && updates == o.updates && record == o.record
    }

    /** One run of handlerUploadVideo, from parsing the form to the record update and the
        deferred calls; the stages after authentication are the Serve methods below. */
    method HandlerUploadVideo(env: Env)
      modifies this
      ensures Ended(Expected(bucket, env, old(disk)))
    {
      var deferred: seq<Deferred> := [];
      steps, cleanup, puts, updates, record := [], [], [], [], None;
      steps := steps + [ParseForm];
      if !env.formParsed { Return(ErrorReply(400, "Couldn't parse form"), deferred); return; }
      steps := steps + [ParseID];
      if env.videoID.None? { Return(ErrorReply(400, "Invalid ID"), deferred); return; }
      steps := steps + [GetBearerToken];
      if env.bearer.None? { Return(ErrorReply(401, "Couldn't find JWT"), deferred); return; }
      steps := steps + [ValidateJWT];
      if env.jwtUser.None? { Return(ErrorReply(401, "Couldn't validate JWT"), deferred); return; }
      var userID := env.jwtUser.value;
      ghost var p := Progress([ParseForm, ParseID, GetBearerToken, ValidateJWT], [], old(disk), [], [], None);
      assert Now(deferred) == p;
      assert Progress([ParseForm], [], old(disk), [], [], None).Then(ParseID).Then(GetBearerToken)
        .Then(ValidateJWT) == p;
      ServeAuthenticated(env, userID, deferred);
      assert Expected(bucket, env, old(disk)) == Authenticated(bucket, env, p, userID);
    }

    /** From `cfg.db.GetVideo` to the owner check. */
    method ServeAuthenticated(env: Env, userID: string, deferred: seq<Deferred>)
      requires cleanup == []
      modifies this
      ensures Ended(Authenticated(bucket, env, old(Now(deferred)), userID))
    {
      steps := steps + [GetVideo];
      if env.stored.None? { Return(ErrorReply(500, "Couldn't get video"), deferred); return; }
      var video := env.stored.value;
      record := Some(video);
      if video.userID != userID { Return(ErrorReply(401, "Not your video"), deferred); return; }
      ServeOwned(env, video, deferred);
    }

    /** From `r.FormFile` to the registration of the temporary file's cleanup. */
    method ServeOwned(env: Env, video: Video, deferred: seq<Deferred>)
      requires cleanup == []
      modifies this
      ensures Ended(Owned(bucket, env, old(Now(deferred)), video))
    {
      var deferred := deferred;
      steps := steps + [FormFile];
      if env.partContentType.None? { Return(Panicked, deferred); return; }
      deferred := deferred + [CloseFile(UploadPart)];
      steps := steps + [ParseMediaType];
      if env.mediaType.None? { Return(ErrorReply(400, "Invalid Content-Type"), deferred); return; }
      var mediaType := env.mediaType.value;
      if mediaType != "video/mp4" { Return(ErrorReply(400, "Invalid file type"), deferred); return; }
      steps := steps + [CreateTemp];
      if env.tempName.None? { Return(ErrorReply(500, "Couldn't create temp file"), deferred); return; }
      var temp := env.tempName.value;
      disk := disk + {temp};
      deferred := deferred + [RemoveFile(temp)];
      deferred := deferred + [CloseFile(StagedFile(temp))];
      ServeStaged(env, video, mediaType, temp, deferred);
    }

    /** From the copy into the temporary file to the remux. */
    method ServeStaged(env: Env, video: Video, mediaType: string, temp: string, deferred: seq<Deferred>)
      requires cleanup == []
      modifies this
      ensures Ended(Staged(bucket, env, old(Now(deferred)), video, mediaType, temp))
    {
      steps := steps + [CopyToTemp];
      if !env.copied { Return(ErrorReply(500, "Couldn't save file"), deferred); return; }
      steps := steps + [Probe];
      var ratio := GetVideoAspectRatio(env.probe).ratio;
      steps := steps + [Seek];
      if !env.seeked { Return(ErrorReply(500, "Couldn't seek file"), deferred); return; }
      steps := steps + [RandomName];
      var name := if env.randomName.Some? then env.randomName.value else "";
      var key := KeyFor(ratio, name);
      if env.randomName.None? { Return(ErrorReply(500, "Couldn't generate random ID"), deferred); return; }
      steps := steps + [Remux];
      var fast := ProcessVideoForFastStart(temp, env.remux.RemuxSucceeded?);
      if env.remux.RemuxSucceeded? || env.remux.leftOutput {
        disk := disk + {FastStartPath(temp)};
      }
      if fast.failed { Return(ErrorReply(500, "Couldn't process video"), deferred); return; }
      ServeRemuxed(env, video, mediaType, key, fast.outputPath, deferred);
    }

    /** From opening the remuxed file to the record update. */
    method ServeRemuxed(env: Env, video: Video, mediaType: string, key: string, out: string, deferred: seq<Deferred>)
      requires cleanup == []
      modifies this
      ensures Ended(Remuxed(bucket, env, old(Now(deferred)), video, mediaType, key, out))
    {
      var deferred := deferred;
      steps := steps + [OpenOutput];
      deferred := deferred + [RemoveFile(out)];
      deferred := deferred + [CloseFile(OutputFile(out))];
      steps := steps + [PutObject];
      puts := puts + [PutCall(bucket, key, mediaType, out)];
      if !env.putSucceeded { Return(ErrorReply(500, "Couldn't upload video"), deferred); return; }
      var updated := video.(videoURL := Some(VideoURL(bucket, key)));
      record := Some(updated);
      steps := steps + [UpdateVideo];
      updates := updates + [updated];
      Return(NoReply, deferred);
    }

    /** A return from the handler: the reply is left on the response, then the deferred calls
        run from the most recently registered down, each Remove deleting its file. */
    method Return(r: Reply, deferred: seq<Deferred>)
      requires cleanup == []
      modifies this
      ensures Ended(Finish(old(Now(deferred)), r))
    {
      reply := r;
      var i := |deferred|;
      while i > 0
        invariant 0 <= i <= |deferred|
        invariant |cleanup| == |deferred| - i
        invariant forall k :: 0 <= k < |cleanup| ==> cleanup[k] == EffectOf(deferred[|deferred| - 1 - k])
        invariant disk == old(disk) - RemovedBy(deferred[i..])
        invariant steps == old(steps) && puts == old(puts) && updates == old(updates) && record == old(record)
        invariant reply == r
      {
        var top := deferred[i - 1];
        RemovedByPush(deferred[i..], top);
        assert deferred[i - 1..] == [top] + deferred[i..];
        match top {
          case CloseFile(h) =>
            cleanup := cleanup + [Closed(h)];
          case RemoveFile(path) =>
            cleanup := cleanup + [Removed(path)];
            disk := disk - {path};
        }
        i := i - 1;
      }
      assert deferred[0..] == deferred;
      ghost var o := Finish(old(Now(deferred)), r);
      assert |o.cleanup| == |cleanup| && forall k :: 0 <= k < |cleanup| ==> o.cleanup[k] == cleanup[k];
    }
  }
}
