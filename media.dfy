/** The pure pieces of the video upload handler: reading the aspect ratio out of the decoded
    ffprobe output, the ratio-to-directory switch that builds the storage key, the path the
    fast-start remux writes to, and the public URL recorded for the uploaded object. */
module Media {
  import opened Common

  /** One entry of the `streams` array of ffprobe's JSON output; only the field decoded. */
  datatype Stream = Stream(displayAspectRatio: string)

  /** What running ffprobe and decoding its output can give. */
  datatype ProbeRun =
    | ProbeExecFailed                 // the process exits non-zero
    | ProbeOutputInvalid              // json.Unmarshal rejects stdout
    | ProbeDecoded(streams: seq<Stream>)

  datatype ProbeError = ExecFailed | InvalidJson | NoStreams

  /** The pair `(string, error)` getVideoAspectRatio returns. */
  datatype AspectRatio = AspectRatio(ratio: string, err: Option<ProbeError>)

  /** getVideoAspectRatio after the tool has run: the first stream's display aspect ratio,
      kept when it is exactly "16:9" or "9:16" and collapsed to "other" otherwise. */
  function GetVideoAspectRatio(run: ProbeRun): (r: AspectRatio)
    ensures r.err.Some? ==> r.ratio == ""
    ensures r.err == Some(ExecFailed) <==> run.ProbeExecFailed?
    ensures r.err == Some(InvalidJson) <==> run.ProbeOutputInvalid?
    ensures r.err == Some(NoStreams) <==> run.ProbeDecoded? && |run.streams| == 0
    ensures r.err.None? ==> r.ratio == "16:9" || r.ratio == "9:16" || r.ratio == "other"
    ensures r.err.None? ==> run.ProbeDecoded? && |run.streams| > 0
    ensures r.err.None? ==> (r.ratio == "other" <==>
      run.streams[0].displayAspectRatio != "16:9" && run.streams[0].displayAspectRatio != "9:16")
    ensures r.err.None? && r.ratio != "other" ==> r.ratio == run.streams[0].displayAspectRatio
  {
    match run
    case ProbeExecFailed => AspectRatio("", Some(ExecFailed))
    case ProbeOutputInvalid => AspectRatio("", Some(InvalidJson))
    case ProbeDecoded(streams) =>
      if |streams| == 0 then AspectRatio("", Some(NoStreams))
      else
        var ratio := streams[0].displayAspectRatio;
        if ratio == "16:9" || ratio == "9:16" then AspectRatio(ratio, None)
        else AspectRatio("other", None)
  }

  /** The orientation categories the storage keys are grouped by. */
  datatype Orientation = Landscape | Portrait | Other

  /** Reference classification of a display aspect ratio: exact matches only. */
  function Classify(ratio: string): Orientation {
    if ratio == "16:9" then Landscape else if ratio == "9:16" then Portrait else Other
  }

  /** The orientation of the uploaded video: that of its first stream, Other when there is none
      or the probe failed. */
  function OrientationOf(run: ProbeRun): Orientation {
    if run.ProbeDecoded? && |run.streams| > 0 then Classify(run.streams[0].displayAspectRatio) else Other
  }

  function Directory(o: Orientation): string {
    match o
    case Landscape => "landscape/"
    case Portrait => "portrait/"
    case Other => "other/"
  }

  /** The switch on the ratio that prefixes the random name: for every string, the key is the
      directory of the ratio's classification followed by the name. */
  function KeyFor(ratio: string, name: string): (key: string)
    ensures key == Directory(Classify(ratio)) + name
  {
    if ratio == "16:9" then "landscape/" + name
    else if ratio == "9:16" then "portrait/" + name
    else "other/" + name
  }

  /** Partner of KeyFor: reads the category and the random name back out of a key. */
  function ParseKey(key: string): Option<(Orientation, string)> {
    if "landscape/" <= key then Some((Landscape, key[|"landscape/"|..]))
    else if "portrait/" <= key then Some((Portrait, key[|"portrait/"|..]))
    else if "other/" <= key then Some((Other, key[|"other/"|..]))
    else None
  }

  /** Every key can be read back: its category and its name are determined by it. */
  lemma ParseKeyFor(ratio: string, name: string)
    ensures ParseKey(KeyFor(ratio, name)) == Some((Classify(ratio), name))
  {
    var key := KeyFor(ratio, name);
    match Classify(ratio)
    case Landscape =>
      assert key == "landscape/" + name;
      assert "landscape/" <= key;
      assert key[|"landscape/"|..] == name;
    case Portrait =>
      assert key == "portrait/" + name;
      assert key[0] == 'p';
      assert !("landscape/" <= key);
      assert "portrait/" <= key;
      assert key[|"portrait/"|..] == name;
    case Other =>
      assert key == "other/" + name;
      assert key[0] == 'o';
      assert !("landscape/" <= key) && !("portrait/" <= key);
      assert "other/" <= key;
      assert key[|"other/"|..] == name;
  }

  /** Distinct names, or distinct categories, never share a key. */
  lemma KeyForInjective(r1: string, n1: string, r2: string, n2: string)
    requires KeyFor(r1, n1) == KeyFor(r2, n2)
    ensures Classify(r1) == Classify(r2) && n1 == n2
  {
    ParseKeyFor(r1, n1);
    ParseKeyFor(r2, n2);
  }

  /** ffprobe is run with `-show_streams` and no stream selection, so the first stream may be
      an audio stream, which has no display aspect ratio and decodes to "". Such a video is
      filed under other/ whatever its video stream's ratio. */
  lemma AudioFirstStreamFilesUnderOther(audio: Stream, rest: seq<Stream>, name: string)
    requires audio.displayAspectRatio == ""
    ensures var run := ProbeDecoded([audio] + rest);
      GetVideoAspectRatio(run) == AspectRatio("other", None) &&
      KeyFor(GetVideoAspectRatio(run).ratio, name) == "other/" + name
  {
  }

  /** From the probe run to the key: the key's directory is the orientation of the first stream,
      and every failure of the probe files the video under other/. */
  lemma KeyFollowsFirstStream(run: ProbeRun, name: string)
    ensures KeyFor(GetVideoAspectRatio(run).ratio, name) == Directory(OrientationOf(run)) + name
  {
  }

  const FastStartSuffix: string := "-faststart.mp4"

  /** The output path processVideoForFastStart hands to ffmpeg; the input can be read back
      from it. */
  function FastStartPath(path: string): (out: string)
    ensures InputOfFastStartPath(out) == Some(path)
  {
    var out := path + FastStartSuffix;
    assert out[|out| - |FastStartSuffix|..] == FastStartSuffix;
    assert out[..|out| - |FastStartSuffix|] == path;
    out
  }

  /** The pair `(string, error)` processVideoForFastStart returns. */
  datatype FastStartResult = FastStartResult(outputPath: string, failed: bool)

  /** processVideoForFastStart with the ffmpeg run as an input: the output path on success,
      the empty string with an error otherwise. */
  function ProcessVideoForFastStart(path: string, ffmpegSucceeded: bool): (r: FastStartResult)
    ensures r.failed <==> !ffmpegSucceeded
    ensures r.failed ==> r.outputPath == ""
    ensures !r.failed ==> InputOfFastStartPath(r.outputPath) == Some(path)
  {
    if ffmpegSucceeded then
      FastStartResult(FastStartPath(path), false)
    else FastStartResult("", true)
  }

  /** Partner of FastStartPath: the input path an output path was derived from. */
  function InputOfFastStartPath(out: string): Option<string> {
    if |out| >= |FastStartSuffix| && out[|out| - |FastStartSuffix|..] == FastStartSuffix
    then Some(out[..|out| - |FastStartSuffix|])
    else None
  }

  /** The remux output is never the staged file itself, and distinct inputs give distinct
      outputs, so removing one never removes the other. */
  lemma FastStartPathDistinct(p: string, q: string)
    ensures FastStartPath(p) != p
    ensures FastStartPath(p) == FastStartPath(q) ==> p == q
  {
    assert |FastStartPath(p)| == |p| + 14;
  }

  const UrlHost: string := ".s3.localhost.localstack.cloud:4566/"
  const UrlQuery: string := "?dummy=amazonaws.com"

  /** The locator the handler records: the bucket's LocalStack endpoint, the key, and a dummy
      query. The key can be read back from it. */
  function VideoURL(bucket: string, key: string): (url: string)
    ensures KeyOfVideoURL(bucket, url) == Some(key)
  {
    var head := "http://" + bucket + UrlHost;
    var url := head + key + UrlQuery;
    assert head <= url;
    assert url[|url| - |UrlQuery|..] == UrlQuery;
    assert url[|head|..|url| - |UrlQuery|] == key;
    assert url == "http://" + bucket + UrlHost + key + UrlQuery;
    url
  }

  /** Partner of VideoURL: the key a locator of the given bucket points at. */
  function KeyOfVideoURL(bucket: string, url: string): Option<string> {
    var head := "http://" + bucket + UrlHost;
    if |url| >= |head| + |UrlQuery| && head <= url && url[|url| - |UrlQuery|..] == UrlQuery
    then Some(url[|head|..|url| - |UrlQuery|])
    else None
  }

  /** So one bucket never gets the same locator for two keys. */
  lemma VideoURLInjective(bucket: string, k1: string, k2: string)
    requires VideoURL(bucket, k1) == VideoURL(bucket, k2)
    ensures k1 == k2
  {
  }

  /** The in-memory limit of the video form, `10 << 30` as a Go int64. */
  const VideoMaxMemory: int := ((10 as bv64) << 30) as int

  /** It is 10 GiB (the source's comment says 1 GB). */
  lemma VideoMaxMemoryValue()
    ensures VideoMaxMemory == 10 * 1024 * 1024 * 1024 == 10737418240
  {
  }
}
