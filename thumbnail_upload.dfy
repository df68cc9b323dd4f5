/** handlerUploadThumbnail: a fail-fast sequence of steps with the calls it makes into code
    outside this model (UUID parsing, JWT checks, multipart parsing, the database) as outcomes in
    `Env`, and the data URL it stores: the part's bytes in standard Base 64 with padding (section
    4 of RFC 4648) inside a `data:` URL (RFC 2397). */
module ThumbnailUpload {
  import opened Common
  import opened Base64

  /** The in-memory limit of the thumbnail form, `10 << 20` as a Go int64. */
  const ThumbnailMaxMemory: int := ((10 as bv64) << 20) as int

  /** It is 10 MiB, as the source's comment says. */
  lemma ThumbnailMaxMemoryValue()
    ensures ThumbnailMaxMemory == 10 * 1024 * 1024 == 10485760
  {
  }

  const DataPrefix: string := "data:"
  const Base64Marker: string := ";base64,"

  /** The locator stored for a thumbnail: the part's Content-Type header, taken as it is, and
      the image bytes in Base 64. Both come back out of it, for every content type, even one
      containing `;`. */
  function DataURL(contentType: string, image: seq<Byte>): (url: string)
    ensures SplitDataURL(url) == Some((contentType, image))
  {
    EncodingHasNoSemicolon(image);
    SplitDataURLOf(contentType, Encode(image));
    DecodeEncode(image);
    DataPrefix + contentType + Base64Marker + Encode(image)
  }

  /** The last position of `c` in `s`. */
  function LastIndexOf(s: string, c: char): (r: Option<nat>)
    ensures r.Some? ==> r.value < |s| && s[r.value] == c && forall k :: r.value < k < |s| ==> s[k] != c
    ensures r.None? ==> forall k :: 0 <= k < |s| ==> s[k] != c
    decreases |s|
  {
    if |s| == 0 then None
    else if s[|s| - 1] == c then Some(|s| - 1)
    else LastIndexOf(s[..|s| - 1], c)
  }

  /** Partner of DataURL: reads the media type and the image back. The payload is split off at
      the last `;`, which no Base 64 text contains, so any content type, even one with `;` in it,
      comes back unchanged. */
  function SplitDataURL(url: string): Option<(string, seq<Byte>)> {
    if !(DataPrefix <= url) then None
    else match LastIndexOf(url, ';')
      case None => None
      case Some(k) =>
        if k < |DataPrefix| || !(Base64Marker <= url[k..]) then None
        else match Decode(url[k + |Base64Marker|..])
          case None => None
          case Some(image) => Some((url[|DataPrefix|..k], image))
  }

  /** The payload of the URL is exactly the encoding: 4 * ceil(n / 3) characters of the
      alphabet of section 4 of RFC 4648, ending in the (3 - n % 3) % 3 pads that section
      requires. */
  lemma DataURLPayload(contentType: string, image: seq<Byte>)
    ensures var url := DataURL(contentType, image);
      var start := |DataPrefix + contentType + Base64Marker|;
      start <= |url| && url[..start] == DataPrefix + contentType + Base64Marker &&
      url[start..] == Encode(image) && |url| - start == 4 * ((|image| + 2) / 3) &&
      Padded(url[start..], (3 - |image| % 3) % 3)
  {
    EncodeAlphabet(image);
    var url := DataURL(contentType, image);
    var start := |DataPrefix + contentType + Base64Marker|;
    assert url == (DataPrefix + contentType + Base64Marker) + Encode(image);
  }

  /** No Base 64 text contains a `;`. */
  lemma EncodingHasNoSemicolon(image: seq<Byte>)
    ensures forall i :: 0 <= i < |Encode(image)| ==> Encode(image)[i] != ';'
  {
    EncodeAlphabet(image);
  }

  /** A `c` with none after it is the last one. */
  lemma LastIndexIs(s: string, c: char, k: nat)
    requires k < |s| && s[k] == c && forall j :: k < j < |s| ==> s[j] != c
    ensures LastIndexOf(s, c) == Some(k)
  {
  }

  /** In `<head>;base64,<payload>` with no `;` in the payload, the last `;` is the one that
      opens the Base 64 marker. */
  lemma LastSemicolonOf(url: string, head: string, payload: string)
    requires url == head + Base64Marker + payload
    requires forall i :: 0 <= i < |payload| ==> payload[i] != ';'
    ensures LastIndexOf(url, ';') == Some(|head|)
  {
    var k := |head|;
    assert url[k] == ';';
    forall j | k < j < |url|
      ensures url[j] != ';'
    {
      if j < k + |Base64Marker| {
        assert url[j] == Base64Marker[j - k];
      } else {
        assert url[j] == payload[j - k - |Base64Marker|];
      }
    }
    LastIndexIs(url, ';', k);
  }

  /** SplitDataURL on a composed URL splits at the marker and decodes the payload. */
  lemma SplitDataURLOf(contentType: string, payload: string)
    requires forall i :: 0 <= i < |payload| ==> payload[i] != ';'
    ensures SplitDataURL(DataPrefix + contentType + Base64Marker + payload) ==
      match Decode(payload) case None => None case Some(image) => Some((contentType, image))
  {
    var url := DataPrefix + contentType + Base64Marker + payload;
    var k := |DataPrefix| + |contentType|;
    LastSemicolonOf(url, DataPrefix + contentType, payload);
    DataURLParts(contentType, payload);
    assert url[k + |Base64Marker|..] == payload;
  }

  /** Where the pieces of a data URL sit. */
  lemma DataURLParts(contentType: string, e: string)
    ensures var url := DataPrefix + contentType + Base64Marker + e;
      var k := |DataPrefix| + |contentType|;
      DataPrefix <= url && k < |url| && Base64Marker <= url[k..] &&
      url[k + |Base64Marker|..] == e && url[|DataPrefix|..k] == contentType
  {
    var url := DataPrefix + contentType + Base64Marker + e;
    var k := |DataPrefix| + |contentType|;
    assert url == (DataPrefix + contentType) + (Base64Marker + e);
    assert url[k..] == Base64Marker + e;
  }

  /** Different content types or images never give the same URL. */
  lemma DataURLInjective(c1: string, i1: seq<Byte>, c2: string, i2: seq<Byte>)
    requires DataURL(c1, i1) == DataURL(c2, i2)
    ensures c1 == c2 && i1 == i2
  {
    assert SplitDataURL(DataURL(c1, i1)) == Some((c1, i1));
  }

  /** The file part: its Content-Type header and its bytes. */
  datatype Part = Part(contentType: string, content: seq<Byte>)

  /** The outcomes of every external call, for one request. */
  datatype Env = Env(
    videoID: Option<string>,  // uuid.Parse(r.PathValue("videoID"))
    bearer: Option<string>,   // auth.GetBearerToken(r.Header)
    jwtUser: Option<string>,  // auth.ValidateJWT(token, cfg.jwtSecret)
    formParsed: bool,         // r.ParseMultipartForm(10 << 20)
    part: Option<Part>,       // r.FormFile("thumbnail")
    readSucceeded: bool,      // io.ReadAll(file)
    stored: Option<Video>,    // cfg.db.GetVideo(videoID)
    updateSucceeded: bool)    // cfg.db.UpdateVideo(video)

  /** The handler's steps, in the order of the source. */
  datatype Step = ParseID | GetBearerToken | ValidateJWT | ParseForm | FormFile | ReadAll | GetVideo | UpdateVideo

  const AllSteps: seq<Step> := [ParseID, GetBearerToken, ValidateJWT, ParseForm, FormFile, ReadAll, GetVideo, UpdateVideo]

  /** The result of one request: the reply, the steps run in order, the records passed to
      UpdateVideo, and the handler's copy of the record on return. */
  datatype Outcome = Outcome(reply: Reply, steps: seq<Step>, updates: seq<Video>, record: Option<Video>)

  /** Reference behaviour of one request. Every return writes a response, an error or the JSON
      record, and UpdateVideo is called at most once; a JSON reply carries the one record
      that was passed to UpdateVideo. */
  function Expected(env: Env): (o: Outcome)
    ensures o.reply.ErrorReply? || o.reply.JsonReply?
    ensures |o.updates| <= 1
    ensures o.reply.JsonReply? ==>
      |o.updates| == 1 && o.reply == JsonReply(200, o.updates[0]) && o.record == Some(o.updates[0])
  {
    var s := [ParseID];
    if env.videoID.None? then Outcome(ErrorReply(400, "Invalid ID"), s, [], None) else
    var s := s + [GetBearerToken];
    if env.bearer.None? then Outcome(ErrorReply(401, "Couldn't find JWT"), s, [], None) else
    var s := s + [ValidateJWT];
    if env.jwtUser.None? then Outcome(ErrorReply(401, "Couldn't validate JWT"), s, [], None) else
    var s := s + [ParseForm];
    if !env.formParsed then Outcome(ErrorReply(400, "Couldn't parse form"), s, [], None) else
    var s := s + [FormFile];
    if env.part.None? then Outcome(ErrorReply(400, "Couldn't get file"), s, [], None) else
    var part := env.part.value;
    var s := s + [ReadAll];
    if !env.readSucceeded then Outcome(ErrorReply(500, "Couldn't read file"), s, [], None) else
    var s := s + [GetVideo];
    if env.stored.None? then Outcome(ErrorReply(500, "Couldn't get video"), s, [], None) else
    var video := env.stored.value;
    if video.userID != env.jwtUser.value then Outcome(ErrorReply(401, "Not your video"), s, [], Some(video)) else
    var updated := video.(thumbnailURL := Some(DataURL(part.contentType, part.content)));
    var s := s + [UpdateVideo];
    if !env.updateSucceeded then Outcome(ErrorReply(500, "Couldn't update video"), s, [updated], Some(updated))
    else Outcome(JsonReply(200, updated), s, [updated], Some(updated))
  }

  /** Every check up to and including the owner check passes. */
  predicate ReachesUpdate(env: Env) {
    env.videoID.Some? && env.bearer.Some? && env.jwtUser.Some? && env.formParsed && env.part.Some? &&
    env.readSucceeded && env.stored.Some? && env.stored.value.userID == env.jwtUser.value
  }

  /** An ID that does not parse is answered 400 before the bearer token is looked at. */
  lemma InvalidIDFirst(env: Env)
    requires env.videoID.None?
    ensures Expected(env) == Outcome(ErrorReply(400, "Invalid ID"), [ParseID], [], None)
  {
  }

  /** A missing or invalid JWT is answered 401 before the form is parsed. */
  lemma JWTBeforeForm(env: Env)
    requires env.videoID.Some? && (env.bearer.None? || env.jwtUser.None?)
    ensures var o := Expected(env);
      o.reply.ErrorReply? && o.reply.code == 401 && ParseForm !in o.steps && o.updates == []
  {
  }

  /** The owner check comes after the bytes are read and before anything is changed: a
      non-owner gets 401 and UpdateVideo is never called. */
  lemma OwnerCheckedAfterRead(env: Env)
    requires env.videoID.Some? && env.bearer.Some? && env.jwtUser.Some? && env.formParsed && env.part.Some?
    requires env.readSucceeded && env.stored.Some? && env.stored.value.userID != env.jwtUser.value
    ensures var o := Expected(env);
      o.reply == ErrorReply(401, "Not your video") && ReadAll in o.steps && UpdateVideo !in o.steps &&
      o.updates == [] && o.record == env.stored
  {
    assert Expected(env).steps[5] == ReadAll;
  }

  /** The record is written exactly when every check passed, with only ThumbnailURL changed,
      set to the data URL of the part's own content type and bytes. */
  lemma OnlyThumbnailChanges(env: Env)
    ensures var o := Expected(env);
      (UpdateVideo in o.steps <==> ReachesUpdate(env)) &&
      (o.updates != [] <==> ReachesUpdate(env)) &&
      (ReachesUpdate(env) ==>
        var video := env.stored.value;
        var part := env.part.value;
        o.updates == [video.(thumbnailURL := Some(DataURL(part.contentType, part.content)))] &&
        o.updates[0].id == video.id && o.updates[0].userID == video.userID &&
        o.updates[0].videoURL == video.videoURL &&
        SplitDataURL(o.updates[0].thumbnailURL.value) == Some((part.contentType, part.content)))
  {
  }

  /** After the update the reply is 200 with the updated record when UpdateVideo succeeded and
      500 otherwise; no other path answers 200. */
  lemma ReplyFollowsUpdate(env: Env)
    ensures var o := Expected(env);
      (o.reply.JsonReply? <==> ReachesUpdate(env) && env.updateSucceeded) &&
      (o.reply.JsonReply? ==> o.reply == JsonReply(200, o.updates[0])) &&
      (ReachesUpdate(env) && !env.updateSucceeded ==> o.reply == ErrorReply(500, "Couldn't update video"))
  {
  }

  /** The steps run are always an initial part of the source's order. */
  lemma StepsFollowSourceOrder(env: Env)
    ensures var o := Expected(env);
      0 < |o.steps| <= |AllSteps| && o.steps == AllSteps[..|o.steps|]
  {
    assert AllSteps[..1] == [ParseID];
    NextStep(1); NextStep(2); NextStep(3); NextStep(4); NextStep(5); NextStep(6); NextStep(7);
    assert AllSteps[..8] == AllSteps;
    if env.videoID.None? || env.bearer.None? || env.jwtUser.None? || !env.formParsed {
    } else if env.part.None? || !env.readSucceeded || env.stored.None? {
    } else if !ReachesUpdate(env) {
    }
  }

  lemma NextStep(n: nat)
    requires n < |AllSteps|
    ensures AllSteps[..n] + [AllSteps[n]] == AllSteps[..n + 1]
  {
  }

  /** The handler's view of the world while serving one request. */
  class Server {
    var steps: seq<Step>        // the steps of the current request, in order
    var updates: seq<Video>     // its UpdateVideo calls
    var record: Option<Video>   // its copy of the video record
    var reply: Reply

    constructor()
      ensures steps == [] && updates == [] && record == None && reply == NoReply
    {
      steps, updates, record, reply := [], [], None, NoReply;
    }

    /** The state the request ends in is the outcome `o`. */
    ghost predicate Ended(o: Outcome)
      reads this
    {
      reply == o.reply && steps == o.steps && updates == o.updates && record == o.record
    }

    /** One run of handlerUploadThumbnail. */
    method HandlerUploadThumbnail(env: Env)
      modifies this
      ensures Ended(Expected(env))
    {
      steps, updates, record := [ParseID], [], None;
      if env.videoID.None? { reply := ErrorReply(400, "Invalid ID"); return; }
      steps := steps + [GetBearerToken];
      if env.bearer.None? { reply := ErrorReply(401, "Couldn't find JWT"); return; }
      steps := steps + [ValidateJWT];
      if env.jwtUser.None? { reply := ErrorReply(401, "Couldn't validate JWT"); return; }
      var userID := env.jwtUser.value;
      steps := steps + [ParseForm];
      if !env.formParsed { reply := ErrorReply(400, "Couldn't parse form"); return; }
      steps := steps + [FormFile];
      if env.part.None? { reply := ErrorReply(400, "Couldn't get file"); return; }
      var contentType := env.part.value.contentType;
      steps := steps + [ReadAll];
      if !env.readSucceeded { reply := ErrorReply(500, "Couldn't read file"); return; }
      var imageBytes := env.part.value.content;
      steps := steps + [GetVideo];
      if env.stored.None? { reply := ErrorReply(500, "Couldn't get video"); return; }
      var video := env.stored.value;
      record := Some(video);
      if video.userID != userID { reply := ErrorReply(401, "Not your video"); return; }
      var base64Image := Encode(imageBytes);
      var url := DataPrefix + contentType + Base64Marker + base64Image;
      video := video.(thumbnailURL := Some(url));
      record := Some(video);
      steps := steps + [UpdateVideo];
      updates := updates + [video];
      if !env.updateSucceeded { reply := ErrorReply(500, "Couldn't update video"); return; }
      reply := JsonReply(200, video);
    }
  }
}
