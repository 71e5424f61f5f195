/**
 * The server route `POST /videos/:videoId/transcription`: validate the path
 * parameter and the JSON body, look the video up, send its stored audio to the
 * speech-to-text backend, store the text it returns on the video and return
 * that same text.
 *
 * The video table is a map from id to record. The backend is a total
 * function from the request it is sent to either a failure (`None`) or the
 * text of its response.
 */
module TranscriptionRoute {
  import opened Common

  /** A stored video: where its audio lives and its transcription, if any. */
  datatype Video = Video(path: string, transcription: Option<string>)

  /** A parsed JSON value, as far as validation can tell values apart. */
  datatype Json =
    | JString(s: string)
    | JObject(fields: map<string, Json>)
    | JOther                                // null, booleans, numbers, arrays

  /** Why the handler throws. */
  datatype RouteError =
    | InvalidParams        // the path parameters fail their schema
    | InvalidBody          // the body fails its schema
    | VideoNotFound        // no video has the requested id
    | TranscriptionFailed  // the speech-to-text request fails

  /** What is sent to the speech-to-text backend. */
  datatype TranscriptionRequest = TranscriptionRequest(
    file: string,            // the stored path the audio stream is read from
    model: string,
    language: string,
    responseFormat: string,
    temperature: int,
    prompt: string)

  const MODEL: string := "whisper-1"
  const LANGUAGE: string := "pt"
  const RESPONSE_FORMAT: string := "json"
  const TEMPERATURE: int := 0

  predicate IsHexDigit(c: char)
  {
    ('0' <= c <= '9') || ('a' <= c <= 'f') || ('A' <= c <= 'F')
  }

  /** The textual UUID shape: 8-4-4-4-12 hexadecimal digits separated by hyphens. */
  predicate IsUuid(s: string)
  {
    |s| == 36 &&
    forall i :: 0 <= i < 36 ==>
      if i == 8 || i == 13 || i == 18 || i == 23 then s[i] == '-' else IsHexDigit(s[i])
  }

  /** `paramsSchema.parse`: the `videoId` parameter, which must be a UUID. */
  function ParseParams(params: map<string, string>): (r: Result<string, RouteError>)
    ensures r.Ok? <==> "videoId" in params && IsUuid(params["videoId"])
    ensures r.Ok? ==> r.value == params["videoId"]
    ensures r.Err? ==> r.error == InvalidParams
  {
    if "videoId" in params && IsUuid(params["videoId"]) then Ok(params["videoId"]) else Err(InvalidParams)
  }

  /** `bodySchema.parse`: the body must be an object whose `prompt` is a string. */
  function ParseBody(body: Json): (r: Result<string, RouteError>)
    ensures r.Ok? <==> body.JObject? && "prompt" in body.fields && body.fields["prompt"].JString?
    ensures r.Ok? ==> r.value == body.fields["prompt"].s
    ensures r.Err? ==> r.error == InvalidBody
  {
    match body
    case JObject(fields) =>
      if "prompt" in fields && fields["prompt"].JString? then Ok(fields["prompt"].s) else Err(InvalidBody)
    case _ => Err(InvalidBody)
  }

  /** The request for a stored audio file and a caller's prompt: fixed
      model, language, response format and temperature. */
  function RequestFor(path: string, prompt: string): (r: TranscriptionRequest)
    ensures r.file == path && r.prompt == prompt
    ensures r.model == MODEL && r.language == LANGUAGE
    ensures r.responseFormat == RESPONSE_FORMAT && r.temperature == TEMPERATURE
  {
    TranscriptionRequest(path, MODEL, LANGUAGE, RESPONSE_FORMAT, TEMPERATURE, prompt)
  }

  /** Everything one request to the route yields: its response, the video
      table afterwards and the backend requests it made. */
  datatype Outcome = Outcome(
    response: Result<string, RouteError>,
    videos: map<string, Video>,
    sent: seq<TranscriptionRequest>)

  /** The route as a function of the table, the request and the backend. */
  function Transcribe(videos: map<string, Video>, params: map<string, string>, body: Json,
                      backend: TranscriptionRequest -> Option<string>): (o: Outcome)
    // rejected before any lookup, backend call or change
    ensures ParseParams(params).Err? ==> o == Outcome(Err(InvalidParams), videos, [])
    ensures ParseParams(params).Ok? && ParseBody(body).Err? ==> o == Outcome(Err(InvalidBody), videos, [])
    // an unknown video: thrown, nothing sent, nothing changed
    ensures ParseParams(params).Ok? && ParseBody(body).Ok? && ParseParams(params).value !in videos ==>
      o == Outcome(Err(VideoNotFound), videos, [])
    // no failure changes the table
    ensures o.response.Err? ==> o.videos == videos
    // at most one backend request, with the fixed parameters, for the stored
    // path of the requested video and the caller's prompt unchanged
    ensures |o.sent| <= 1
    ensures |o.sent| == 1 ==>
      && ParseParams(params).Ok? && ParseBody(body).Ok? && ParseParams(params).value in videos
      && o.sent[0].model == MODEL && o.sent[0].language == LANGUAGE
      && o.sent[0].responseFormat == RESPONSE_FORMAT && o.sent[0].temperature == TEMPERATURE
      && o.sent[0].prompt == ParseBody(body).value
      && o.sent[0].file == videos[ParseParams(params).value].path
    // a valid request for a stored video sends exactly its request; the
    // backend's answer decides the response
    ensures ParseParams(params).Ok? && ParseBody(body).Ok? && ParseParams(params).value in videos ==>
      var id := ParseParams(params).value;
      && o.sent == [RequestFor(videos[id].path, ParseBody(body).value)]
      && (o.response.Ok? <==> backend(o.sent[0]).Some?)
      && (backend(o.sent[0]).None? ==> o == Outcome(Err(TranscriptionFailed), videos, o.sent))
      && (backend(o.sent[0]).Some? ==>
            o.videos == videos[id := videos[id].(transcription := backend(o.sent[0]))])
    // on success: the backend's text is returned and is what is stored; only
    // the transcription of the addressed video changes
    ensures o.response.Ok? ==>
      var id := ParseParams(params).value;
      && |o.sent| == 1 && backend(o.sent[0]) == Some(o.response.value)
      && id in videos && id in o.videos
      && o.videos[id].transcription == Some(o.response.value)
      && o.videos[id].path == videos[id].path
      && o.videos.Keys == videos.Keys
      && (forall k :: k in videos && k != id ==> o.videos[k] == videos[k])
  {
    match ParseParams(params)
    case Err(e) => Outcome(Err(e), videos, [])
    case Ok(videoId) =>
      match ParseBody(body)
      case Err(e) => Outcome(Err(e), videos, [])
      case Ok(prompt) =>
        if videoId !in videos then Outcome(Err(VideoNotFound), videos, [])
        else
          var request := RequestFor(videos[videoId].path, prompt);
          match backend(request)
          case None => Outcome(Err(TranscriptionFailed), videos, [request])
          case Some(text) =>
            Outcome(Ok(text), videos[videoId := videos[videoId].(transcription := Some(text))], [request])
  }

  /** Transcribing the same video twice keeps only the second text: the
      table ends as if the first call had never happened. */
  lemma LastWriteWins(videos: map<string, Video>, params: map<string, string>, body1: Json, body2: Json,
                      backend1: TranscriptionRequest -> Option<string>,
                      backend2: TranscriptionRequest -> Option<string>)
    requires Transcribe(videos, params, body1, backend1).response.Ok?
    requires Transcribe(Transcribe(videos, params, body1, backend1).videos, params, body2, backend2).response.Ok?
    ensures var first := Transcribe(videos, params, body1, backend1);
      var second := Transcribe(first.videos, params, body2, backend2);
      var id := ParseParams(params).value;
      second.videos == videos[id := videos[id].(transcription := Some(second.response.value))]
  {
  }

  const NIL_UUID: string := "00000000-0000-0000-0000-000000000000"

  /** The all-zero id passes validation, so when no video has it the route
      throws not-found without touching the table or the backend. */
  lemma NilUuidNotFound(videos: map<string, Video>, prompt: string,
                        backend: TranscriptionRequest -> Option<string>)
    requires NIL_UUID !in videos
    ensures Transcribe(videos, map["videoId" := NIL_UUID], JObject(map["prompt" := JString(prompt)]), backend)
      == Outcome(Err(VideoNotFound), videos, [])
  {
  }

  /** The route handler over the `video` table. `sent` records the requests
      made to the speech-to-text backend. */
  class TranscriptionService {
    var videos: map<string, Video>
    ghost var sent: seq<TranscriptionRequest>

    constructor (videos: map<string, Video>)
      ensures this.videos == videos && sent == []
    {
      this.videos := videos;
      sent := [];
    }

    /** `prisma.video.findUniqueOrThrow`. */
    method FindUniqueOrThrow(id: string) returns (r: Result<Video, RouteError>)
      ensures r.Ok? <==> id in videos
      ensures r.Ok? ==> r.value == videos[id]
      ensures r.Err? ==> r.error == VideoNotFound
    {
      if id !in videos {
        return Err(VideoNotFound);
      }
      return Ok(videos[id]);
    }

    /** `prisma.video.update` setting the transcription of an existing video. */
    method UpdateTranscription(id: string, transcription: string)
      requires id in videos
      modifies this`videos
      ensures videos == old(videos)[id := old(videos)[id].(transcription := Some(transcription))]
    {
      videos := videos[id := videos[id].(transcription := Some(transcription))];
    }

    method CreateTranscription(params: map<string, string>, body: Json,
                               backend: TranscriptionRequest -> Option<string>)
      returns (response: Result<string, RouteError>)
      modifies this`videos, this`sent
      ensures var o := Transcribe(old(videos), params, body, backend);
        response == o.response && videos == o.videos && sent == old(sent) + o.sent
    {
      var videoId := ParseParams(params);
      if videoId.Err? {
        return Err(videoId.error);
      }
      var prompt := ParseBody(body);
      if prompt.Err? {
        return Err(prompt.error);
      }
      var video := FindUniqueOrThrow(videoId.value);
      if video.Err? {
        return Err(video.error);
      }
      var request := RequestFor(video.value.path, prompt.value);
      sent := sent + [request];
      var text := backend(request);
      if text.None? {
        return Err(TranscriptionFailed);
      }
      var transcription := text.value;
      UpdateTranscription(videoId.value, transcription);
      return Ok(transcription);
    }
  }
}
