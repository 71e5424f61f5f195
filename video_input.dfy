/**
 * The video upload form of the web client: a status field, the selected file,
 * and the submit handler that converts the video to audio, uploads it, reports
 * the new video id to the parent and asks the server for a transcription.
 *
 * The transcoder and the HTTP client are not modelled as code: each of the
 * three stages is an entry of `Services`, a total function that either fails
 * (`None` / `false`) or yields its value. The parent's `onVideoUploaded` is
 * an effect that always returns. Every observable side effect of the handler,
 * status writes included, is appended to a ghost trace.
 */
module VideoInput {
  import opened Common

  type VideoId = string

  /** The form's `Status` union. */
  datatype Status = Waiting | Converting | Uploading | Generating | Success | Error

  /** The label shown on the submit button for each status. */
  function StatusMessage(s: Status): (msg: string)
    ensures msg != []
  {
    match s
    case Waiting => "Carregar vídeo"
    case Converting => "Convertendo..."
    case Uploading => "Carregando..."
    case Generating => "Transcrevendo..."
    case Success => "Sucesso"
    case Error => "Tente novamente mais tarde."
  }

  /** The button label tells every status apart. */
  lemma StatusMessageDistinct(a: Status, b: Status)
    ensures StatusMessage(a) == StatusMessage(b) ==> a == b
  {
  }

  /** What the form renders for a status: the three `disabled` flags, the
      submit button's `data-success` flag and its label. */
  datatype Controls = Controls(
    fileInputDisabled: bool,
    promptInputDisabled: bool,
    submitDisabled: bool,
    submitSuccess: bool,
    submitLabel: string)

  function Render(s: Status): (c: Controls)
    ensures !c.fileInputDisabled <==> s == Waiting
    ensures !c.promptInputDisabled <==> s == Waiting
    ensures !c.submitDisabled <==> s == Waiting
    ensures c.submitSuccess <==> s == Success
    ensures c.submitLabel == StatusMessage(s)
  {
    Controls(s != Waiting, s != Waiting, s != Waiting, s == Success, StatusMessage(s))
  }

  /** A browser `File`: name, MIME type and bytes. */
  datatype File = File(name: string, mimeType: string, content: seq<bv8>)

  /** The argument list handed to the transcoder: keep only the audio stream,
      at 20 kbit/s, encoded as MP3. */
  const FFMPEG_ARGS: seq<string> :=
    ["-i", "input.mp4", "-map", "0:a", "-b:a", "20k", "-acodec", "libmp3lame", "output.mp3"]
  const AUDIO_FILE_NAME: string := "audio.mp3"
  const AUDIO_MIME_TYPE: string := "audio/mpeg"
  /** The multipart field that carries the audio file. */
  const UPLOAD_FIELD: string := "file"

  /** The outside world as seen by the submit handler, one entry per stage. */
  datatype Services = Services(
    // the transcoder run on the video's bytes with the given arguments
    transcode: (seq<string>, seq<bv8>) -> Option<seq<bv8>>,
    // `POST /videos` with a multipart body; yields `response.data.id`
    upload: seq<(string, File)> -> Option<VideoId>,
    // `POST <url>` with body `{ prompt }`; true when it does not throw
    transcribe: (string, string) -> bool)

  /** One observable step of the handler, in the order it happens. */
  datatype Effect =
    | StatusSet(status: Status)                       // setStatus(...)
    | ConvertStarted(video: File)                     // convertVideoToAudio(videoFile)
    | UploadPosted(form: seq<(string, File)>)         // api.post("/videos", data)
    | VideoUploaded(id: VideoId)                      // onVideoUploaded(videoId)
    | TranscriptionPosted(url: string, prompt: string) // api.post(`/videos/${id}/transcription`, ...)

  /** The three stages of a submission. */
  datatype Stage = Convert | Upload | RequestTranscription

  const STAGE_ORDER: seq<Stage> := [Convert, Upload, RequestTranscription]
  const HAPPY_PATH: seq<Status> := [Converting, Uploading, Generating, Success]

  /** The status the handler writes right before starting a stage. */
  function StageStatus(st: Stage): Status
  {
    match st
    case Convert => Converting
    case Upload => Uploading
    case RequestTranscription => Generating
  }

  // ---------------------------------------------------------------------------
  // Projections of a trace

  /** The elements `f` picks out of a trace, in trace order. */
  function Project<T>(t: seq<Effect>, f: Effect -> Option<T>): seq<T>
  {
    if t == [] then []
    else (match f(t[0]) case None => [] case Some(x) => [x]) + Project(t[1..], f)
  }

  lemma {:induction false} ProjectConcat<T>(a: seq<Effect>, b: seq<Effect>, f: Effect -> Option<T>)
    ensures Project(a + b, f) == Project(a, f) + Project(b, f)
  {
    if a == [] {
      assert a + b == b;
    } else {
      assert (a + b)[0] == a[0];
      assert (a + b)[1..] == a[1..] + b;
      ProjectConcat(a[1..], b, f);
    }
  }

  /** Projecting a two-element block. */
  lemma ProjectPair<T>(x: Effect, y: Effect, f: Effect -> Option<T>)
    ensures Project([x, y], f) == Project([x], f) + Project([y], f)
  {
  }

  function WriteOf(e: Effect): Option<Status>
  {
    if e.StatusSet? then Some(e.status) else None
  }

  function StageOf(e: Effect): Option<Stage>
  {
    match e
    case ConvertStarted(_) => Some(Convert)
    case UploadPosted(_) => Some(Upload)
    case TranscriptionPosted(_, _) => Some(RequestTranscription)
    case _ => None
  }

  function CallbackOf(e: Effect): Option<VideoId>
  {
    if e.VideoUploaded? then Some(e.id) else None
  }

  /** The statuses written, in order. */
  function Writes(t: seq<Effect>): seq<Status> { Project(t, WriteOf) }

  /** The stages started, in order. */
  function Stages(t: seq<Effect>): seq<Stage> { Project(t, StageOf) }

  /** The ids passed to `onVideoUploaded`, in order. */
  function Callbacks(t: seq<Effect>): seq<VideoId> { Project(t, CallbackOf) }

  /** A run's status writes follow `converting, uploading, generating, success`,
      stopping with `error` at the first failed stage. */
  predicate FollowsPipelineOrder(w: seq<Status>)
  {
    2 <= |w| <= 4 && w[..|w| - 1] == HAPPY_PATH[..|w| - 1] && (Last(w) == Error || w == HAPPY_PATH)
  }

  /** A run in pipeline order never writes `waiting`. */
  lemma PipelineOrderNeverWaits(w: seq<Status>)
    requires FollowsPipelineOrder(w)
    ensures Waiting !in w
  {
    assert w == w[..|w| - 1] + [Last(w)];
  }

  // ---------------------------------------------------------------------------
  // The stages

  /** `convertVideoToAudio`: the transcoder's output wrapped as `audio.mp3`. */
  function ConvertVideoToAudio(video: File, sv: Services): (audio: Option<File>)
    ensures audio.Some? <==> sv.transcode(FFMPEG_ARGS, video.content).Some?
    ensures audio.Some? ==> audio.value.name == AUDIO_FILE_NAME && audio.value.mimeType == AUDIO_MIME_TYPE
    ensures audio.Some? ==> audio.value.content == sv.transcode(FFMPEG_ARGS, video.content).value
  {
    match sv.transcode(FFMPEG_ARGS, video.content)
    case None => None
    case Some(mp3) => Some(File(AUDIO_FILE_NAME, AUDIO_MIME_TYPE, mp3))
  }

  /** The multipart body of the upload: the audio under field `file`. */
  function UploadForm(audio: File): seq<(string, File)>
  {
    [(UPLOAD_FIELD, audio)]
  }

  function TranscriptionUrl(id: VideoId): string
  {
    "/videos/" + id + "/transcription"
  }

  /** Different ids address different transcription URLs, so the request
      names exactly one video. */
  lemma {:induction false} TranscriptionUrlInjective(a: VideoId, b: VideoId)
    ensures TranscriptionUrl(a) == TranscriptionUrl(b) ==> a == b
  {
    if TranscriptionUrl(a) == TranscriptionUrl(b) {
      assert |a| == |b|;
      assert TranscriptionUrl(a)[8..8 + |a|] == a;
      assert TranscriptionUrl(b)[8..8 + |b|] == b;
    }
  }

  /** The id the upload stage yields, when conversion and upload both succeed. */
  function UploadedId(video: File, sv: Services): Option<VideoId>
  {
    match ConvertVideoToAudio(video, sv)
    case None => None
    case Some(audio) => sv.upload(UploadForm(audio))
  }

  predicate AllStagesSucceed(video: File, prompt: string, sv: Services)
  {
    UploadedId(video, sv).Some? && sv.transcribe(TranscriptionUrl(UploadedId(video, sv).value), prompt)
  }

  function SubmissionStatus(video: File, prompt: string, sv: Services): Status
  {
    if AllStagesSucceed(video, prompt, sv) then Success else Error
  }

  /** The effects of starting each stage, status write first. */
  function ConvertBlock(video: File): seq<Effect>
  {
    [StatusSet(Converting), ConvertStarted(video)]
  }

  function UploadBlock(audio: File): seq<Effect>
  {
    [StatusSet(Uploading), UploadPosted(UploadForm(audio))]
  }

  /** After the upload: the callback, then the transcription request. */
  function TranscribeBlock(id: VideoId, prompt: string): seq<Effect>
  {
    [VideoUploaded(id), StatusSet(Generating), TranscriptionPosted(TranscriptionUrl(id), prompt)]
  }

  /** Everything one submission of `video` does, in order: each failed stage
      is caught and turned into an `error` write. */
  function Submission(video: File, prompt: string, sv: Services): seq<Effect>
  {
    match ConvertVideoToAudio(video, sv)
    case None => ConvertBlock(video) + [StatusSet(Error)]
    case Some(audio) =>
      match sv.upload(UploadForm(audio))
      case None => ConvertBlock(video) + UploadBlock(audio) + [StatusSet(Error)]
      case Some(id) =>
        var done := if sv.transcribe(TranscriptionUrl(id), prompt) then Success else Error;
        ConvertBlock(video) + UploadBlock(audio) + TranscribeBlock(id, prompt) + [StatusSet(done)]
  }

  // ---------------------------------------------------------------------------
  // What one submission promises

  /** Any projection of a submission, block by block. */
  lemma ProjectSubmission<T>(video: File, prompt: string, sv: Services, f: Effect -> Option<T>)
    ensures ConvertVideoToAudio(video, sv).None? ==>
      Project(Submission(video, prompt, sv), f) == Project(ConvertBlock(video), f) + Project([StatusSet(Error)], f)
    ensures ConvertVideoToAudio(video, sv).Some? && UploadedId(video, sv).None? ==>
      Project(Submission(video, prompt, sv), f) ==
        Project(ConvertBlock(video), f) + Project(UploadBlock(ConvertVideoToAudio(video, sv).value), f)
        + Project([StatusSet(Error)], f)
    ensures UploadedId(video, sv).Some? ==>
      Project(Submission(video, prompt, sv), f) ==
        Project(ConvertBlock(video), f) + Project(UploadBlock(ConvertVideoToAudio(video, sv).value), f)
        + Project(TranscribeBlock(UploadedId(video, sv).value, prompt), f)
        + Project([StatusSet(SubmissionStatus(video, prompt, sv))], f)
  {
    match ConvertVideoToAudio(video, sv)
    case None =>
      ProjectConcat(ConvertBlock(video), [StatusSet(Error)], f);
    case Some(audio) =>
      ProjectConcat(ConvertBlock(video), UploadBlock(audio), f);
      match sv.upload(UploadForm(audio))
      case None =>
        ProjectConcat(ConvertBlock(video) + UploadBlock(audio), [StatusSet(Error)], f);
      case Some(id) =>
        var last := [StatusSet(SubmissionStatus(video, prompt, sv))];
        ProjectConcat(ConvertBlock(video) + UploadBlock(audio), TranscribeBlock(id, prompt), f);
        ProjectConcat(ConvertBlock(video) + UploadBlock(audio) + TranscribeBlock(id, prompt), last, f);
  }

  /** What the conversion block contributes to each projection. */
  lemma ConvertBlockProjections(video: File)
    ensures Writes(ConvertBlock(video)) == [Converting]
    ensures Stages(ConvertBlock(video)) == [Convert]
    ensures Callbacks(ConvertBlock(video)) == []
  {
    var c := ConvertBlock(video);
    ProjectPair(c[0], c[1], WriteOf);
    ProjectPair(c[0], c[1], StageOf);
    ProjectPair(c[0], c[1], CallbackOf);
  }

  /** What the upload block contributes to each projection. */
  lemma UploadBlockProjections(audio: File)
    ensures Writes(UploadBlock(audio)) == [Uploading]
    ensures Stages(UploadBlock(audio)) == [Upload]
    ensures Callbacks(UploadBlock(audio)) == []
  {
    var u := UploadBlock(audio);
    ProjectPair(u[0], u[1], WriteOf);
    ProjectPair(u[0], u[1], StageOf);
    ProjectPair(u[0], u[1], CallbackOf);
  }

  /** What the callback-and-transcription block contributes to each projection. */
  lemma TranscribeBlockProjections(id: VideoId, prompt: string)
    ensures Writes(TranscribeBlock(id, prompt)) == [Generating]
    ensures Stages(TranscribeBlock(id, prompt)) == [RequestTranscription]
    ensures Callbacks(TranscribeBlock(id, prompt)) == [id]
  {
    var t := TranscribeBlock(id, prompt);
    assert t == [t[0]] + [t[1], t[2]];
    ProjectConcat([t[0]], [t[1], t[2]], WriteOf);
    ProjectConcat([t[0]], [t[1], t[2]], StageOf);
    ProjectConcat([t[0]], [t[1], t[2]], CallbackOf);
    ProjectPair(t[1], t[2], WriteOf);
    ProjectPair(t[1], t[2], StageOf);
    ProjectPair(t[1], t[2], CallbackOf);
  }

  /** The exact status writes of a submission, by the stage that failed. */
  lemma SubmissionWriteList(video: File, prompt: string, sv: Services)
    ensures var w := Writes(Submission(video, prompt, sv));
      && (ConvertVideoToAudio(video, sv).None? ==> w == [Converting, Error])
      && (ConvertVideoToAudio(video, sv).Some? && UploadedId(video, sv).None? ==>
            w == [Converting, Uploading, Error])
      && (UploadedId(video, sv).Some? ==>
            w == [Converting, Uploading, Generating, SubmissionStatus(video, prompt, sv)])
  {
    ProjectSubmission(video, prompt, sv, WriteOf);
    var w := Writes(Submission(video, prompt, sv));
    match ConvertVideoToAudio(video, sv)
    case None =>
      ConvertBlockProjections(video);
    case Some(audio) =>
      match UploadedId(video, sv)
      case None =>
        ConvertBlockProjections(video);
        UploadBlockProjections(audio);
      case Some(id) =>
        ConvertBlockProjections(video);
        UploadBlockProjections(audio);
        TranscribeBlockProjections(id, prompt);
  }

  /** Status writes run `converting, uploading, generating` and end in
      `success` exactly when every stage succeeds, otherwise in `error`;
      `waiting` is never written. */
  lemma SubmissionWrites(video: File, prompt: string, sv: Services)
    ensures var w := Writes(Submission(video, prompt, sv));
      FollowsPipelineOrder(w) && Waiting !in w
      && Last(w) == SubmissionStatus(video, prompt, sv)
      && (Last(w) == Success <==> AllStagesSucceed(video, prompt, sv))
  {
    SubmissionWriteList(video, prompt, sv);
    var w := Writes(Submission(video, prompt, sv));
    if UploadedId(video, sv).Some? && SubmissionStatus(video, prompt, sv) == Success {
      assert w == HAPPY_PATH;
    }
    PipelineOrderNeverWaits(w);
  }

  /** The stages start in order, each only once the one before it succeeded:
      upload only after a successful conversion, transcription only after a
      successful upload. */
  lemma SubmissionStages(video: File, prompt: string, sv: Services)
    ensures var st := Stages(Submission(video, prompt, sv));
      1 <= |st| <= 3 && st == STAGE_ORDER[..|st|]
      && (|st| >= 2 <==> ConvertVideoToAudio(video, sv).Some?)
      && (|st| == 3 <==> UploadedId(video, sv).Some?)
  {
    ProjectSubmission(video, prompt, sv, StageOf);
    var x := Stages(Submission(video, prompt, sv));
    match ConvertVideoToAudio(video, sv)
    case None =>
      ConvertBlockProjections(video);
      assert x == [Convert];
    case Some(audio) =>
      match UploadedId(video, sv)
      case None =>
        ConvertBlockProjections(video);
        UploadBlockProjections(audio);
        assert x == [Convert, Upload];
      case Some(id) =>
        ConvertBlockProjections(video);
        UploadBlockProjections(audio);
        TranscribeBlockProjections(id, prompt);
        assert x == [Convert, Upload, RequestTranscription];
  }

  /** `onVideoUploaded` is called exactly once when the upload succeeds, with
      the id it returned, and never otherwise. */
  lemma SubmissionCallbacks(video: File, prompt: string, sv: Services)
    ensures Callbacks(Submission(video, prompt, sv)) ==
      match UploadedId(video, sv) case None => [] case Some(id) => [id]
  {
    ProjectSubmission(video, prompt, sv, CallbackOf);
    var x := Callbacks(Submission(video, prompt, sv));
    match ConvertVideoToAudio(video, sv)
    case None =>
      ConvertBlockProjections(video);
      assert x == [];
    case Some(audio) =>
      match UploadedId(video, sv)
      case None =>
        ConvertBlockProjections(video);
        UploadBlockProjections(audio);
        assert x == [];
      case Some(id) =>
        ConvertBlockProjections(video);
        UploadBlockProjections(audio);
        TranscribeBlockProjections(id, prompt);
        assert x == [id];
  }

  /** Each stage is started right after the status that announces it; the
      callback comes right after the upload and right before the transcription
      request, which targets the uploaded id; the run ends with its final
      status write. */
  lemma SubmissionOrdering(video: File, prompt: string, sv: Services)
    ensures var t := Submission(video, prompt, sv);
      && |t| > 0 && t[|t| - 1] == StatusSet(SubmissionStatus(video, prompt, sv))
      && (forall i :: 0 <= i < |t| && StageOf(t[i]).Some? ==>
            0 < i && t[i - 1] == StatusSet(StageStatus(StageOf(t[i]).value)))
      && (forall i :: 0 <= i < |t| && t[i].VideoUploaded? ==>
            0 < i && t[i - 1].UploadPosted? && i + 2 < |t|
            && t[i + 1] == StatusSet(Generating)
            && t[i + 2] == TranscriptionPosted(TranscriptionUrl(t[i].id), prompt))
  {
    var t := Submission(video, prompt, sv);
    match ConvertVideoToAudio(video, sv)
    case None =>
      assert t == [StatusSet(Converting), ConvertStarted(video), StatusSet(Error)];
    case Some(audio) =>
      match sv.upload(UploadForm(audio))
      case None =>
        assert t == [StatusSet(Converting), ConvertStarted(video), StatusSet(Uploading),
                     UploadPosted(UploadForm(audio)), StatusSet(Error)];
      case Some(id) =>
        var url := TranscriptionUrl(id);
        assert t == [StatusSet(Converting), ConvertStarted(video), StatusSet(Uploading),
                     UploadPosted(UploadForm(audio)), VideoUploaded(id), StatusSet(Generating),
                     TranscriptionPosted(url, prompt),
                     StatusSet(if sv.transcribe(url, prompt) then Success else Error)];
  }

  // ---------------------------------------------------------------------------
  // The form's state and its transitions

  /** A snapshot of the form: its two state fields and everything done so far. */
  datatype FormState = FormState(status: Status, videoFile: Option<File>, trace: seq<Effect>)

  const INITIAL: FormState := FormState(Waiting, None, [])

  /** `handleFileSelected`: the first chosen file, when there is one, becomes
      the selected file; an empty or missing file list changes nothing. */
  function AfterFileSelected(s: FormState, files: Option<seq<File>>): (r: FormState)
    ensures r.status == s.status && r.trace == s.trace
    ensures files.None? || files.value == [] ==> r.videoFile == s.videoFile
    ensures files.Some? && files.value != [] ==> r.videoFile == Some(files.value[0])
  {
    match files
    case None => s
    case Some(fs) => if |fs| == 0 then s else s.(videoFile := Some(fs[0]))
  }

  /** `handleUploadVideo`: without a selected file nothing at all happens;
      with one, a whole submission runs and leaves the form in `success` or
      `error`, with the file still selected. */
  function AfterUploadVideo(s: FormState, prompt: string, sv: Services): (r: FormState)
    ensures s.videoFile.None? ==> r == s
    ensures s.videoFile.Some? ==>
      && r.videoFile == s.videoFile
      && (r.status == Success || r.status == Error)
      && (r.status == Success <==> AllStagesSucceed(s.videoFile.value, prompt, sv))
      && r.trace == s.trace + Submission(s.videoFile.value, prompt, sv)
  {
    match s.videoFile
    case None => s
    case Some(video) =>
      FormState(SubmissionStatus(video, prompt, sv), s.videoFile, s.trace + Submission(video, prompt, sv))
  }

  /** What the user can do to the form. */
  datatype UserEvent =
    | ChooseFiles(files: Option<seq<File>>)   // a change event on the file input
    | SubmitForm(prompt: string, sv: Services) // a click on the submit button, with the textarea's text

  /** One user event: the browser delivers it only to an enabled control. */
  function Step(s: FormState, e: UserEvent): (r: FormState)
    ensures s.status != Waiting ==> r == s
    ensures s.status == Waiting && e.ChooseFiles? ==> r == AfterFileSelected(s, e.files)
    ensures s.status == Waiting && e.SubmitForm? ==> r == AfterUploadVideo(s, e.prompt, e.sv)
  {
    match e
    case ChooseFiles(files) =>
      if Render(s.status).fileInputDisabled then s else AfterFileSelected(s, files)
    case SubmitForm(prompt, sv) =>
      if Render(s.status).submitDisabled then s else AfterUploadVideo(s, prompt, sv)
  }

  /** A sequence of user events, one after the other. */
  function Session(s: FormState, events: seq<UserEvent>): FormState
    decreases |events|
  {
    if events == [] then s else Session(Step(s, events[0]), events[1..])
  }

  /** Once a submission has ended, every control is disabled and nothing the
      user does changes the form again: `success` and `error` are absorbing. */
  lemma {:induction false} SettledIsAbsorbing(s: FormState, events: seq<UserEvent>)
    requires s.status == Success || s.status == Error
    ensures Session(s, events) == s
  {
    if events != [] {
      assert Step(s, events[0]) == s;
      SettledIsAbsorbing(s, events[1..]);
    }
  }

  /** The states a session can be in: untouched and waiting, or after exactly
      one submission of the file the form still holds. */
  ghost predicate SessionInvariant(s: FormState)
  {
    || (s.status == Waiting && s.trace == [])
    || (s.videoFile.Some? && exists prompt, sv :: OneSubmission(s, s.videoFile.value, prompt, sv))
  }

  /** The form holds exactly the trace and the final status of one submission. */
  predicate OneSubmission(s: FormState, video: File, prompt: string, sv: Services)
  {
    s.trace == Submission(video, prompt, sv) && s.status == SubmissionStatus(video, prompt, sv)
  }

  lemma StepKeepsInvariant(s: FormState, e: UserEvent)
    requires SessionInvariant(s)
    ensures SessionInvariant(Step(s, e))
  {
    if s.status == Waiting && e.SubmitForm? && s.videoFile.Some? {
      var video := s.videoFile.value;
      assert s.trace + Submission(video, e.prompt, e.sv) == Submission(video, e.prompt, e.sv);
      assert OneSubmission(Step(s, e), video, e.prompt, e.sv);
    } else if s.status != Waiting {
      assert Step(s, e) == s;
    }
  }

  lemma {:induction false} SessionKeepsInvariant(s: FormState, events: seq<UserEvent>)
    requires SessionInvariant(s)
    ensures SessionInvariant(Session(s, events))
    decreases |events|
  {
    if events != [] {
      StepKeepsInvariant(s, events[0]);
      SessionKeepsInvariant(Step(s, events[0]), events[1..]);
    }
  }

  /** Whatever the user does from a fresh form: at most one pipeline ever
      runs, on the file the form still holds, `onVideoUploaded` is called at most once, no status write sets
      `waiting`, and once the form has left `waiting` it never changes again. */
  lemma SessionFromInitial(events: seq<UserEvent>, later: seq<UserEvent>)
    ensures var f := Session(INITIAL, events);
      && (f.status == Waiting ==> f.trace == [])
      && (f.status != Waiting ==>
            && f.videoFile.Some?
            && (exists prompt, sv :: OneSubmission(f, f.videoFile.value, prompt, sv))
            && FollowsPipelineOrder(Writes(f.trace)) && Last(Writes(f.trace)) == f.status
            && 1 <= |Stages(f.trace)| <= 3 && Stages(f.trace) == STAGE_ORDER[..|Stages(f.trace)|]
            && Session(f, later) == f)
      && |Callbacks(f.trace)| <= 1
      && Waiting !in Writes(f.trace)
  {
    SessionKeepsInvariant(INITIAL, events);
    var f := Session(INITIAL, events);
    if f.status != Waiting {
      var video := f.videoFile.value;
      var prompt, sv :| OneSubmission(f, video, prompt, sv);
      SubmissionWrites(video, prompt, sv);
      SubmissionStages(video, prompt, sv);
      SubmissionCallbacks(video, prompt, sv);
      SettledIsAbsorbing(f, later);
    }
  }

  // ---------------------------------------------------------------------------
  // The component

  /** The `VideoInputForm` component: `status` and `videoFile` are its state
      hooks; `trace` records its side effects. */
  class VideoInputForm {
    var status: Status
    var videoFile: Option<File>
    ghost var trace: seq<Effect>

    ghost function Model(): FormState
      reads this
    {
      FormState(status, videoFile, trace)
    }

    constructor ()
      ensures Model() == INITIAL
    {
      status := Waiting;
      videoFile := None;
      trace := [];
    }

    /** `setStatus`. */
    method SetStatus(s: Status)
      modifies this`status, this`trace
      ensures status == s && trace == old(trace) + [StatusSet(s)]
    {
      status := s;
      trace := trace + [StatusSet(s)];
    }

    method HandleFileSelected(files: Option<seq<File>>)
      modifies this`videoFile
      ensures Model() == AfterFileSelected(old(Model()), files)
    {
      if files.None? || |files.value| == 0 {
        return;
      }
      videoFile := Some(files.value[0]);
    }

    /** The submit handler; a stage that fails stands for a thrown error and
        goes straight to the `catch` branch. */
    method HandleUploadVideo(prompt: string, sv: Services)
      modifies this`status, this`trace
      ensures Model() == AfterUploadVideo(old(Model()), prompt, sv)
    {
      if videoFile.None? {
        return;
      }
      var video := videoFile.value;
      ghost var before := trace;
      SetStatus(Converting);
      trace := trace + [ConvertStarted(video)];
      assert trace == before + ConvertBlock(video);
      var audioFile := ConvertVideoToAudio(video, sv);
      if audioFile.None? {
        SetStatus(Error);
        assert Submission(video, prompt, sv) == ConvertBlock(video) + [StatusSet(Error)];
        assert trace == before + Submission(video, prompt, sv);
        return;
      }
      var data := UploadForm(audioFile.value);
      SetStatus(Uploading);
      trace := trace + [UploadPosted(data)];
      assert trace == before + ConvertBlock(video) + UploadBlock(audioFile.value);
      var response := sv.upload(data);
      if response.None? {
        SetStatus(Error);
        assert Submission(video, prompt, sv) == ConvertBlock(video) + UploadBlock(audioFile.value) + [StatusSet(Error)];
        assert trace == before + Submission(video, prompt, sv);
        return;
      }
      var videoId := response.value;
      trace := trace + [VideoUploaded(videoId)];
      SetStatus(Generating);
      var url := TranscriptionUrl(videoId);
      trace := trace + [TranscriptionPosted(url, prompt)];
      ghost var blocks := ConvertBlock(video) + UploadBlock(audioFile.value) + TranscribeBlock(videoId, prompt);
      assert trace == before + blocks;
      assert Submission(video, prompt, sv) == blocks + [StatusSet(SubmissionStatus(video, prompt, sv))];
      if !sv.transcribe(url, prompt) {
        SetStatus(Error);
        assert trace == before + Submission(video, prompt, sv);
        return;
      }
      SetStatus(Success);
      assert trace == before + Submission(video, prompt, sv);
    }

    /** A change on the file input: delivered only while the input is enabled. */
    method OnFileInputChange(files: Option<seq<File>>)
      modifies this`videoFile
      ensures Model() == Step(old(Model()), ChooseFiles(files))
    {
      if !Render(status).fileInputDisabled {
        HandleFileSelected(files);
      }
    }

    /** A click on the submit button: delivered only while it is enabled. */
    method OnSubmit(prompt: string, sv: Services)
      modifies this`status, this`trace
      ensures Model() == Step(old(Model()), SubmitForm(prompt, sv))
    {
      if !Render(status).submitDisabled {
        HandleUploadVideo(prompt, sv);
      }
    }
  }
}
