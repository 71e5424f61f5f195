# upload-ai: upload pipeline, prompt selection and transcription route

This project models three components of upload-ai in Dafny and proves properties about them. upload-ai is a web app: the user uploads a video, the browser extracts its audio, the server transcribes that audio, and prompt templates are offered to the user.

- **`VideoInput`** (`video_input.dfy`) models the browser's video upload form. Its state is a `Status` (`waiting`, `converting`, `uploading`, `generating`, `success`, `error`) and the selected file. The submit handler runs four steps in order: convert the video to MP3, upload it, report the new video id to the parent through `onVideoUploaded`, and request its transcription. Any failure ends in `error`.
  - The three stages (convert, upload, transcribe) are entries of `Services`: total functions that either fail or return the stage's value. The call to `onVideoUploaded` is the trace effect `VideoUploaded`, and the model lets it always return.
  - Every side effect, status writes included, is appended to a ghost trace. Ordering properties are stated over that trace.
  - `Step` and `Session` model what the browser delivers. An event on a disabled control is dropped. Every control is disabled unless the status is `waiting`.
- **`PromptSelection`** (`prompt_select.dfy`) models the prompt selector.
  - The prompt list is absent until it is fetched.
  - One option is rendered per prompt.
  - Choosing an option passes the template of the first prompt with that id on to the parent, unchanged.
- **`TranscriptionRoute`** (`create_transcription.dfy`) models `POST /videos/:videoId/transcription`. The video table is a map from id to `{path, transcription}`; the speech-to-text backend is a total function that fails or returns text. The handler runs in five steps:
  1. validate the id and the body;
  2. look up the video, throwing if it is missing;
  3. send the request with fixed parameters;
  4. overwrite the video's transcription;
  5. return the same text.
- **`Common`** (`common.dfy`) holds `Option`, `Result` and `Last`.

Facts about the code that shape the model:
- No code path writes `waiting` again, and the file input is disabled whenever the status is not `waiting`. Selecting a new file therefore cannot clear an `error`. The model proves that `success` and `error` are absorbing (`SettledIsAbsorbing`).
- The route has no separate storage-error path. A stream that cannot be read makes the backend call fail, so it falls under `TranscriptionFailed`.
- No code substitutes a `{transcription}` placeholder. Templates are passed on verbatim.

## Model

| member | source | states |
|---|---|---|
| `VideoInput.StatusMessage` | upload-ai-web/src/components/video-input-form.tsx:28-35 | Every status has a non-empty button label: `Carregar vídeo`, `Convertendo...`, `Carregando...`, `Transcrevendo...`, `Sucesso`, `Tente novamente mais tarde.` |
| `VideoInput.StatusMessageDistinct` | upload-ai-web/src/components/video-input-form.tsx:28-35 | `statusMessage` gives every status a label (Dafny checks that the match covers every case). No two statuses share a label. |
| `VideoInput.Render` | upload-ai-web/src/components/video-input-form.tsx:154-184 | Each of the file input, the prompt textarea and the submit button is enabled if and only if the status is `waiting`. `data-success` holds exactly in `success`. The button label is the status message. |
| `VideoInput.ConvertVideoToAudio` | upload-ai-web/src/components/video-input-form.tsx:55-88 | Conversion succeeds exactly when the transcoder does. The transcoder is given the fixed argument list. The result is a file named `audio.mp3` of type `audio/mpeg` holding the transcoder's output. |
| `VideoInput.TranscriptionUrl` | upload-ai-web/src/components/video-input-form.tsx:120 | The transcription request goes to `/videos/<id>/transcription` for the uploaded id. |
| `VideoInput.TranscriptionUrlInjective` | upload-ai-web/src/components/video-input-form.tsx:120 | Different video ids give different transcription URLs, so the request addresses exactly the uploaded id. |
| `VideoInput.UploadForm` | upload-ai-web/src/components/video-input-form.tsx:108-109 | The upload body has one multipart field, `file`, holding the converted audio. |
| `VideoInput.Submission` | upload-ai-web/src/components/video-input-form.tsx:103-126 | The try/catch of the submit handler as a trace: write `converting`, convert; write `uploading`, upload; call back with the id; write `generating`, request the transcription; write the final status. A failed stage is caught into an `error` write and nothing after it runs. Its properties are the `Submission*` lemmas. |
| `VideoInput.PipelineOrderNeverWaits` | upload-ai-web/src/components/video-input-form.tsx:104-125 | A sequence of status writes in pipeline order never contains `waiting`. |
| `VideoInput.SubmissionWriteList` | upload-ai-web/src/components/video-input-form.tsx:103-126 | A failed conversion writes exactly `converting, error`. A failed upload writes exactly `converting, uploading, error`. After a successful upload the writes are `converting, uploading, generating` and the final status. |
| `VideoInput.SubmissionWrites` | upload-ai-web/src/components/video-input-form.tsx:103-126 | Status writes follow pipeline order: a prefix of `converting, uploading, generating`, then `success` or `error`. The last write is the submission's final status. It is `success` if and only if all three steps succeed. `waiting` is never written. The exact list for each failing step is `SubmissionWriteList`. |
| `VideoInput.SubmissionStages` | upload-ai-web/src/components/video-input-form.tsx:103-126 | Steps start in the order convert, upload, transcribe. Upload starts if and only if conversion succeeded. Transcription is requested if and only if the upload succeeded. No later step starts after a failure. |
| `VideoInput.SubmissionCallbacks` | upload-ai-web/src/components/video-input-form.tsx:113-115 | `onVideoUploaded` is called exactly once, with the id the upload returned, when the upload succeeds. It is not called otherwise. |
| `VideoInput.SubmissionOrdering` | upload-ai-web/src/components/video-input-form.tsx:104-122 | Each step starts right after the status that announces it. The callback comes right after the upload and before the transcription request. That request targets the same id and carries the prompt text. The run ends with its final status write. |
| `VideoInput.AfterFileSelected` | upload-ai-web/src/components/video-input-form.tsx:90-96 | A missing or empty file list leaves the selected file unchanged. Otherwise the first file becomes the selection. Status and trace do not change. |
| `VideoInput.AfterUploadVideo` | upload-ai-web/src/components/video-input-form.tsx:98-127 | With no file selected, nothing changes: no status write, no step, no callback. With a file, one whole submission runs. It ends in `success` (all steps succeeded) or `error`, and the file stays selected. |
| `VideoInput.Step` | upload-ai-web/src/components/video-input-form.tsx:159-176 | The browser passes a file change or a submit to its handler only while the status is `waiting`. In any other status the form is unchanged. |
| `VideoInput.Session` | upload-ai-web/src/components/video-input-form.tsx:159-176 | A sequence of user events, delivered one `Step` at a time in order. |
| `VideoInput.SettledIsAbsorbing` | upload-ai-web/src/components/video-input-form.tsx:160-176 | From `success` or `error`, no sequence of user events changes the form. |
| `VideoInput.SessionFromInitial` | upload-ai-web/src/components/video-input-form.tsx:98-176 | Take a fresh form and any sequence of user events. While the form is in `waiting`, nothing has happened. Once it has left `waiting`, a file is selected, the trace is exactly one submission of that file, and the status is that submission's final status. Its writes follow pipeline order, its steps form a prefix of convert, upload, transcribe, and no later event changes the form. `onVideoUploaded` is called at most once and `waiting` is never written. |
| `VideoInput.VideoInputForm.constructor` | upload-ai-web/src/components/video-input-form.tsx:51-52 | The form starts in `waiting` with no file and an empty trace. |
| `VideoInput.VideoInputForm.SetStatus` | upload-ai-web/src/components/video-input-form.tsx:51 | `setStatus` replaces the status and records the write at the end of the trace. Nothing else changes. |
| `VideoInput.VideoInputForm.HandleFileSelected` | upload-ai-web/src/components/video-input-form.tsx:90-96 | Updates `videoFile` as `AfterFileSelected` says, and touches nothing else. |
| `VideoInput.VideoInputForm.HandleUploadVideo` | upload-ai-web/src/components/video-input-form.tsx:98-127 | The imperative handler sets status before each step and maps a failure to `error`. Its new state is exactly `AfterUploadVideo` of the old state. |
| `VideoInput.VideoInputForm.OnFileInputChange` | upload-ai-web/src/components/video-input-form.tsx:154-161 | A file change reaches the handler only while the input is enabled. |
| `VideoInput.VideoInputForm.OnSubmit` | upload-ai-web/src/components/video-input-form.tsx:175-180 | A submit reaches the handler only while the button is enabled. |
| `PromptSelection.Find` | upload-ai-web/src/components/prompt-select.tsx:28 | Returns None if and only if no prompt has the id. Otherwise it returns a prompt with that id that no earlier prompt's id matches. |
| `PromptSelection.SelectedTemplate` | upload-ai-web/src/components/prompt-select.tsx:27-33 | Returns nothing when the list is not loaded, and nothing when no prompt has the id. Otherwise it returns the template of the first prompt with that id, verbatim. |
| `PromptSelection.RenderItems` | upload-ai-web/src/components/prompt-select.tsx:55-59 | One option per prompt, in list order. Each option has key and value equal to the id, and the title as its text. |
| `PromptSelection.RenderedItems` | upload-ai-web/src/components/prompt-select.tsx:54-60 | No options before the list is loaded. After that, the options of the list. |
| `PromptSelection.ChoosingRenderedItem` | upload-ai-web/src/components/prompt-select.tsx:49-59 | Choosing any rendered option reaches `onSelected`. If no earlier prompt shares the option's id, it receives that option's prompt template. |
| `PromptSelection.PromptSelect.constructor` | upload-ai-web/src/components/prompt-select.tsx:25 | The list starts absent and nothing has been selected. |
| `PromptSelection.PromptSelect.HandleSelected` | upload-ai-web/src/components/prompt-select.tsx:27-33 | Appends `SelectedTemplate` to the templates passed to `onSelected` when there is one. When there is none, nothing is appended. The list is left unchanged. |
| `PromptSelection.PromptSelect.GetPrompts` | upload-ai-web/src/components/prompt-select.tsx:35-39 | The fetched list replaces the whole state, and nothing else changes. |
| `TranscriptionRoute.IsUuid` | upload-ai-api/src/routes/create-transcription.ts:10 | `z.string().uuid()`: 36 characters, hyphens at positions 8, 13, 18 and 23, hexadecimal digits elsewhere. |
| `TranscriptionRoute.ParseParams` | upload-ai-api/src/routes/create-transcription.ts:9-19 | Accepts exactly a `videoId` parameter in UUID form and yields it. Anything else is `InvalidParams`. |
| `TranscriptionRoute.ParseBody` | upload-ai-api/src/routes/create-transcription.ts:13-20 | Accepts exactly an object whose `prompt` is a string and yields that string. Anything else is `InvalidBody`. |
| `TranscriptionRoute.RequestFor` | upload-ai-api/src/routes/create-transcription.ts:28-37 | The request reads the audio from the stored path, carries the caller's prompt, and uses model `whisper-1`, language `pt`, format `json` and temperature 0. |
| `TranscriptionRoute.Transcribe` | upload-ai-api/src/routes/create-transcription.ts:18-49 | An invalid id or body is rejected before any lookup, request or change. An unknown id throws, with nothing sent and nothing changed. A valid request for a stored video sends exactly one backend request: fixed model `whisper-1`, language `pt`, format `json`, temperature 0, the video's stored path, and the caller's prompt unchanged. The response is `Ok` if and only if the backend returns text. Then the text is returned and stored as that video's transcription; other videos, the key set and the path are untouched. A backend failure is `TranscriptionFailed` with the table unchanged. |
| `TranscriptionRoute.LastWriteWins` | upload-ai-api/src/routes/create-transcription.ts:39-46 | After two successful transcriptions of one video, the table is the original with only the second text stored. The first text is gone. |
| `TranscriptionRoute.NilUuidNotFound` | upload-ai-api/src/routes/create-transcription.ts:9-26 | The all-zero id passes validation. When no video has it, the route throws not-found with the table and the backend untouched. |
| `TranscriptionRoute.TranscriptionService.FindUniqueOrThrow` | upload-ai-api/src/routes/create-transcription.ts:22-26 | Returns the stored record if and only if the id is present. Otherwise it throws not-found. |
| `TranscriptionRoute.TranscriptionService.UpdateTranscription` | upload-ai-api/src/routes/create-transcription.ts:41-46 | Overwrites only the addressed video's transcription. |
| `TranscriptionRoute.TranscriptionService.CreateTranscription` | upload-ai-api/src/routes/create-transcription.ts:18-49 | The imperative handler (parse, look up, send, update, return) produces exactly the response, table and sent requests that `Transcribe` describes. |

## Left out

- Transcoder internals are not modelled: its lazy loading, the virtual file system, the progress listener and the console logs. Conversion is one step that fails or yields MP3 bytes. The argument list is kept as a constant, but what it does to the audio is not verified.
- The HTTP client, the database client, the speech-to-text client and the file stream are not modelled. They are replaced by a map and by total functions that fail or return a value. Network, streaming and file-system behaviour are out of scope.
- An upload response without an `id` field is not modelled: the upload either fails or returns an id.
- A throwing `onVideoUploaded` is not modelled. In the source, such a throw at upload-ai-web/src/components/video-input-form.tsx:115 is caught at lines 123-125: `error` is written and the transcription request is skipped. The model's callback always returns, so that path is missing from `Submission`.
- The prompt textarea's value is modelled as a string given at submit time. `promptInputRef.current` being unset cannot happen while the form is mounted. The textarea is disabled while the pipeline runs, so its text cannot change in between.
- The interleaving of `await`s is not modelled: the handler runs as straight-line code, so the user can act only between submissions. Rejecting a second submit while the pipeline runs depends on the same `disabled` flags that `Render` states.
- IsUuid: the schema library's exact UUID regular expression is not part of this model. The textual 8-4-4-4-12 hexadecimal form is used instead.
- JSON values are only told apart as strings, objects and everything else. The framework's error responses and status codes are not modelled: a thrown error is `Err`.
- UpdateTranscription: is called only after a successful lookup. Concurrent deletion is not modelled, so the database's throw on a missing record is left out (it requires the id to be present).
- `statusIcon`, the video preview URL and all layout are not modelled; they are presentation only.
- The fetch on mount (`useEffect`) and a failed fetch are not modelled. `GetPrompts` takes the fetched list as its argument.
- `App.tsx` is not part of this model: its layout, temperature slider and placeholder hint. Completion streaming, automatic template substitution and the `/videos` and `/prompts` routes are not either; no code of the modelled files implements them.
- The record's `createdAt` field is not modelled.
