# Transcription endpoint: request dispatch and output shaping

A Dafny model of two pieces of a small media-transcription service.

- **The `POST /transcribe` route** (`routes/transcribe.py`). It validates the request: `media_url` first, then the pairing of `webhook_url` and `id`. It takes a job id. It registers an after-request hook that starts a background thread. It then answers either `202 {"message": "processing"}` (asynchronous mode, both `webhook_url` and `id` given) or the outcome of an inline transcription (synchronous mode). The background thread (`process_and_notify`) transcribes again and, when it has a webhook URL, posts a success or a failure payload to it.
- **The transcription service** (`services/transcription.py`). `process_transcription` downloads the media to the fixed path `/tmp/input_media` and runs the speech model on it. Depending on the output type it returns the transcript text, an SRT document that `srt.compose` builds from a list of subtitles (the list has one subtitle per model segment, in segment order, numbered from 1, with the segment text stripped), or the invalid-output-type error. It removes the downloaded file only when it produced an output.

Layout:

- `common.dfy` (module `Common`): `Option`, `Result` (`Ok(value)` or `Err(str(e))`), and a `Filter` over sequences with its lemmas.
- `transcription.dfy` (module `Transcription`): the service.
  - `Host` is a class. Its field `files` is the set of local paths that exist. Its field `calls` logs the collaborator calls made (`Download`, `RunModel`, `Remove`).
  - `Host.ProcessTranscription` is the imperative procedure. `BuildSubtitles` is its subtitle loop.
  - `Render` and `Enumerate` are the functions the procedure is proved against.
- `transcribe_route.dfy` (module `TranscribeRoute`): the route.
  - `Validate` and `ResponseFor` are the pure decision table.
  - `RequestEffects`, `NotifyEffects`, `Notifications` and `ServeEffects` give the effects each path performs, as a sequence of `Effect`s: `NewJobId`, `ScheduleJob`, `TranscribeCall` and `Webhook(url, payload)`.
  - `Server` is a class whose field `trace` records those effects in order. Its methods mirror `transcribe()`, the after-request hook and `process_and_notify`.

Collaborators are parameters:

- the fresh job id from `uuid4` (`jobId`);
- the outcome of each `process_transcription` call on the route (`inline`, `background`);
- what the success `send_webhook` raises (`sendError`);
- what `download_file` returns or raises (`downloaded`);
- what the speech model returns or raises (`transcribed`);
- `srt.compose` (`compose`).

Behaviour kept exactly as the code has it:

- The hook that starts the background thread is registered before the mode check. So a synchronous request also starts a background job: the media is transcribed twice, and the background copy sends no webhook.
- A success `send_webhook` that raises is caught by the same handler as a transcription error, so a failure payload follows the success payload.
- A rejected request takes no job id and starts no job.

## Model

| member | source | states |
|---|---|---|
| `Transcription.InputTarget` | services/transcription.py:13-18 | every download goes to the single fixed path `/tmp/input_media` (`os.path.join(STORAGE_PATH, 'input_media')`) |
| `Transcription.TrimStartSpec` | services/transcription.py:36 | the leading part `strip()` removes is all whitespace, the rest is kept as a suffix, and it starts with a non-space |
| `Transcription.TrimEndSpec` | services/transcription.py:36 | the trailing part `strip()` removes is all whitespace, the rest is kept as a prefix, and it ends with a non-space |
| `Transcription.StripSpec` | services/transcription.py:36 | `strip()` keeps a slice `s[i..j]` with only whitespace outside it and no whitespace at either end of it |
| `Transcription.StripIdempotent` | services/transcription.py:36 | stripping an already stripped segment text changes nothing |
| `Transcription.BuildSubtitles` | services/transcription.py:32-37 | exactly one subtitle per segment, in segment order, numbered 1..n, each with its segment's start and end and its text stripped |
| `Transcription.Render` | services/transcription.py:28-41 | `'transcript'` gives the model's text unchanged, `'srt'` gives the composed subtitles, and any other type (and only those) gives the ValueError message |
| `Transcription.Host.ProcessTranscription` | services/transcription.py:15-49 | the download to the fixed path always happens first; a failed download stores nothing and raises; otherwise the model runs on the file whatever the output type, the result is the model error or `Render`'s result, and the file is removed exactly when an output was produced (it stays on every error, including an invalid type) |
| `TranscribeRoute.LowerSpec` | routes/transcribe.py:18 | lowering maps each character on its own and leaves no ASCII upper-case letter |
| `TranscribeRoute.OutputTypeSpec` | routes/transcribe.py:18 | `output` defaults to `'transcript'` and is lowercased |
| `TranscribeRoute.Validate` | routes/transcribe.py:24-34 | a missing or empty `media_url` gives 400 whatever else is set; then `webhook_url` without `id` gives the 500 id-missing message and `id` without `webhook_url` the 500 webhook_url-missing message; the request is accepted if and only if none of these holds |
| `TranscribeRoute.ResponseFor` | routes/transcribe.py:24-85 | the full response table: the three rejections, 202 `processing` when both `webhook_url` and `id` are given, otherwise 200 with the inline result or 500 with its error message |
| `TranscribeRoute.RejectedRequest` | routes/transcribe.py:24-36 | a rejected request gets its rejection response (400 or 500) and has no effect: no job id, no job, no transcription |
| `TranscribeRoute.NotificationPayloads` | routes/transcribe.py:45-64 | every webhook goes to the job's `webhook_url` and carries endpoint `/transcribe`, the caller's `id`, and either code 200 with a response and message `success` or code 500 with response None |
| `TranscribeRoute.NotificationCount` | routes/transcribe.py:45-64 | no webhook without a `webhook_url`; otherwise one payload reporting the outcome (success with the result, or failure with `str(e)`), and a second one only when a success send raised |
| `TranscribeRoute.JobIdsOfRun` | routes/transcribe.py:36-37 | an accepted request and its background job take exactly one job id |
| `TranscribeRoute.JobsOfRun` | routes/transcribe.py:66-71 | an accepted request starts exactly one background job, carrying its arguments |
| `TranscribeRoute.TranscriptionsOfRun` | routes/transcribe.py:39-85 | transcription runs once (in the background) in asynchronous mode and twice (inline, then in the background) in synchronous mode |
| `TranscribeRoute.WebhooksOfRun` | routes/transcribe.py:39-85 | the request path sends no webhook; the only webhooks are the background job's notifications |
| `TranscribeRoute.JobEffects` | routes/transcribe.py:36-85 | the four counts above together, for any accepted job in either mode |
| `TranscribeRoute.OneJobPerAcceptedRequest` | routes/transcribe.py:36-71 | every accepted request, asynchronous or synchronous, gets one job id and schedules one job that carries its `media_url`, lowered `output`, `webhook_url`, `id` and the job id |
| `TranscribeRoute.AsynchronousRequest` | routes/transcribe.py:39-76 | asynchronous mode answers 202 without transcribing on the request path; the background job transcribes once and sends the success payload or exactly one failure payload, and a failure payload after the success payload only if sending it raised |
| `TranscribeRoute.SynchronousRequest` | routes/transcribe.py:66-85 | synchronous mode answers with the inline outcome (200 result or 500 message), transcribes twice and sends no webhook |
| `TranscribeRoute.Server.StartBackgroundProcessing` | routes/transcribe.py:66-71 | the hook appends exactly one `ScheduleJob` with the captured arguments |
| `TranscribeRoute.Server.ProcessAndNotify` | routes/transcribe.py:39-64 | the background thread appends one transcription followed by its notifications, and nothing else |
| `TranscribeRoute.Server.Transcribe` | routes/transcribe.py:15-85 | the request path returns `ResponseFor`, hands the hook the job exactly when the request is accepted, and appends exactly `RequestEffects` (job id, inline transcription in synchronous mode, job start) |
| `TranscribeRoute.Server.Serve` | routes/transcribe.py:15-85 | a request followed by its background job returns `ResponseFor` and appends exactly `ServeEffects` |

## Left out

- Flask request and response framing, `jsonify`, and the `@authenticate` decorator are not modelled. `services/authentication.py` is not part of this model.
- Real threads and the timing of `after_this_request` are not modelled. Starting the thread is a `ScheduleJob` entry, recorded where the hook runs: after the request path's own effects. `Server.Serve` runs the background job straight after the request. Concurrency between jobs is not modelled, including two jobs racing on the shared `/tmp/input_media`.
- `uuid.uuid4()`: the job id is a parameter. Its uniqueness is not modelled; only whether an id is taken is.
- `whisper.load_model("base")` and `model.transcribe` are one collaborator (`RunModel`). Its outcome is a parameter, and the log records the call even when loading the model is what fails.
- Segment start and end times are opaque integers that are only copied. `timedelta` conversion from float seconds is not modelled.
- `srt.compose` is a function parameter. What it does to the list is not modelled: with its default `reindex=True` it sorts the subtitles by start time, renumbers them, and drops those with empty content, a negative start, or a start not before the end. So the model states what the list handed to `compose` holds, not the numbering or count of the subtitles in the returned document.
- `download_file` is a collaborator: `services/file_management.py` is not part of this model. The model assumes it stores the media at the path it returns, and stores nothing when it raises.
- `os.remove` is assumed to succeed.
- `send_webhook` is a collaborator: `services/webhook.py` is not part of this model. Only a raise from the success send is modelled, through `sendError`. A raise from the failure send ends the thread and adds no further effect.
- The route takes the outcome of each `process_transcription` call as a parameter. That outcome is not derived from `Transcription.Host.ProcessTranscription`.
- Only optional strings are modelled as JSON field values. Non-string values (a numeric `id`), an explicit `null` for `output` (which makes `.lower()` raise), and a request without a JSON body are not modelled.
- `TranscribeRoute.LowerSpec`: promises only that no ASCII upper-case letter remains, because `TranscribeRoute.Lower` lowercases ASCII letters only, not the whole of Python's Unicode `str.lower()`. For the output-type dispatch this makes no difference: no other character lowers into `transcript` or `srt`.
- Logging is not modelled.
