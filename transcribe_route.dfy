/**
 * The `POST /transcribe` route: request validation, the choice between an asynchronous reply
 * (202, result delivered by webhook) and a synchronous one (the result in the response), the
 * background job registered for every accepted request, and the webhook payloads that job sends.
 *
 * `process_transcription` is a collaborator: each call is recorded as a `TranscribeCall` effect and
 * its outcome is a parameter. `send_webhook`, the fresh job id (`uuid4`) and the start of the
 * background thread are recorded effects as well; `Server.trace` holds them in the order they happen.
 */
module TranscribeRoute {
  import opened Common

  /** The JSON fields the route reads; `None` is a field the body does not carry. */
  datatype Request = Request(mediaUrl: Option<string>, output: Option<string>,
                             webhookUrl: Option<string>, id: Option<string>)

  /** Python truthiness of an optional string: present and non-empty. */
  predicate Truthy(v: Option<string>)
  {
    v.Some? && v.value != ""
  }

  predicate IsAsciiUpper(c: char)
  {
    'A' <= c <= 'Z'
  }

  function LowerChar(c: char): char
  {
    if IsAsciiUpper(c) then (c as int + 32) as char else c
  }

  /** `str.lower()`, on ASCII letters. */
  function Lower(s: string): string
  {
    seq(|s|, k requires 0 <= k < |s| => LowerChar(s[k]))
  }

  /** Lowering maps each character on its own and leaves no ASCII upper-case letter. */
  lemma LowerSpec(s: string)
    ensures |Lower(s)| == |s|
    ensures forall k :: 0 <= k < |s| ==> Lower(s)[k] == LowerChar(s[k]) && !IsAsciiUpper(Lower(s)[k])
  {
  }

  /** `data.get('output', 'transcript').lower()`. */
  function OutputType(req: Request): string
  {
    Lower(req.output.GetOr("transcript"))
  }

  /** The output type defaults to 'transcript' and is case-insensitive. */
  lemma OutputTypeSpec(req: Request)
    ensures req.output.None? ==> OutputType(req) == "transcript"
    ensures req.output.Some? ==> OutputType(req) == Lower(req.output.value)
    ensures forall k :: 0 <= k < |OutputType(req)| ==> !IsAsciiUpper(OutputType(req)[k])
  {
    LowerSpec(req.output.GetOr("transcript"));
    if req.output.None? {
      LowerSpec("transcript");
      assert Lower("transcript") == "transcript";
    }
  }

  // ---------------------------------------------------------------------------------------------
  // Responses
  // ---------------------------------------------------------------------------------------------

  datatype Body =
    | ErrorBody(error: string)       // {"error": ...}
    | MessageBody(message: string)   // {"message": ...}
    | ResultBody(response: string)   // {"response": ...}

  datatype Response = Response(status: int, body: Body)

  const MISSING_MEDIA_URL: Response := Response(400, ErrorBody("Missing media_url parameter"))
  const MISSING_ID: Response :=
    Response(500, MessageBody("It appears that the id is missing. Please review your API call and try again."))
  const MISSING_WEBHOOK_URL: Response :=
    Response(500, MessageBody("It appears that the webhook_url is missing. Please review your API call and try again."))
  const PROCESSING: Response := Response(202, MessageBody("processing"))

  /**
   * The validation checks in order: `media_url` first, then the `webhook_url`/`id` pairing.
   * `None` means the request is accepted.
   */
  function Validate(req: Request): (r: Option<Response>)
    ensures !Truthy(req.mediaUrl) ==> r == Some(MISSING_MEDIA_URL)
    ensures Truthy(req.mediaUrl) && Truthy(req.webhookUrl) && !Truthy(req.id) ==> r == Some(MISSING_ID)
    ensures Truthy(req.mediaUrl) && Truthy(req.id) && !Truthy(req.webhookUrl) ==> r == Some(MISSING_WEBHOOK_URL)
    ensures r.None? <==> Accepted(req)
  {
    if !Truthy(req.mediaUrl) then Some(MISSING_MEDIA_URL)
    else if Truthy(req.webhookUrl) && !Truthy(req.id) then Some(MISSING_ID)
    else if Truthy(req.id) && !Truthy(req.webhookUrl) then Some(MISSING_WEBHOOK_URL)
    else None
  }

  /** A request that passes validation. */
  predicate Accepted(req: Request)
  {
    Truthy(req.mediaUrl) && (Truthy(req.webhookUrl) <==> Truthy(req.id))
  }

  /** An accepted request is answered at once, with its result sent later, when both are given. */
  predicate IsAsync(req: Request)
  {
    Truthy(req.webhookUrl) && Truthy(req.id)
  }

  /** The synchronous response for the outcome of the inline `process_transcription` call. */
  function Mirror(outcome: Result<string>): Response
  {
    match outcome
    case Ok(content) => Response(200, ResultBody(content))
    case Err(msg) => Response(500, MessageBody(msg))
  }

  /** The HTTP response to `req`, given the outcome of the inline transcription (if it is made). */
  function ResponseFor(req: Request, inline: Result<string>): (resp: Response)
    ensures !Truthy(req.mediaUrl) ==> resp == MISSING_MEDIA_URL
    ensures Truthy(req.mediaUrl) && Truthy(req.webhookUrl) && !Truthy(req.id) ==> resp == MISSING_ID
    ensures Truthy(req.mediaUrl) && Truthy(req.id) && !Truthy(req.webhookUrl) ==> resp == MISSING_WEBHOOK_URL
    ensures Truthy(req.mediaUrl) && IsAsync(req) ==> resp == PROCESSING
    ensures Truthy(req.mediaUrl) && !Truthy(req.webhookUrl) && !Truthy(req.id) ==>
      resp == (if inline.Ok? then Response(200, ResultBody(inline.value)) else Response(500, MessageBody(inline.msg)))
  {
    match Validate(req)
    case Some(rejection) => rejection
    case None => if IsAsync(req) then PROCESSING else Mirror(inline)
  }

  // ---------------------------------------------------------------------------------------------
  // Effects: job ids, background jobs, transcriptions, webhooks
  // ---------------------------------------------------------------------------------------------

  /** The arguments the background thread is started with. */
  datatype Job = Job(mediaUrl: string, output: string, webhookUrl: Option<string>,
                     id: Option<string>, jobId: string)

  /** A webhook body: `{"endpoint", "id", "response", "code", "message"}`. */
  datatype Payload = Payload(endpoint: string, id: Option<string>, response: Option<string>,
                             code: int, message: string)

  datatype Effect =
    | NewJobId(jobId: string)                             // job_id = str(uuid.uuid4())
    | ScheduleJob(job: Job)                               // threading.Thread(...).start()
    | TranscribeCall(mediaUrl: string, output: string)    // process_transcription(media_url, output)
    | Webhook(url: string, payload: Payload)              // send_webhook(url, payload)

  predicate IsNewJobId(e: Effect) { e.NewJobId? }
  predicate IsScheduleJob(e: Effect) { e.ScheduleJob? }
  predicate IsTranscribeCall(e: Effect) { e.TranscribeCall? }
  predicate IsWebhook(e: Effect) { e.Webhook? }

  const ENDPOINT: string := "/transcribe"

  function SuccessPayload(id: Option<string>, result: string): Payload
  {
    Payload(ENDPOINT, id, Some(result), 200, "success")
  }

  function FailurePayload(id: Option<string>, msg: string): Payload
  {
    Payload(ENDPOINT, id, None, 500, msg)
  }

  /** The job an accepted request hands to the background thread. */
  function JobFor(req: Request, jobId: string): Job
    requires Truthy(req.mediaUrl)
  {
    Job(req.mediaUrl.value, OutputType(req), req.webhookUrl, req.id, jobId)
  }

  /**
   * The request path of an accepted request: a fresh job id, the inline transcription in
   * synchronous mode, and the background job started by the after-request hook as the response
   * goes out.
   */
  function AcceptedEffects(job: Job, async: bool): seq<Effect>
  {
    [NewJobId(job.jobId)]
    + (if async then [] else [TranscribeCall(job.mediaUrl, job.output)])
    + [ScheduleJob(job)]
  }

  /** What the request path does; a rejected request does nothing. */
  function RequestEffects(req: Request, jobId: string): seq<Effect>
  {
    if Accepted(req) then AcceptedEffects(JobFor(req, jobId), IsAsync(req)) else []
  }

  /**
   * The webhooks the background job sends once `process_transcription` has returned or raised:
   * none without a webhook URL; otherwise the success payload, or the failure payload. `sendError`
   * is what the success `send_webhook` raises, if it raises: the same handler catches it and sends
   * a failure payload after it.
   */
  function Notifications(job: Job, outcome: Result<string>, sendError: Option<string>): seq<Effect>
  {
    if !Truthy(job.webhookUrl) then []
    else match outcome
      case Ok(content) =>
        [Webhook(job.webhookUrl.value, SuccessPayload(job.id, content))]
        + (if sendError.Some? then [Webhook(job.webhookUrl.value, FailurePayload(job.id, sendError.value))] else [])
      case Err(msg) =>
        [Webhook(job.webhookUrl.value, FailurePayload(job.id, msg))]
  }

  /** What the background job does (`process_and_notify`): one transcription, then its webhooks. */
  function NotifyEffects(job: Job, outcome: Result<string>, sendError: Option<string>): seq<Effect>
  {
    [TranscribeCall(job.mediaUrl, job.output)] + Notifications(job, outcome, sendError)
  }

  /** The request path followed by the background job it scheduled, if any. */
  function ServeEffects(req: Request, jobId: string, background: Result<string>, sendError: Option<string>): seq<Effect>
  {
    RequestEffects(req, jobId)
    + if Accepted(req) then NotifyEffects(JobFor(req, jobId), background, sendError) else []
  }

  // ---------------------------------------------------------------------------------------------
  // Properties of the route
  // ---------------------------------------------------------------------------------------------

  /** A rejected request has no effect at all: no job id, no job, no transcription. */
  lemma RejectedRequest(req: Request, jobId: string, inline: Result<string>, background: Result<string>,
                        sendError: Option<string>)
    requires !Accepted(req)
    ensures ResponseFor(req, inline) == Validate(req).value
    ensures ResponseFor(req, inline).status in {400, 500}
    ensures ServeEffects(req, jobId, background, sendError) == []
  {
  }

  /** Every webhook payload names the endpoint, echoes the caller's id, and has the success or the failure shape. */
  lemma NotificationPayloads(job: Job, outcome: Result<string>, sendError: Option<string>)
    ensures forall e :: e in Notifications(job, outcome, sendError) ==>
      && e.Webhook? && Truthy(job.webhookUrl) && e.url == job.webhookUrl.value
      && e.payload.endpoint == ENDPOINT && e.payload.id == job.id
      && ((e.payload.code == 200 && e.payload.response.Some? && e.payload.message == "success")
          || (e.payload.code == 500 && e.payload.response.None?))
  {
  }

  /** Exactly one payload reports the outcome, unless reporting a success raised. */
  lemma NotificationCount(job: Job, outcome: Result<string>, sendError: Option<string>)
    ensures |Notifications(job, outcome, sendError)| ==
      if !Truthy(job.webhookUrl) then 0 else if outcome.Ok? && sendError.Some? then 2 else 1
    ensures Truthy(job.webhookUrl) ==>
      Notifications(job, outcome, sendError)[0].payload ==
        if outcome.Ok? then SuccessPayload(job.id, outcome.value) else FailurePayload(job.id, outcome.msg)
  {
  }

  /** A run of webhook calls holds no other kind of effect. */
  lemma {:induction false} FilterOfWebhooks(t: seq<Effect>)
    requires forall e :: e in t ==> e.Webhook?
    ensures Filter(t, IsNewJobId) == [] && Filter(t, IsScheduleJob) == [] && Filter(t, IsTranscribeCall) == []
    ensures Filter(t, IsWebhook) == t
  {
    if t != [] {
      assert t[0] in t;
      assert forall e :: e in t[1..] ==> e in t;
      FilterOfWebhooks(t[1..]);
    }
  }

  /** `Filter` taken apart along the pieces of an accepted request's run. */
  lemma FilterOfRun(job: Job, async: bool, outcome: Result<string>, sendError: Option<string>, p: Effect -> bool)
    ensures var inlineCalls := if async then [] else [TranscribeCall(job.mediaUrl, job.output)];
      Filter(AcceptedEffects(job, async) + NotifyEffects(job, outcome, sendError), p)
      == ((Filter([NewJobId(job.jobId)], p) + Filter(inlineCalls, p)) + Filter([ScheduleJob(job)], p))
         + (Filter([TranscribeCall(job.mediaUrl, job.output)], p) + Filter(Notifications(job, outcome, sendError), p))
  {
    var call := TranscribeCall(job.mediaUrl, job.output);
    var inlineCalls := if async then [] else [call];
    FilterAppend(AcceptedEffects(job, async), NotifyEffects(job, outcome, sendError), p);
    FilterAppend([NewJobId(job.jobId)] + inlineCalls, [ScheduleJob(job)], p);
    FilterAppend([NewJobId(job.jobId)], inlineCalls, p);
    FilterAppend([call], Notifications(job, outcome, sendError), p);
  }

  lemma JobIdsOfRun(job: Job, async: bool, outcome: Result<string>, sendError: Option<string>)
    ensures Filter(AcceptedEffects(job, async) + NotifyEffects(job, outcome, sendError), IsNewJobId) == [NewJobId(job.jobId)]
  {
    var call := TranscribeCall(job.mediaUrl, job.output);
    FilterOfWebhooks(Notifications(job, outcome, sendError));
    FilterOfRun(job, async, outcome, sendError, IsNewJobId);
    FilterSingleton(NewJobId(job.jobId), IsNewJobId);
    FilterSingleton(ScheduleJob(job), IsNewJobId);
    FilterSingleton(call, IsNewJobId);
  }

  lemma JobsOfRun(job: Job, async: bool, outcome: Result<string>, sendError: Option<string>)
    ensures Filter(AcceptedEffects(job, async) + NotifyEffects(job, outcome, sendError), IsScheduleJob) == [ScheduleJob(job)]
  {
    var call := TranscribeCall(job.mediaUrl, job.output);
    FilterOfWebhooks(Notifications(job, outcome, sendError));
    FilterOfRun(job, async, outcome, sendError, IsScheduleJob);
    FilterSingleton(NewJobId(job.jobId), IsScheduleJob);
    FilterSingleton(ScheduleJob(job), IsScheduleJob);
    FilterSingleton(call, IsScheduleJob);
  }

  lemma TranscriptionsOfRun(job: Job, async: bool, outcome: Result<string>, sendError: Option<string>)
    ensures var call := TranscribeCall(job.mediaUrl, job.output);
      Filter(AcceptedEffects(job, async) + NotifyEffects(job, outcome, sendError), IsTranscribeCall)
      == (if async then [call] else [call, call])
  {
    var call := TranscribeCall(job.mediaUrl, job.output);
    FilterOfWebhooks(Notifications(job, outcome, sendError));
    FilterOfRun(job, async, outcome, sendError, IsTranscribeCall);
    FilterSingleton(NewJobId(job.jobId), IsTranscribeCall);
    FilterSingleton(ScheduleJob(job), IsTranscribeCall);
    FilterSingleton(call, IsTranscribeCall);
    assert [call] + [call] == [call, call];
  }

  lemma WebhooksOfRun(job: Job, async: bool, outcome: Result<string>, sendError: Option<string>)
    ensures Filter(AcceptedEffects(job, async) + NotifyEffects(job, outcome, sendError), IsWebhook)
         == Notifications(job, outcome, sendError)
  {
    var call := TranscribeCall(job.mediaUrl, job.output);
    FilterOfWebhooks(Notifications(job, outcome, sendError));
    FilterOfRun(job, async, outcome, sendError, IsWebhook);
    FilterSingleton(NewJobId(job.jobId), IsWebhook);
    FilterSingleton(ScheduleJob(job), IsWebhook);
    FilterSingleton(call, IsWebhook);
    var inlineCalls := if async then [] else [call];
    assert Filter(inlineCalls, IsWebhook) == [];
  }

  /**
   * One accepted request, followed by its background job, takes one job id and starts one job;
   * it transcribes once in asynchronous mode and twice in synchronous mode (inline, then in the
   * background job registered before the mode check); its only webhooks are the background job's.
   */
  lemma JobEffects(job: Job, async: bool, outcome: Result<string>, sendError: Option<string>)
    ensures var t := AcceptedEffects(job, async) + NotifyEffects(job, outcome, sendError);
      var call := TranscribeCall(job.mediaUrl, job.output);
      && Filter(t, IsNewJobId) == [NewJobId(job.jobId)]
      && Filter(t, IsScheduleJob) == [ScheduleJob(job)]
      && Filter(t, IsTranscribeCall) == (if async then [call] else [call, call])
      && Filter(t, IsWebhook) == Notifications(job, outcome, sendError)
  {
    JobIdsOfRun(job, async, outcome, sendError);
    JobsOfRun(job, async, outcome, sendError);
    TranscriptionsOfRun(job, async, outcome, sendError);
    WebhooksOfRun(job, async, outcome, sendError);
  }

  /** Every accepted request gets exactly one job id and exactly one background job, in both modes. */
  lemma OneJobPerAcceptedRequest(req: Request, jobId: string, background: Result<string>, sendError: Option<string>)
    requires Accepted(req)
    ensures Filter(ServeEffects(req, jobId, background, sendError), IsNewJobId) == [NewJobId(jobId)]
    ensures Filter(ServeEffects(req, jobId, background, sendError), IsScheduleJob)
         == [ScheduleJob(Job(req.mediaUrl.value, OutputType(req), req.webhookUrl, req.id, jobId))]
  {
    JobEffects(JobFor(req, jobId), IsAsync(req), background, sendError);
  }

  /**
   * Asynchronous mode: the caller gets 202 at once, the request path never transcribes, the
   * background job transcribes once and sends the success payload or exactly one failure payload;
   * a failure payload follows a success payload only when sending the success payload raised.
   */
  lemma AsynchronousRequest(req: Request, jobId: string, inline: Result<string>,
                            background: Result<string>, sendError: Option<string>)
    requires Accepted(req) && IsAsync(req)
    ensures ResponseFor(req, inline) == PROCESSING
    ensures Filter(RequestEffects(req, jobId), IsTranscribeCall) == []
    ensures Filter(ServeEffects(req, jobId, background, sendError), IsTranscribeCall)
         == [TranscribeCall(req.mediaUrl.value, OutputType(req))]
    ensures Filter(ServeEffects(req, jobId, background, sendError), IsWebhook)
         == match background
            case Err(msg) => [Webhook(req.webhookUrl.value, FailurePayload(req.id, msg))]
            case Ok(content) =>
              [Webhook(req.webhookUrl.value, SuccessPayload(req.id, content))]
              + (if sendError.Some? then [Webhook(req.webhookUrl.value, FailurePayload(req.id, sendError.value))] else [])
  {
    var job := JobFor(req, jobId);
    JobEffects(job, true, background, sendError);
    FilterAppend([NewJobId(jobId)], [ScheduleJob(job)], IsTranscribeCall);
  }

  /**
   * Synchronous mode: the response mirrors the inline transcription, the media is transcribed
   * twice and no webhook is ever sent.
   */
  lemma SynchronousRequest(req: Request, jobId: string, inline: Result<string>,
                           background: Result<string>, sendError: Option<string>)
    requires Accepted(req) && !IsAsync(req)
    ensures ResponseFor(req, inline) == Mirror(inline)
    ensures Filter(ServeEffects(req, jobId, background, sendError), IsTranscribeCall)
         == [TranscribeCall(req.mediaUrl.value, OutputType(req)), TranscribeCall(req.mediaUrl.value, OutputType(req))]
    ensures Filter(ServeEffects(req, jobId, background, sendError), IsWebhook) == []
  {
    JobEffects(JobFor(req, jobId), false, background, sendError);
  }

  // ---------------------------------------------------------------------------------------------
  // The route as it runs
  // ---------------------------------------------------------------------------------------------

  /** The process serving the route, with the effects it has performed so far. */
  class Server {
    var trace: seq<Effect>

    constructor ()
      ensures trace == []
    {
      trace := [];
    }

    /** `start_background_processing`, the after-request hook: starts the background thread. */
    method StartBackgroundProcessing(job: Job)
      modifies this
      ensures trace == old(trace) + [ScheduleJob(job)]
    {
      trace := trace + [ScheduleJob(job)];
    }

    /** `process_and_notify`, the body of the background thread. */
    method ProcessAndNotify(job: Job, outcome: Result<string>, sendError: Option<string>)
      modifies this
      ensures trace == old(trace) + NotifyEffects(job, outcome, sendError)
    {
      trace := trace + [TranscribeCall(job.mediaUrl, job.output)];
      match outcome {
        case Ok(result) =>
          if Truthy(job.webhookUrl) {
            trace := trace + [Webhook(job.webhookUrl.value, SuccessPayload(job.id, result))];
            if sendError.Some? {
              // the success send raised; the same handler reports it as a failure
              trace := trace + [Webhook(job.webhookUrl.value, FailurePayload(job.id, sendError.value))];
            }
          }
        case Err(e) =>
          if Truthy(job.webhookUrl) {
            trace := trace + [Webhook(job.webhookUrl.value, FailurePayload(job.id, e))];
          }
      }
    }

    /**
     * `transcribe()` on the request path. `jobId` is the fresh id `uuid4` would give and `inline`
     * the outcome of the synchronous `process_transcription` call; `job` is the background job
     * the hook starts, if any.
     */
    method Transcribe(req: Request, jobId: string, inline: Result<string>) returns (resp: Response, job: Option<Job>)
      modifies this
      ensures resp == ResponseFor(req, inline)
      ensures job == (if Accepted(req) then Some(JobFor(req, jobId)) else None)
      ensures trace == old(trace) + RequestEffects(req, jobId)
    {
      var output := OutputType(req);
      var rejection := Validate(req);
      if rejection.Some? {
        return rejection.value, None;
      }
      var mediaUrl := req.mediaUrl.value;
      trace := trace + [NewJobId(jobId)];
      var j := Job(mediaUrl, output, req.webhookUrl, req.id, jobId);
      if Truthy(req.webhookUrl) && Truthy(req.id) {
        resp := PROCESSING;
      } else {
        trace := trace + [TranscribeCall(mediaUrl, output)];
        match inline {
          case Ok(result) => resp := Response(200, ResultBody(result));
          case Err(e) => resp := Response(500, MessageBody(e));
        }
      }
      // the hook registered before the mode check runs as the response is sent, in both modes
      StartBackgroundProcessing(j);
      job := Some(j);
    }

    /** One request followed by the background job it started, if any. */
    method Serve(req: Request, jobId: string, inline: Result<string>, background: Result<string>,
                 sendError: Option<string>) returns (resp: Response)
      modifies this
      ensures resp == ResponseFor(req, inline)
      ensures trace == old(trace) + ServeEffects(req, jobId, background, sendError)
    {
      var job;
      resp, job := Transcribe(req, jobId, inline);
      if job.Some? {
        ProcessAndNotify(job.value, background, sendError);
      }
    }
  }
}
