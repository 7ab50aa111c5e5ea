/** The ElevenLabs client of the dubbing variant
    (elevenlabs-version/elevenlabs-service.js): the API-key guard, the HTTP
    calls with their error messages, the simulation fallback for accounts
    that may not add a watermark, the status tables, and the two pollers.
    Every HTTP exchange is a parameter holding what the server answered, or
    the error `fetch` threw. */
module DubbingService {

  import opened Outcomes
  import opened Text
  import opened Decimal

  /** What one HTTP exchange gave back: the error `fetch` threw, or a
      response with its status line, its text and the body it decodes to. */
  datatype HttpReply<T> =
    | Failed(msg: string)
    | Answered(ok: bool, status: nat, statusText: string, text: string, body: T)

  const ApiKeyMessage := "ELEVENLABS_API_KEY no está configurada. Por favor, configura tu API key en el archivo .env"

  /** `validateApiKey`: throws when the configured key is falsy. */
  function ValidateApiKey(apiKey: Option<string>): (r: Result<()>)
    ensures r.Err? <==> !Truthy(apiKey)
    ensures r.Err? ==> r.msg == ApiKeyMessage
  {
    if !Truthy(apiKey) then Err(ApiKeyMessage) else Ok(())
  }

  // ---------------------------------------------------------------------
  // Status tables

  predicate KnownStatus(status: string)
  {
    status in {"uploading", "processing", "dubbing", "finalizing", "dubbed", "failed"}
  }

  /** `calculateProgress`: the table's value, 0 for `failed` and for a
      status the table does not list. */
  function CalculateProgress(status: string): (p: int)
    ensures 0 <= p <= 100
    ensures p == 100 <==> status == "dubbed"
    ensures p == 0 <==> status == "failed" || !KnownStatus(status)
  {
    match status
    case "uploading" => 10
    case "processing" => 30
    case "dubbing" => 60
    case "finalizing" => 90
    case "dubbed" => 100
    case _ => 0
  }

  const DefaultStatusMessage := "Procesando..."

  /** `getStatusMessage`: a message for every status, the default one
      exactly for the statuses the table does not list. */
  function GetStatusMessage(status: string): (m: string)
    ensures m != ""
    ensures m == DefaultStatusMessage <==> !KnownStatus(status)
  {
    match status
    case "uploading" => "Subiendo video a ElevenLabs..."
    case "processing" => "Procesando video..."
    case "dubbing" => "Realizando doblaje..."
    case "finalizing" => "Finalizando doblaje..."
    case "dubbed" => "Doblaje completado"
    case "failed" => "Error en el doblaje"
    case _ => DefaultStatusMessage
  }

  // ---------------------------------------------------------------------
  // createDubbing

  const SimPrefix := "sim_"

  /** Dubbing ids the simulation hands out start with `sim_`. */
  predicate IsSimulated(dubbingId: string)
  {
    StartsWith(dubbingId, SimPrefix)
  }

  /** What `createDubbing` resolves with. */
  datatype DubbingStart = DubbingStart(dubbingId: string, status: string, message: string)

  /** The fields of the JSON body of a successful creation. */
  datatype CreatedBody = CreatedBody(dubbingId: string, status: string)

  const SimulationMessage := "Simulación de doblaje iniciada (cuenta gratuita)"
  const StartedMessage := "Doblaje iniciado exitosamente"
  const WatermarkError := "watermark_not_allowed"
  const ApiErrorPrefix := "Error en ElevenLabs API: "

  /** `createSimulatedDubbing`: the id is `sim_`, the clock reading, `_` and
      a random base-36 suffix (both parameters here). */
  function CreateSimulatedDubbing(now: nat, rand: string): (d: DubbingStart)
    ensures IsSimulated(d.dubbingId)
    ensures d.status == "simulating" && d.message == SimulationMessage
  {
    DubbingStart(SimPrefix + NatToString(now) + "_" + rand, "simulating", SimulationMessage)
  }

  /** `createDubbing`: checks the key, posts the video, and on a refused
      request either falls back to the simulation (the refusal names the
      watermark) or throws with the status and the response text. */
  function CreateDubbing(apiKey: Option<string>, reply: HttpReply<CreatedBody>, now: nat, rand: string): (r: Result<DubbingStart>)
    ensures !Truthy(apiKey) ==> r == Err(ApiKeyMessage)
    ensures Truthy(apiKey) && reply.Failed? ==> r == Err(reply.msg)
  {
    if ValidateApiKey(apiKey).Err? then Err(ValidateApiKey(apiKey).msg)
    else match reply
      case Failed(msg) => Err(msg)
      case Answered(ok, status, _, text, body) =>
        if !ok then
          if Contains(text, WatermarkError) then Ok(CreateSimulatedDubbing(now, rand))
          else Err(ApiErrorPrefix + NatToString(status) + " - " + text)
        else Ok(DubbingStart(body.dubbingId, body.status, StartedMessage))
  }

  /** With a key and an answer, creation falls back to the simulation
      exactly when the request was refused with the watermark error; any
      other refusal throws the API error, and an accepted request starts the
      dubbing the server named. */
  lemma {:induction false} CreateDubbingFallback(apiKey: Option<string>, reply: HttpReply<CreatedBody>, now: nat, rand: string)
    requires Truthy(apiKey) && reply.Answered?
    ensures var r := CreateDubbing(apiKey, reply, now, rand);
            && (r == Ok(CreateSimulatedDubbing(now, rand)) <==> !reply.ok && Contains(reply.text, WatermarkError))
            && (r.Err? <==> !reply.ok && !Contains(reply.text, WatermarkError))
            && (r.Err? ==> StartsWith(r.msg, ApiErrorPrefix) && EndsWith(r.msg, reply.text))
            && (reply.ok ==> r == Ok(DubbingStart(reply.body.dubbingId, reply.body.status, StartedMessage)))
  {
    var r := CreateDubbing(apiKey, reply, now, rand);
    if !reply.ok && !Contains(reply.text, WatermarkError) {
      var m := ApiErrorPrefix + NatToString(reply.status) + " - " + reply.text;
      assert r.msg == m;
      assert m[..|ApiErrorPrefix|] == ApiErrorPrefix;
      assert m[|m| - |reply.text|..] == reply.text;
    }
  }

  // ---------------------------------------------------------------------
  // getDubbingStatus

  /** What `getDubbingStatus` resolves with. */
  datatype DubbingStatus = DubbingStatus(dubbingId: string, status: string, progress: int, message: string)

  /** The fields of the JSON body of a status answer. */
  datatype StatusBody = StatusBody(dubbingId: string, status: string)

  const SimStatusMessage := "Simulando doblaje (cuenta gratuita)"
  const StatusErrorPrefix := "Error obteniendo estado: "

  /** `getDubbingStatus`: a simulated id is reported as processing at 50
      without a request; otherwise the key is checked and the server's
      status is decorated with its progress and message. */
  function GetDubbingStatus(apiKey: Option<string>, dubbingId: string, reply: HttpReply<StatusBody>): (r: Result<DubbingStatus>)
    ensures IsSimulated(dubbingId) ==> r == Ok(DubbingStatus(dubbingId, "processing", 50, SimStatusMessage))
    ensures !IsSimulated(dubbingId) && !Truthy(apiKey) ==> r == Err(ApiKeyMessage)
    ensures r.Ok? ==> 0 <= r.value.progress <= 100
    ensures r.Ok? && !IsSimulated(dubbingId) ==>
              && reply.Answered? && reply.ok && r.value.status == reply.body.status
              && r.value.progress == CalculateProgress(r.value.status)
              && r.value.message == GetStatusMessage(r.value.status)
  {
    if IsSimulated(dubbingId) then Ok(DubbingStatus(dubbingId, "processing", 50, SimStatusMessage))
    else if ValidateApiKey(apiKey).Err? then Err(ValidateApiKey(apiKey).msg)
    else match reply
      case Failed(msg) => Err(msg)
      case Answered(ok, status, statusText, _, body) =>
        if !ok then Err(StatusErrorPrefix + NatToString(status) + " - " + statusText)
        else Ok(DubbingStatus(body.dubbingId, body.status, CalculateProgress(body.status), GetStatusMessage(body.status)))
  }

  // ---------------------------------------------------------------------
  // downloadDubbedVideo and checkCredits

  const DownloadErrorPrefix := "Error descargando video: "

  /** `downloadDubbedVideo`: checks the key, requests the dubbed file and
      resolves with the output path once the write stream finishes (the
      reply's body is how writing the stream ended). */
  function DownloadDubbedVideo(apiKey: Option<string>, reply: HttpReply<Result<()>>, outputPath: string): (r: Result<string>)
    ensures r.Ok? <==> Truthy(apiKey) && reply.Answered? && reply.ok && reply.body.Ok?
    ensures r.Ok? ==> r.value == outputPath
    ensures !Truthy(apiKey) ==> r == Err(ApiKeyMessage)
  {
    if ValidateApiKey(apiKey).Err? then Err(ValidateApiKey(apiKey).msg)
    else match reply
      case Failed(msg) => Err(msg)
      case Answered(ok, status, statusText, _, written) =>
        if !ok then Err(DownloadErrorPrefix + NatToString(status) + " - " + statusText)
        else if written.Err? then Err(written.msg)
        else Ok(outputPath)
  }

  /** The subscription fields `checkCredits` passes on; a field the answer
      lacks is None. */
  datatype Credits = Credits(
    characterCount: Option<int>, characterLimit: Option<int>,
    canExtendCharacterLimit: Option<bool>, allowedToExtendCharacterLimit: Option<bool>,
    nextCharacterCountResetUnix: Option<int>)

  const CreditsErrorPrefix := "Error verificando créditos: "

  /** `checkCredits`: checks the key and passes the subscription's fields
      on; a refused request throws with its status. */
  function CheckCredits(apiKey: Option<string>, reply: HttpReply<Credits>): (r: Result<Credits>)
    ensures r.Ok? <==> Truthy(apiKey) && reply.Answered? && reply.ok
    ensures r.Ok? ==> r.value == reply.body
    ensures !Truthy(apiKey) ==> r == Err(ApiKeyMessage)
    ensures Truthy(apiKey) && reply.Answered? && !reply.ok ==> StartsWith(r.msg, CreditsErrorPrefix)
  {
    if ValidateApiKey(apiKey).Err? then Err(ValidateApiKey(apiKey).msg)
    else match reply
      case Failed(msg) => Err(msg)
      case Answered(ok, status, _, _, body) =>
        if !ok then
          var m := CreditsErrorPrefix + NatToString(status);
          assert m[..|CreditsErrorPrefix|] == CreditsErrorPrefix;
          Err(m)
        else Ok(body)
  }

  /** Without a key no request reaches the server: every call that talks to
      the API throws the key message whatever the server would answer, and
      only a simulated id still gets a status. */
  lemma {:induction false} NoKeyNoRequest(apiKey: Option<string>, dubbingId: string, now: nat, rand: string, outputPath: string,
                       created: HttpReply<CreatedBody>, status: HttpReply<StatusBody>,
                       download: HttpReply<Result<()>>, credits: HttpReply<Credits>)
    requires !Truthy(apiKey)
    ensures CreateDubbing(apiKey, created, now, rand) == Err(ApiKeyMessage)
    ensures GetDubbingStatus(apiKey, dubbingId, status).Err? <==> !IsSimulated(dubbingId)
    ensures DownloadDubbedVideo(apiKey, download, outputPath) == Err(ApiKeyMessage)
    ensures CheckCredits(apiKey, credits) == Err(ApiKeyMessage)
  {
  }

  // ---------------------------------------------------------------------
  // pollDubbingStatus

  const MaxRetries := 10
  const FailedDubbingMessage := "El doblaje falló en ElevenLabs"
  const MaxRetriesPrefix := "Máximo de reintentos alcanzado: "
  const TimeoutMessage := "Tiempo de espera agotado para el doblaje"

  /** What the server answers on one attempt of the poller: to the status
      request, and to the download request should the status be `dubbed`. */
  datatype Attempt = Attempt(status: HttpReply<StatusBody>, download: HttpReply<Result<()>>)

  /** How one attempt ends: the download delivered the file, something
      threw (and the loop's own `catch` takes it), or the dubbing is still
      under way. */
  datatype AttemptEnd = Delivered(path: string) | Threw(msg: string) | Waiting

  /** One pass of the loop body: a `failed` status throws like any other
      error. */
  function AttemptEnds(apiKey: Option<string>, dubbingId: string, outputPath: string, a: Attempt): (e: AttemptEnd)
    ensures e.Delivered? ==> e.path == outputPath
  {
    match GetDubbingStatus(apiKey, dubbingId, a.status)
    case Err(msg) => Threw(msg)
    case Ok(s) =>
      if s.status == "dubbed" then
        match DownloadDubbedVideo(apiKey, a.download, outputPath)
        case Ok(p) => Delivered(p)
        case Err(msg) => Threw(msg)
      else if s.status == "failed" then Threw(FailedDubbingMessage)
      else Waiting
  }

  /** The statuses one attempt hands to the progress callback: the status
      it fetched, if the fetch succeeded. */
  function Seen(apiKey: Option<string>, dubbingId: string, a: Attempt): (seen: seq<DubbingStatus>)
    ensures |seen| <= 1
  {
    var st := GetDubbingStatus(apiKey, dubbingId, a.status);
    if st.Ok? then [st.value] else []
  }

  /** How the polling loop ends: the dubbed file downloaded to the path,
      the time out after a last attempt still under way, or the retry limit
      reached by an attempt that threw. */
  datatype PollEnd = Downloaded(path: string) | TimedOut | Exhausted(lastError: string)

  /** What `pollDubbingStatus` resolves or rejects with when its loop ends
      so. */
  function Outcome(end: PollEnd): (r: Result<Option<string>>)
    ensures r.Ok? <==> end.Downloaded?
    ensures end.TimedOut? ==> r == Err(TimeoutMessage)
    ensures end.Exhausted? ==> StartsWith(r.msg, MaxRetriesPrefix) && EndsWith(r.msg, end.lastError)
  {
    match end
    case Downloaded(p) => Ok(Some(p))
    case TimedOut => Err(TimeoutMessage)
    case Exhausted(msg) =>
      var m := MaxRetriesPrefix + msg;
      assert m[..|MaxRetriesPrefix|] == MaxRetriesPrefix && m[|m| - |msg|..] == msg;
      Err(m)
  }

  /** A run of the polling loop: how it ends, the statuses reported to the
      callback, and the number of status requests made. */
  datatype PollRun = PollRun(end: PollEnd, reports: seq<DubbingStatus>, checks: nat)

  /** What each attempt of a poll comes to: how it ends and what it
      reports. */
  type Observations = nat -> (AttemptEnd, seq<DubbingStatus>)

  /** The observations of the attempts the server answers with `attempts`. */
  function Observe(apiKey: Option<string>, dubbingId: string, outputPath: string, attempts: nat -> Attempt): Observations
  {
    (i: nat) => (AttemptEnds(apiKey, dubbingId, outputPath, attempts(i)), Seen(apiKey, dubbingId, attempts(i)))
  }

  /** Attempt `j` ends the poll: it downloaded the file, or it threw and
      was the last one allowed. */
  predicate EndsPoll(obs: Observations, j: nat)
  {
    obs(j).0.Delivered? || (obs(j).0.Threw? && j + 1 == MaxRetries)
  }

  /** The first attempt from `k` on that ends the poll, or `MaxRetries`
      when none does. */
  function StopFrom(obs: Observations, k: nat): (s: nat)
    requires k <= MaxRetries
    ensures k <= s <= MaxRetries
    ensures s < MaxRetries ==> EndsPoll(obs, s)
    decreases MaxRetries - k
  {
    if k == MaxRetries then MaxRetries
    else if EndsPoll(obs, k) then k
    else StopFrom(obs, k + 1)
  }

  /** The statuses the first `k` attempts report, in order. */
  function SeenUpTo(obs: Observations, k: nat): seq<DubbingStatus>
  {
    if k == 0 then [] else SeenUpTo(obs, k - 1) + obs(k - 1).1
  }

  /** The reference for the loop of `pollDubbingStatus`: every attempt up
      to the one that ends the poll is made and reported; with none, the
      retries run out and the poll times out. */
  function Poll(obs: Observations): (run: PollRun)
  {
    var s := StopFrom(obs, 0);
    if s == MaxRetries then PollRun(TimedOut, SeenUpTo(obs, MaxRetries), MaxRetries)
    else
      var end := if obs(s).0.Delivered? then Downloaded(obs(s).0.path) else Exhausted(obs(s).0.msg);
      PollRun(end, SeenUpTo(obs, s + 1), s + 1)
  }

  /** Attempts that report at most one status each report at most one per
      attempt in all. */
  lemma {:induction false} SeenUpToLength(obs: Observations, k: nat)
    requires forall j :: |obs(j).1| <= 1
    ensures |SeenUpTo(obs, k)| <= k
  {
    if k > 0 {
      SeenUpToLength(obs, k - 1);
    }
  }

  /** The poll makes between one and `MaxRetries` status requests, reports
      at most one status per request, and gives up only after the last
      allowed request. */
  lemma {:induction false} PollChecks(obs: Observations)
    requires forall j :: |obs(j).1| <= 1
    ensures var run := Poll(obs);
            && 1 <= run.checks <= MaxRetries
            && |run.reports| <= run.checks
            && (!run.end.Downloaded? ==> run.checks == MaxRetries)
  {
    SeenUpToLength(obs, Poll(obs).checks);
  }

  /** The poll downloads only to the output path, after a status `dubbed`
      that is the last one reported. */
  lemma {:induction false} PollDelivers(obs: Observations, outputPath: string)
    requires forall j :: obs(j).0.Delivered? ==>
               obs(j).0.path == outputPath && |obs(j).1| == 1 && obs(j).1[0].status == "dubbed"
    requires Poll(obs).end.Downloaded?
    ensures var run := Poll(obs);
            && run.end.path == outputPath
            && |run.reports| > 0 && run.reports[|run.reports| - 1].status == "dubbed"
  {
    var s := StopFrom(obs, 0);
    assert Poll(obs).reports == SeenUpTo(obs, s) + obs(s).1;
  }

  /** A poll that gives up says why: it times out when the last attempt was
      still under way, and reaches the retry limit with the error of the
      last attempt when that one threw. */
  lemma {:induction false} PollGivesUp(obs: Observations)
    requires !Poll(obs).end.Downloaded?
    ensures var end := Poll(obs).end;
            match obs(MaxRetries - 1).0
            case Waiting => end == TimedOut
            case Threw(m) => end == Exhausted(m)
            case Delivered(_) => false
  {
    var s := StopFrom(obs, 0);
    if s == MaxRetries {
      StopBefore(obs, 0, MaxRetries - 1);
    }
  }

  /** No attempt between `k` and the stop ends the poll. */
  lemma {:induction false} StopBefore(obs: Observations, k: nat, j: nat)
    requires k <= MaxRetries && k <= j < StopFrom(obs, k)
    ensures !EndsPoll(obs, j)
    decreases MaxRetries - k
  {
    if k < j {
      StopBefore(obs, k + 1, j);
    }
  }

  /** What a real attempt reports fits the poll's lemmas: at most one
      status, and a delivery brings the output path after a `dubbed`
      status. */
  lemma {:induction false} AttemptsObserved(apiKey: Option<string>, dubbingId: string, outputPath: string, attempts: nat -> Attempt, j: nat)
    ensures var obs := Observe(apiKey, dubbingId, outputPath, attempts);
            && |obs(j).1| <= 1
            && (obs(j).0.Delivered? ==> obs(j).0.path == outputPath && |obs(j).1| == 1 && obs(j).1[0].status == "dubbed")
  {
    var seen := Seen(apiKey, dubbingId, attempts(j));
    assert Observe(apiKey, dubbingId, outputPath, attempts)(j).1 == seen;
  }

  /** A `failed` status does not end the poll while retries remain: it is
      reported and counted as one more attempt. */
  lemma {:induction false} FailedStatusRetried(apiKey: Option<string>, dubbingId: string, outputPath: string, attempts: nat -> Attempt, i: nat)
    requires i + 1 < MaxRetries
    requires var st := GetDubbingStatus(apiKey, dubbingId, attempts(i).status);
             st.Ok? && st.value.status == "failed"
    ensures var obs := Observe(apiKey, dubbingId, outputPath, attempts);
            && !EndsPoll(obs, i)
            && obs(i) == (Threw(FailedDubbingMessage), [GetDubbingStatus(apiKey, dubbingId, attempts(i).status).value])
  {
  }

  /** The body of the loop's `try`: fetch the status, report it, and
      download once it says `dubbed`; a `failed` status throws. */
  method TryAttempt(apiKey: Option<string>, dubbingId: string, outputPath: string, attempts: nat -> Attempt, i: nat)
    returns (end: AttemptEnd, seen: seq<DubbingStatus>)
    ensures (end, seen) == Observe(apiKey, dubbingId, outputPath, attempts)(i)
  {
    var status := GetDubbingStatus(apiKey, dubbingId, attempts(i).status);
    match status {
      case Err(msg) =>
        return Threw(msg), [];
      case Ok(s) =>
        seen := [s];
        if s.status == "dubbed" {
          var downloaded := DownloadDubbedVideo(apiKey, attempts(i).download, outputPath);
          match downloaded {
            case Ok(p) => end := Delivered(p);
            case Err(msg) => end := Threw(msg);
          }
        } else if s.status == "failed" {
          end := Threw(FailedDubbingMessage);
        } else {
          end := Waiting;
        }
    }
  }

  /** `pollDubbingStatus`: a simulated id goes to the simulated poller,
      any other id to the polling loop, whose end becomes the value or the
      error the promise settles with. */
  method PollDubbingStatus(apiKey: Option<string>, dubbingId: string, outputPath: string,
                           attempts: nat -> Attempt, uploads: Result<seq<string>>, copy: Result<()>)
    returns (outcome: Result<Option<string>>, reports: seq<DubbingStatus>, checks: nat)
    ensures IsSimulated(dubbingId) ==>
              && checks == 0 && reports == SimReports(dubbingId)
              && outcome == SimulatedOutcome(outputPath, uploads, copy)
    ensures !IsSimulated(dubbingId) ==>
              var run := Poll(Observe(apiKey, dubbingId, outputPath, attempts));
              outcome == Outcome(run.end) && reports == run.reports && checks == run.checks
  {
    if IsSimulated(dubbingId) {
      outcome, reports := PollSimulatedDubbing(dubbingId, outputPath, uploads, copy);
      checks := 0;
    } else {
      var ended;
      ended, reports, checks := PollLoop(apiKey, dubbingId, outputPath, attempts);
      outcome := Outcome(ended);
    }
  }

  /** One pass of the polling loop, the `retries`-th: the attempt is made
      and its status reported; a download, or an error on the last allowed
      attempt, ends the poll, anything else leads to the next pass. */
  method PollStep(apiKey: Option<string>, dubbingId: string, outputPath: string, attempts: nat -> Attempt,
                  retries: nat, reports: seq<DubbingStatus>)
    returns (stop: Option<PollEnd>, reports': seq<DubbingStatus>)
    requires retries < MaxRetries
    requires StopFrom(Observe(apiKey, dubbingId, outputPath, attempts), 0) == StopFrom(Observe(apiKey, dubbingId, outputPath, attempts), retries)
    requires reports == SeenUpTo(Observe(apiKey, dubbingId, outputPath, attempts), retries)
    ensures reports' == SeenUpTo(Observe(apiKey, dubbingId, outputPath, attempts), retries + 1)
    ensures stop.Some? ==> PollRun(stop.value, reports', retries + 1) == Poll(Observe(apiKey, dubbingId, outputPath, attempts))
    ensures stop.None? ==> StopFrom(Observe(apiKey, dubbingId, outputPath, attempts), 0) == StopFrom(Observe(apiKey, dubbingId, outputPath, attempts), retries + 1)
  {
    var end, seen := TryAttempt(apiKey, dubbingId, outputPath, attempts, retries);
    reports' := reports + seen;
    match end {
      case Delivered(p) =>
        stop := Some(Downloaded(p));
      case Threw(msg) =>
        stop := if retries + 1 >= MaxRetries then Some(Exhausted(msg)) else None;
      case Waiting =>
        stop := None;
    }
  }

  /** The loop of `pollDubbingStatus`: up to `MaxRetries` attempts, an
      error of any attempt (a `failed` status included) caught and counted
      as a retry, until the dubbing is downloaded. */
  method PollLoop(apiKey: Option<string>, dubbingId: string, outputPath: string, attempts: nat -> Attempt)
    returns (ended: PollEnd, reports: seq<DubbingStatus>, checks: nat)
    ensures PollRun(ended, reports, checks) == Poll(Observe(apiKey, dubbingId, outputPath, attempts))
  {
    ghost var obs := Observe(apiKey, dubbingId, outputPath, attempts);
    var retries := 0;
    reports := [];
    checks := 0;
    while retries < MaxRetries
      invariant retries <= MaxRetries && checks == retries
      invariant StopFrom(obs, 0) == StopFrom(obs, retries)
      invariant reports == SeenUpTo(obs, retries)
    {
      var stop;
      stop, reports := PollStep(apiKey, dubbingId, outputPath, attempts, retries, reports);
      checks := checks + 1;
      retries := retries + 1;
      if stop.Some? {
        ended := stop.value;
        return;
      }
    }
    ended := TimedOut;
  }

  // ---------------------------------------------------------------------
  // pollSimulatedDubbing

  const SimSteps := 6

  /** The progress of simulated step i: 10, 30, 50, 70, 90, then 100. */
  function SimProgress(i: nat): int
  {
    if i < SimSteps - 1 then 10 + 20 * i else 100
  }

  function SimMessage(i: nat): string
  {
    match i
    case 0 => "Subiendo video a ElevenLabs..."
    case 1 => "Procesando video..."
    case 2 => "Transcribiendo audio..."
    case 3 => "Traduciendo contenido..."
    case 4 => "Generando doblaje..."
    case _ => "Simulación completada (cuenta gratuita)"
  }

  /** The status the simulated poller reports at step i. */
  function SimReport(dubbingId: string, i: nat): DubbingStatus
  {
    DubbingStatus(dubbingId, if i == SimSteps - 1 then "dubbed" else "processing", SimProgress(i), SimMessage(i))
  }

  function SimReports(dubbingId: string): (reports: seq<DubbingStatus>)
    ensures |reports| == SimSteps
    ensures forall i :: 0 <= i < SimSteps ==> reports[i] == SimReport(dubbingId, i)
  {
    seq(SimSteps, i requires 0 <= i => SimReport(dubbingId, i))
  }

  /** The simulated progress starts at 10, strictly increases to 100, and
      only the last step says `dubbed`. */
  lemma {:induction false} SimulatedProgressIncreasing(dubbingId: string, i: nat, j: nat)
    requires i < j < SimSteps
    ensures SimReport(dubbingId, i).progress < SimReport(dubbingId, j).progress
    ensures SimReport(dubbingId, i).status == "processing"
    ensures SimReport(dubbingId, j).status == "dubbed" <==> j == SimSteps - 1
    ensures SimReport(dubbingId, 0).progress == 10 && SimReport(dubbingId, SimSteps - 1).progress == 100
  {
  }

  predicate IsVideoName(file: string)
  {
    EndsWith(file, ".mp4") || EndsWith(file, ".avi") || EndsWith(file, ".mov")
  }

  /** `files.find(...)`: the first video file of the listing. */
  function FindVideo(files: seq<string>): (r: Option<string>)
    ensures r.None? <==> forall i :: 0 <= i < |files| ==> !IsVideoName(files[i])
    ensures r.Some? ==> exists k :: 0 <= k < |files| && files[k] == r.value && IsVideoName(r.value) &&
                          forall i :: 0 <= i < k ==> !IsVideoName(files[i])
  {
    if |files| == 0 then None
    else if IsVideoName(files[0]) then Some(files[0])
    else
      var r := FindVideo(files[1..]);
      assert forall i :: 1 <= i < |files| ==> files[i] == files[1..][i - 1];
      if r.Some? then
        ghost var k :| 0 <= k < |files[1..]| && files[1..][k] == r.value && IsVideoName(r.value) &&
                       forall i :: 0 <= i < k ==> !IsVideoName(files[1..][i]);
        assert files[k + 1] == r.value;
        r
      else r
  }

  /** How the simulated poll ends once its steps are reported: the first
      video of the upload listing is copied to the output path; with no
      video the poll resolves with nothing. */
  function SimulatedOutcome(outputPath: string, uploads: Result<seq<string>>, copy: Result<()>): (r: Result<Option<string>>)
    ensures r.Ok? && r.value.Some? <==> uploads.Ok? && FindVideo(uploads.value).Some? && copy.Ok?
    ensures r.Ok? && r.value.Some? ==> r.value.value == outputPath
    ensures r.Err? ==> uploads.Err? || copy.Err?
  {
    match uploads
    case Err(msg) => Err(msg)
    case Ok(files) =>
      if FindVideo(files).None? then Ok(None)
      else if copy.Err? then Err(copy.msg)
      else Ok(Some(outputPath))
  }

  /** `pollSimulatedDubbing`: reports its six steps in order, then looks
      for an uploaded video to copy as the dubbed one. */
  method PollSimulatedDubbing(dubbingId: string, outputPath: string, uploads: Result<seq<string>>, copy: Result<()>)
    returns (outcome: Result<Option<string>>, reports: seq<DubbingStatus>)
    ensures reports == SimReports(dubbingId)
    ensures outcome == SimulatedOutcome(outputPath, uploads, copy)
  {
    reports := [];
    outcome := Ok(None);
    for i := 0 to SimSteps
      invariant |reports| == i
      invariant forall j :: 0 <= j < i ==> reports[j] == SimReport(dubbingId, j)
      invariant outcome == if i == SimSteps then SimulatedOutcome(outputPath, uploads, copy) else Ok(None)
    {
      reports := reports + [SimReport(dubbingId, i)];
      if i == SimSteps - 1 {
        match uploads {
          case Err(msg) =>
            outcome := Err(msg);
          case Ok(files) =>
            var videoFile := FindVideo(files);
            if videoFile.Some? {
              match copy {
                case Err(msg) => outcome := Err(msg);
                case Ok(_) => outcome := Ok(Some(outputPath));
              }
            }
        }
      }
    }
  }
}
