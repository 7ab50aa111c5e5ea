/** The job store of the dubbing server (elevenlabs-version/server.js): the
    `activeProcesses` map and its records, the sweep of expired records,
    the time estimates of the progress route, the process route's checks,
    and the background run that hands a video to ElevenLabs and follows
    the dubbing to its download. */
module DubbingServer {

  import opened Outcomes
  import opened Text
  import opened Decimal
  import opened DubbingService
  import JobServer
  import Utils

  // ---------------------------------------------------------------------
  // formatTime

  /** `formatTime(milliseconds)`: the whole seconds, rounded down, as
      `FormatSeconds` prints them. */
  function FormatTime(milliseconds: real): string
  {
    FormatSeconds((milliseconds / 1000.0).Floor)
  }

  /** Whole seconds as "Hh Mm Ss", "Mm Ss" or "Ss": the minutes and hours
      are rounded down, and only the leading field may reach its next unit.
      Dafny's `/` on `int` rounds down for a positive divisor, as
      `Math.floor` does; the remainders are only printed for positive
      numbers, where JavaScript's `%` agrees with Dafny's. */
  function FormatSeconds(seconds: int): string
  {
    var minutes := seconds / 60;
    var hours := minutes / 60;
    if hours > 0 then
      IntToString(hours) + "h " + (IntToString(minutes % 60) + "m " + (IntToString(seconds % 60) + "s"))
    else if minutes > 0 then
      IntToString(minutes) + "m " + (IntToString(seconds % 60) + "s")
    else
      IntToString(seconds) + "s"
  }

  /** A last "Ss" field that ends the text. */
  function ReadSeconds(t: string): Option<nat>
  {
    match ReadField(t, "s")
    case Some((s, rest)) => if rest == "" then Some(s) else None
    case None => None
  }

  /** An "Mm Ss" text whose seconds are below a minute. */
  function ReadMinutes(t: string): Option<nat>
  {
    match ReadField(t, "m ")
    case None => None
    case Some((m, rest)) =>
      match ReadSeconds(rest)
      case Some(s) => if s < 60 then Some(m * 60 + s) else None
      case None => None
  }

  /** The seconds an "Hh Mm Ss", "Mm Ss" or "Ss" text stands for, where
      every field after the first is below the next unit. */
  function ReadTime(t: string): Option<nat>
  {
    match ReadField(t, "h ")
    case Some((h, rest)) =>
      (match ReadMinutes(rest)
       case Some(ms) => if ms < 3600 then Some(h * 3600 + ms) else None
       case None => None)
    case None =>
      if ReadField(t, "m ").Some? then ReadMinutes(t) else ReadSeconds(t)
  }

  /** A seconds field reads back. */
  lemma {:induction false} ReadsSeconds(sec: nat)
    ensures ReadSeconds(NatToString(sec) + "s") == Some(sec)
  {
    ReadRenderedField(sec, "s", "");
    assert NatToString(sec) + "s" + "" == NatToString(sec) + "s";
  }

  /** An "Ss" text reads back as its seconds. */
  lemma {:induction false} ReadsSecondsText(sec: nat)
    ensures ReadTime(NatToString(sec) + "s") == Some(sec)
  {
    ReadOtherField(sec, "h ", "s");
    ReadOtherField(sec, "m ", "s");
    ReadsSeconds(sec);
  }

  /** Minutes and seconds below a minute read back as their seconds. */
  lemma {:induction false} ReadsMinutesText(m: nat, sec: nat)
    requires sec < 60
    ensures ReadMinutes(NatToString(m) + "m " + (NatToString(sec) + "s")) == Some(m * 60 + sec)
  {
    ReadRenderedField(m, "m ", NatToString(sec) + "s");
    ReadsSeconds(sec);
  }

  /** An "Mm Ss" text is read as minutes, not hours. */
  lemma {:induction false} ReadsMinutesFirst(m: nat, sec: nat)
    requires sec < 60
    ensures ReadTime(NatToString(m) + "m " + (NatToString(sec) + "s")) == Some(m * 60 + sec)
  {
    var rest := "m " + (NatToString(sec) + "s");
    ReadOtherField(m, "h ", rest);
    assert NatToString(m) + rest == NatToString(m) + "m " + (NatToString(sec) + "s");
    ReadRenderedField(m, "m ", NatToString(sec) + "s");
    ReadsSeconds(sec);
    MinutesField(NatToString(m) + "m " + (NatToString(sec) + "s"), m, NatToString(sec) + "s", sec);
  }

  /** An "Hh Mm Ss" text with minutes and seconds below the next unit
      reads back as its seconds. */
  lemma {:induction false} ReadsHoursText(h: nat, m: nat, sec: nat)
    requires m < 60 && sec < 60
    ensures ReadTime(NatToString(h) + "h " + (NatToString(m) + "m " + (NatToString(sec) + "s"))) == Some(h * 3600 + (m * 60 + sec))
  {
    var rest := NatToString(m) + "m " + (NatToString(sec) + "s");
    ReadRenderedField(h, "h ", rest);
    ReadsMinutesText(m, sec);
    assert A: ReadField(NatToString(h) + "h " + rest, "h ") == Some((h, rest));
    assert B: ReadMinutes(rest) == Some(m * 60 + sec);
    assert C: m * 60 + sec < 3600;
    HoursField(NatToString(h) + "h " + rest, h, rest, m * 60 + sec);
  }

  /** An hours field followed by minutes and seconds below an hour. */
  lemma {:induction false} HoursField(t: string, h: nat, rest: string, ms: nat)
    requires ReadField(t, "h ") == Some((h, rest))
    requires ReadMinutes(rest) == Some(ms) && ms < 3600
    ensures ReadTime(t) == Some(h * 3600 + ms)
  {
  }

  /** A text with no hours field whose minutes field is followed by
      seconds below a minute. */
  lemma {:induction false} MinutesField(t: string, m: nat, rest: string, sec: nat)
    requires ReadField(t, "h ") == None
    requires ReadField(t, "m ") == Some((m, rest))
    requires ReadSeconds(rest) == Some(sec) && sec < 60
    ensures ReadTime(t) == Some(m * 60 + sec)
  {
  }

  /** Whole seconds split into hours, minutes below 60 and seconds below 60. */
  lemma {:induction false} SplitSeconds(sec: nat)
    ensures (sec / 60 / 60) * 3600 + (sec / 60 % 60) * 60 + sec % 60 == sec
  {
    var minutes := sec / 60;
    assert minutes * 60 + sec % 60 == sec;
    assert (minutes / 60) * 60 + minutes % 60 == minutes;
  }

  /** Formatted whole seconds read back as the seconds: the printed
      minutes and seconds are below 60 and recombine with the hours. */
  lemma {:induction false} FormatSecondsReadsBack(seconds: nat)
    ensures ReadTime(FormatSeconds(seconds)) == Some(seconds)
  {
    var minutes := seconds / 60;
    var hours := minutes / 60;
    SplitSeconds(seconds);
    if hours > 0 {
      HoursReadBack(seconds);
    } else if minutes > 0 {
      MinutesReadBack(seconds);
    } else {
      assert FormatSeconds(seconds) == NatToString(seconds) + "s";
      ReadsSecondsText(seconds);
    }
  }

  /** The "Hh Mm Ss" case of `FormatSecondsReadsBack`. */
  lemma {:induction false} HoursReadBack(seconds: nat)
    requires seconds / 60 / 60 > 0
    ensures ReadTime(FormatSeconds(seconds)) == Some(seconds)
  {
    var minutes := seconds / 60;
    var hours := minutes / 60;
    SplitSeconds(seconds);
    assert FormatSeconds(seconds) ==
      NatToString(hours) + "h " + (NatToString(minutes % 60) + "m " + (NatToString(seconds % 60) + "s"));
    ReadsHoursText(hours, minutes % 60, seconds % 60);
  }

  /** The "Mm Ss" case of `FormatSecondsReadsBack`. */
  lemma {:induction false} MinutesReadBack(seconds: nat)
    requires seconds / 60 / 60 == 0 && seconds / 60 > 0
    ensures ReadTime(FormatSeconds(seconds)) == Some(seconds)
  {
    var minutes := seconds / 60;
    assert minutes * 60 + seconds % 60 == seconds;
    assert FormatSeconds(seconds) == NatToString(minutes) + "m " + (NatToString(seconds % 60) + "s");
    ReadsMinutesFirst(minutes, seconds % 60);
  }

  /** A formatted duration reads back as its whole seconds. */
  lemma {:induction false} FormatTimeReadsBack(milliseconds: real)
    requires milliseconds >= 0.0
    ensures ReadTime(FormatTime(milliseconds)) == Some((milliseconds / 1000.0).Floor)
  {
    FormatSecondsReadsBack((milliseconds / 1000.0).Floor);
  }

  /** The flat estimate of seven minutes prints as "7m 0s". */
  lemma {:induction false} FlatEstimateText()
    ensures FormatTime(7.0 * 60.0 * 1000.0) == "7m 0s"
  {
    assert (7.0 * 60.0 * 1000.0 / 1000.0).Floor == 420;
    assert NatToString(7) == "7" && NatToString(0) == "0";
  }

  // ---------------------------------------------------------------------
  // calculateTimeEstimates

  /** The estimate the progress route adds to a record: the texts of the
      time elapsed, the time left (twice, as `estimated` and `remaining`)
      and the whole run, and the instant, in milliseconds, the run should
      end at. */
  datatype TimeEstimates = TimeEstimates(
    elapsed: string, estimated: string, remaining: string, totalEstimated: string, completionAt: real)

  /** The minutes a run is expected to take in all and to still need, after
      `elapsedMinutes` at `progress` percent: progress is taken as
      proportional to time, and without progress the guess is a flat seven
      minutes. */
  function EstimateMinutes(elapsedMinutes: real, progress: real): (r: (real, real))
  {
    if progress > 0.0 then
      var total := elapsedMinutes / (progress / 100.0);
      (total, total - elapsedMinutes)
    else (7.0, 7.0)
  }

  /** With progress, the total is the elapsed time scaled up by the share
      done, and what remains is the total less the elapsed time: nothing at
      100%, and never negative up to 100%. Without progress both are seven
      minutes. */
  lemma {:induction false} EstimateProportional(elapsedMinutes: real, progress: real)
    ensures var (total, remaining) := EstimateMinutes(elapsedMinutes, progress);
            && (progress > 0.0 ==> total * progress == elapsedMinutes * 100.0 && remaining == total - elapsedMinutes)
            && (progress == 100.0 ==> remaining == 0.0)
            && (0.0 < progress <= 100.0 && elapsedMinutes >= 0.0 ==> remaining >= 0.0)
            && (progress <= 0.0 ==> total == 7.0 && remaining == 7.0)
  {
    if progress > 0.0 {
      var total := elapsedMinutes / (progress / 100.0);
      assert total * (progress / 100.0) == elapsedMinutes;
      if progress <= 100.0 && elapsedMinutes >= 0.0 {
        assert progress / 100.0 <= 1.0;
        assert total >= 0.0;
        assert total * (progress / 100.0) <= total;
      }
    }
  }

  /** `calculateTimeEstimates(processId, progress)` for a record started at
      `startTime`, at the clock reading `now`. */
  function Estimates(startTime: int, progress: int, now: int): TimeEstimates
  {
    var elapsedMs := now - startTime;
    var (total, remaining) := EstimateMinutes(elapsedMs as real / (1000.0 * 60.0), progress as real);
    TimeEstimates(FormatTime(elapsedMs as real), FormatTime(remaining * 60.0 * 1000.0),
                  FormatTime(remaining * 60.0 * 1000.0), FormatTime(total * 60.0 * 1000.0),
                  now as real + remaining * 60.0 * 1000.0)
  }

  /** The `estimated` and `remaining` texts are always the same; without
      progress they say seven minutes, and a finished run is expected to
      end now. */
  lemma {:induction false} EstimatesAgree(startTime: int, progress: int, now: int)
    ensures var e := Estimates(startTime, progress, now);
            && e.estimated == e.remaining
            && (progress <= 0 ==> e.remaining == "7m 0s" && e.totalEstimated == "7m 0s")
            && (progress == 100 ==> e.completionAt == now as real && e.remaining == "0s")
  {
    var elapsed := (now - startTime) as real / (1000.0 * 60.0);
    EstimateProportional(elapsed, progress as real);
    if progress <= 0 {
      assert EstimateMinutes(elapsed, progress as real) == (7.0, 7.0);
      FlatEstimateText();
    } else if progress == 100 {
      assert EstimateMinutes(elapsed, 100.0).1 == 0.0;
      NothingLeftText();
    }
  }

  /** No time left prints as "0s". */
  lemma {:induction false} NothingLeftText()
    ensures FormatTime(0.0 * 60.0 * 1000.0) == "0s"
  {
    assert (0.0 * 60.0 * 1000.0 / 1000.0).Floor == 0;
    assert NatToString(0) == "0";
  }

  // ---------------------------------------------------------------------
  // Records

  /** A record of `activeProcesses`; the fields a record does not have yet
      (`resultUrl`, `endTime`, `durationMs`) are None. */
  datatype DubJob = DubJob(
    status: JobServer.Status, progress: int, currentStep: int,
    videoPath: string, targetLanguage: string, error: Option<string>,
    startTime: int, dubbingId: Option<string>, message: string,
    resultUrl: Option<string>, endTime: Option<int>, durationMs: Option<int>)

  const StartMessage := "Iniciando doblaje..."
  const UploadingMessage := "Subiendo video a ElevenLabs..."
  const PollingMessage := "Procesando video en ElevenLabs..."
  const CompletedMessage := "Doblaje completado exitosamente"
  const ErrorPrefix := "Error: "

  /** The record the process route stores for a new job. */
  function NewJob(videoPath: string, targetLanguage: string, now: int): DubJob
  {
    DubJob(JobServer.Processing, 0, 1, videoPath, targetLanguage, None, now, None, StartMessage, None, None, None)
  }

  /** A record after `updateProcess(id, step, progress, message)`: the
      three fields are overwritten, whatever they held. */
  function Reported(j: DubJob, step: int, progress: int, message: string): DubJob
  {
    j.(currentStep := step, progress := progress, message := message)
  }

  /** A record after `completeProcess(id, resultUrl)` at `now`. */
  function Completed(j: DubJob, resultUrl: string, now: int): DubJob
  {
    j.(status := JobServer.Completed, progress := 100, resultUrl := Some(resultUrl),
       endTime := Some(now), durationMs := Some(now - j.startTime), message := CompletedMessage)
  }

  /** A record after `failProcess(id, error)`. */
  function Faulted(j: DubJob, error: string): DubJob
  {
    j.(status := JobServer.Error, error := Some(error), message := ErrorPrefix + error)
  }

  /** A record after the progress callback has passed on every status of
      `reports`, as step 2, in order. */
  function ReportAll(j: DubJob, reports: seq<DubbingStatus>): DubJob
  {
    if |reports| == 0 then j
    else
      var last := reports[|reports| - 1];
      Reported(ReportAll(j, reports[..|reports| - 1]), 2, last.progress, last.message)
  }

  /** Only the last status passed on shows: the record takes its progress
      and message as they are, with no maximum against what it held. */
  lemma {:induction false} ReportAllLast(j: DubJob, reports: seq<DubbingStatus>)
    ensures |reports| == 0 ==> ReportAll(j, reports) == j
    ensures |reports| > 0 ==>
              var last := reports[|reports| - 1];
              ReportAll(j, reports) == Reported(j, 2, last.progress, last.message)
  {
    if |reports| > 1 {
      ReportAllLast(j, reports[..|reports| - 1]);
    }
  }

  /** The progress values of `reports`, in order. */
  function Progresses(reports: seq<DubbingStatus>): (ps: seq<int>)
    ensures |ps| == |reports|
    ensures forall i :: 0 <= i < |reports| ==> ps[i] == reports[i].progress
  {
    if |reports| == 0 then [] else Progresses(reports[..|reports| - 1]) + [reports[|reports| - 1].progress]
  }

  // ---------------------------------------------------------------------
  // The sweep of expired records

  /** `PROCESS_TTL`: thirty minutes, in milliseconds. */
  const ProcessTtl := 30 * 60 * 1000

  /** A record older than the time to live at `now`, whatever its status. */
  predicate Expired(j: DubJob, now: int)
  {
    now - j.startTime > ProcessTtl
  }

  /** The records of `p` a sweep at `now` keeps. */
  function Unexpired(p: map<string, DubJob>, now: int): (q: map<string, DubJob>)
  {
    map id | id in p && !Expired(p[id], now) :: p[id]
  }

  /** A sweep keeps exactly the records at most thirty minutes old, each
      as it was; a second sweep at the same time removes nothing more, and
      a sweep at a later time removes at least as much. */
  lemma {:induction false} UnexpiredKeeps(p: map<string, DubJob>, now: int, later: int)
    requires now <= later
    ensures forall id :: id in Unexpired(p, now) <==> id in p && now - p[id].startTime <= ProcessTtl
    ensures forall id :: id in Unexpired(p, now) ==> Unexpired(p, now)[id] == p[id]
    ensures Unexpired(Unexpired(p, now), now) == Unexpired(p, now)
    ensures Unexpired(p, later).Keys <= Unexpired(p, now).Keys
  {
  }

  // ---------------------------------------------------------------------
  // The process route

  const UnsupportedPrefix := "Idioma no soportado: "

  /** `config.SUPPORTED_LANGUAGES`: the twelve codes and their names. */
  const LanguageNames: map<string, string> := map[
    "en" := "English", "es" := "Spanish", "fr" := "French", "de" := "German",
    "it" := "Italian", "pt" := "Portuguese", "ja" := "Japanese", "ko" := "Korean",
    "zh" := "Chinese", "ru" := "Russian", "ar" := "Arabic", "hi" := "Hindi"]

  /** The names every JavaScript object inherits from `Object.prototype`;
      looking any of them up in an object literal finds a truthy value. */
  const PrototypeKeys: set<string> := {
    "constructor", "__proto__", "hasOwnProperty", "isPrototypeOf", "propertyIsEnumerable",
    "toLocaleString", "toString", "valueOf",
    "__defineGetter__", "__defineSetter__", "__lookupGetter__", "__lookupSetter__"}

  /** The check as written: `config.SUPPORTED_LANGUAGES[targetLanguage]`
      is truthy for the twelve codes and for every inherited name. */
  predicate SupportedAsWritten(lang: string)
  {
    lang in LanguageNames || lang in PrototypeKeys
  }

  /** The check as intended: the language is one of the twelve codes. */
  predicate Supported(lang: string)
  {
    lang in LanguageNames
  }

  /** The process route's checks on the upload (the stored file's path)
      and the requested language: the video path and the language of the
      record to create, or the error answered with status 500. */
  function ValidateRequest(file: Option<string>, lang: Option<string>): (r: Result<(string, string)>)
    ensures r.Ok? <==> file.Some? && JobServer.RequestLanguage(lang) in LanguageNames.Keys
    ensures r.Ok? ==> r.value == (file.value, JobServer.RequestLanguage(lang))
    ensures file.None? ==> r == Err(Utils.NoFileMessage)
    ensures file.Some? && r.Err? ==>
              StartsWith(r.msg, UnsupportedPrefix) && EndsWith(r.msg, JobServer.RequestLanguage(lang))
  {
    if file.None? then Err(Utils.NoFileMessage)
    else
      var target := JobServer.RequestLanguage(lang);
      if !Supported(target) then
        var m := UnsupportedPrefix + target;
        assert m[..|UnsupportedPrefix|] == UnsupportedPrefix && m[|m| - |target|..] == target;
        Err(m)
      else Ok((file.value, target))
  }

  /** As written, the check lets an inherited name such as "constructor"
      through, and the record is created for a language ElevenLabs does not
      have; the intended check answers it with the unsupported-language
      error. Without a language the request asks for English. */
  lemma {:induction false} PrototypeKeyAccepted(file: string)
    ensures SupportedAsWritten("constructor") && !Supported("constructor")
    ensures ValidateRequest(Some(file), Some("constructor")) == Err(UnsupportedPrefix + "constructor")
    ensures ValidateRequest(Some(file), None) == Ok((file, "en"))
  {
  }

  // ---------------------------------------------------------------------
  // processVideoAsync

  /** What the outside world answers during one run: the API key, the
      creation request with the clock reading and random suffix a
      simulated id is made of, the clock reading that names the output
      file, the poller's answers (the status and download replies, or the
      upload listing and the copy of the simulation), the clock reading at
      completion, and how removing the uploaded video went. */
  datatype DubCalls = DubCalls(
    apiKey: Option<string>, created: HttpReply<CreatedBody>, createdAt: nat, rand: string,
    outputAt: nat, attempts: nat -> Attempt, uploads: Result<seq<string>>, copy: Result<()>,
    finishedAt: int, removed: Result<()>)

  /** `path.join(config.OUTPUT_DIR, `dubbed_${Date.now()}.mp4`)`. */
  function OutputPath(outputDir: string, at: nat): string
  {
    outputDir + "/dubbed_" + NatToString(at) + ".mp4"
  }

  /** The download URL of a run's output names the output file alone. */
  lemma {:induction false} ResultUrlNamesOutput(outputDir: string, at: nat)
    ensures JobServer.DownloadUrl(OutputPath(outputDir, at)) == "/api/download/dubbed_" + NatToString(at) + ".mp4"
  {
    var name := "dubbed_" + NatToString(at) + ".mp4";
    var dir := outputDir + "/";
    assert OutputPath(outputDir, at) == dir + name;
    assert LastIndexOf(name, '/') == -1 by {
      forall k | 0 <= k < |name| ensures name[k] != '/' {
        if 7 <= k < 7 + |NatToString(at)| {
          assert name[k] == NatToString(at)[k - 7];
        }
      }
      LastIndexAt(name, '/', -1);
    }
    assert LastIndexOf(dir, '/') == |outputDir| by {
      LastIndexAt(dir, '/', |outputDir|);
    }
    LastIndexAppend(dir, name, '/');
    assert (dir + name)[|dir|..] == name;
  }

  /** What `pollDubbingStatus` settles with, and the statuses it passes to
      the progress callback, for the dubbing `dubbingId`. */
  function PollResult(c: DubCalls, dubbingId: string, outputPath: string): (Result<Option<string>>, seq<DubbingStatus>)
  {
    if IsSimulated(dubbingId) then (SimulatedOutcome(outputPath, c.uploads, c.copy), SimReports(dubbingId))
    else
      var run := Poll(Observe(c.apiKey, dubbingId, outputPath, c.attempts));
      (Outcome(run.end), run.reports)
  }

  /** The record a run leaves behind, from the record `j` it started on:
      step 1 at 10%, then the creation of the dubbing, which fails the
      record when it throws and otherwise hands over to `Dubbed`. */
  function RunRecord(j: DubJob, c: DubCalls, outputDir: string): DubJob
  {
    var uploading := Reported(j, 1, 10, UploadingMessage);
    var created := CreateDubbing(c.apiKey, c.created, c.createdAt, c.rand);
    if created.Err? then Faulted(uploading, created.msg)
    else
      var outputPath := OutputPath(outputDir, c.outputAt);
      Dubbed(uploading, c, created.value.dubbingId, outputPath, PollResult(c, created.value.dubbingId, outputPath))
  }

  /** The rest of a run once the dubbing `dubbingId` exists, where the
      poller settles with `poll`: the id is recorded, step 2 at 20%, every
      status the poller reports, then completion and the removal of the
      upload. The first call that throws fails the record, the removal
      included, which turns a completed record into a failed one. */
  function Dubbed(j: DubJob, c: DubCalls, dubbingId: string, outputPath: string,
                  poll: (Result<Option<string>>, seq<DubbingStatus>)): DubJob
  {
    var started := Reported(j.(dubbingId := Some(dubbingId)), 2, 20, PollingMessage);
    var (outcome, reports) := poll;
    var polled := ReportAll(started, reports);
    if outcome.Err? then Faulted(polled, outcome.msg)
    else
      var done := Completed(polled, JobServer.DownloadUrl(outputPath), c.finishedAt);
      if c.removed.Err? then Faulted(done, c.removed.msg) else done
  }

  /** The progress values a run hands to `updateProcess`, in order. */
  function ProgressTrace(c: DubCalls, outputDir: string): seq<int>
  {
    var created := CreateDubbing(c.apiKey, c.created, c.createdAt, c.rand);
    if created.Err? then [10]
    else [10] + DubbedTrace(c, created.value.dubbingId, OutputPath(outputDir, c.outputAt))
  }

  /** The progress values handed on once the dubbing exists. */
  function DubbedTrace(c: DubCalls, dubbingId: string, outputPath: string): seq<int>
  {
    [20] + Progresses(PollResult(c, dubbingId, outputPath).1)
  }

  /** Once the dubbing exists the record ends: completed exactly when the
      poll and the removal succeed, and then at 100% with the download URL
      of the output and the time taken; a failed record carries its error,
      repeated in its message. The dubbing id is recorded and the request's
      fields are kept. */
  lemma {:induction false} DubbedEnds(j: DubJob, c: DubCalls, dubbingId: string, outputPath: string,
                                      poll: (Result<Option<string>>, seq<DubbingStatus>))
    ensures var r := Dubbed(j, c, dubbingId, outputPath, poll);
            && r.status != JobServer.Processing
            && (r.status == JobServer.Completed <==> poll.0.Ok? && c.removed.Ok?)
            && (r.status == JobServer.Completed ==>
                  && r.progress == 100 && r.message == CompletedMessage
                  && r.resultUrl == Some(JobServer.DownloadUrl(outputPath))
                  && r.durationMs == Some(c.finishedAt - j.startTime))
            && (r.status == JobServer.Error ==> r.error.Some? && r.message == ErrorPrefix + r.error.value)
            && (poll.0.Ok? && c.removed.Err? ==>
                  r.status == JobServer.Error && r.error == Some(c.removed.msg)
                  && r.progress == 100 && r.resultUrl == Some(JobServer.DownloadUrl(outputPath)))
            && r.dubbingId == Some(dubbingId)
            && r.videoPath == j.videoPath && r.targetLanguage == j.targetLanguage && r.startTime == j.startTime
  {
    var started := Reported(j.(dubbingId := Some(dubbingId)), 2, 20, PollingMessage);
    var polled := ReportAll(started, poll.1);
    ReportAllLast(started, poll.1);
    assert polled.dubbingId == Some(dubbingId) && polled.startTime == j.startTime;
    assert polled.videoPath == j.videoPath && polled.targetLanguage == j.targetLanguage;
    var url := JobServer.DownloadUrl(outputPath);
    if poll.0.Err? {
      assert Dubbed(j, c, dubbingId, outputPath, poll) == Faulted(polled, poll.0.msg);
    } else if c.removed.Err? {
      assert Dubbed(j, c, dubbingId, outputPath, poll) == Faulted(Completed(polled, url, c.finishedAt), c.removed.msg);
    } else {
      assert Dubbed(j, c, dubbingId, outputPath, poll) == Completed(polled, url, c.finishedAt);
    }
  }

  /** A run always ends its record: it is completed exactly when the
      creation, the poll and the removal all succeed; a failed creation
      leaves the record at step 1 with the creation's error. The request's
      fields are kept. */
  lemma {:induction false} RunRecordEnds(j: DubJob, c: DubCalls, outputDir: string)
    ensures var r := RunRecord(j, c, outputDir);
            var created := CreateDubbing(c.apiKey, c.created, c.createdAt, c.rand);
            && r.status != JobServer.Processing
            && (r.status == JobServer.Completed <==>
                  created.Ok? && PollResult(c, created.value.dubbingId, OutputPath(outputDir, c.outputAt)).0.Ok? && c.removed.Ok?)
            && (created.Err? ==> r.status == JobServer.Error && r.error == Some(created.msg) && r.currentStep == 1)
            && (r.status == JobServer.Error ==> r.error.Some? && r.message == ErrorPrefix + r.error.value)
            && r.videoPath == j.videoPath && r.targetLanguage == j.targetLanguage && r.startTime == j.startTime
  {
    var created := CreateDubbing(c.apiKey, c.created, c.createdAt, c.rand);
    if created.Ok? {
      var outputPath := OutputPath(outputDir, c.outputAt);
      DubbedEnds(Reported(j, 1, 10, UploadingMessage), c, created.value.dubbingId, outputPath,
                 PollResult(c, created.value.dubbingId, outputPath));
    }
  }

  /** Progress can go down: a simulated dubbing reports 10% right after
      the run's own 20%, so the record goes 20, 10, 30, 50, 70, 90, 100
      once the dubbing exists. */
  lemma {:induction false} SimulatedRunProgress(c: DubCalls, dubbingId: string, outputPath: string)
    requires IsSimulated(dubbingId)
    ensures DubbedTrace(c, dubbingId, outputPath) == [20, 10, 30, 50, 70, 90, 100]
    ensures DubbedTrace(c, dubbingId, outputPath)[1] < DubbedTrace(c, dubbingId, outputPath)[0]
  {
    var ps := Progresses(SimReports(dubbingId));
    assert ps == [10, 30, 50, 70, 90, 100] by {
      forall i | 0 <= i < 6 ensures ps[i] == [10, 30, 50, 70, 90, 100][i] {
        assert ps[i] == SimReport(dubbingId, i).progress;
      }
    }
  }

  // ---------------------------------------------------------------------
  // The progress route

  /** What the progress route answers for a known record. */
  datatype DubSnapshot = DubSnapshot(
    status: JobServer.Status, progress: int, currentStep: int, error: Option<string>,
    resultUrl: Option<string>, durationMs: Option<int>, message: string,
    timeEstimates: TimeEstimates, progressMessage: string, startTime: int, estimatedCompletionAt: real)

  class DubbingStore {
    var processes: map<string, DubJob>

    constructor()
      ensures processes == map[]
    {
      processes := map[];
    }

    /** `calculateTimeEstimates(processId, progress)` at the clock reading
        `now`: nothing for an unknown id. */
    function CalculateTimeEstimates(id: string, progress: int, now: int): (r: Option<TimeEstimates>)
      reads this
      ensures r.None? <==> id !in processes
      ensures r.Some? ==> r.value == Estimates(processes[id].startTime, progress, now)
    {
      if id !in processes then None else Some(Estimates(processes[id].startTime, progress, now))
    }

    /** The progress route at the clock reading `now`: 404 for an unknown
        id, otherwise the record's fields with their time estimates. */
    function GetProgress(id: string, now: int): (r: Result<DubSnapshot>)
      reads this
      ensures r.Err? <==> id !in processes
      ensures r.Err? ==> r.msg == JobServer.NotFoundMessage
      ensures r.Ok? ==>
                var j := processes[id];
                && r.value.status == j.status && r.value.progress == j.progress
                && r.value.currentStep == j.currentStep && r.value.error == j.error
                && r.value.resultUrl == j.resultUrl && r.value.durationMs == j.durationMs
                && r.value.message == j.message && r.value.progressMessage == j.message
                && r.value.startTime == j.startTime
                && r.value.timeEstimates == Estimates(j.startTime, j.progress, now)
                && r.value.estimatedCompletionAt == r.value.timeEstimates.completionAt
    {
      match CalculateTimeEstimates(id, if id in processes then processes[id].progress else 0, now)
      case None => Err(JobServer.NotFoundMessage)
      case Some(e) =>
        var j := processes[id];
        Ok(DubSnapshot(j.status, j.progress, j.currentStep, j.error, j.resultUrl, j.durationMs,
                       j.message, e, j.message, j.startTime, e.completionAt))
    }

    /** The timer of the server: removes every record older than thirty
        minutes, visiting the records one by one. */
    method SweepExpired(now: int)
      modifies this
      ensures processes == Unexpired(old(processes), now)
    {
      ghost var p0 := processes;
      var pending := processes.Keys;
      while pending != {}
        invariant pending <= p0.Keys
        invariant processes == map id | id in p0 && (id in pending || !Expired(p0[id], now)) :: p0[id]
        decreases |pending|
      {
        var id :| id in pending;
        if now - processes[id].startTime > ProcessTtl {
          processes := processes - {id};
        }
        pending := pending - {id};
      }
    }

    /** The process route: checks the upload and the language and stores
        a new record under `id` (the fresh UUID) at the clock reading
        `now`; a rejected request stores nothing. The run itself is
        `ProcessVideoAsync`, started without being awaited. */
    method SubmitVideo(file: Option<string>, lang: Option<string>, id: string, now: int)
      returns (r: Result<string>)
      modifies this
      ensures var v := ValidateRequest(file, lang);
              && (v.Err? ==> r == Err(v.msg) && processes == old(processes))
              && (v.Ok? ==> r == Ok(id) && processes == old(processes)[id := NewJob(v.value.0, v.value.1, now)])
    {
      var v := ValidateRequest(file, lang);
      if v.Err? {
        return Err(v.msg);
      }
      processes := processes[id := NewJob(v.value.0, v.value.1, now)];
      r := Ok(id);
    }

    /** `updateProcess`: overwrites the step, progress and message of an
        existing record. */
    method UpdateProcess(id: string, step: int, progress: int, message: string)
      modifies this
      ensures id in old(processes) ==> processes == old(processes)[id := Reported(old(processes)[id], step, progress, message)]
      ensures id !in old(processes) ==> processes == old(processes)
    {
      if id in processes {
        processes := processes[id := Reported(processes[id], step, progress, message)];
      }
    }

    /** `completeProcess`: marks an existing record completed at `now`. */
    method CompleteProcess(id: string, resultUrl: string, now: int)
      modifies this
      ensures id in old(processes) ==> processes == old(processes)[id := Completed(old(processes)[id], resultUrl, now)]
      ensures id !in old(processes) ==> processes == old(processes)
    {
      if id in processes {
        processes := processes[id := Completed(processes[id], resultUrl, now)];
      }
    }

    /** `failProcess`: marks an existing record as failed with the error. */
    method FailProcess(id: string, error: string)
      modifies this
      ensures id in old(processes) ==> processes == old(processes)[id := Faulted(old(processes)[id], error)]
      ensures id !in old(processes) ==> processes == old(processes)
    {
      if id in processes {
        processes := processes[id := Faulted(processes[id], error)];
      }
    }

    /** The store holds `p0` with the run's record, if there is one, at `j`. */
    ghost predicate Holds(p0: map<string, DubJob>, id: string, j: DubJob)
      reads this
    {
      && (id in p0 ==> processes == p0[id := j])
      && (id !in p0 ==> processes == p0)
    }

    /** `processVideoAsync`: runs the dubbing of the video behind record
        `id` and returns the progress values it reported. */
    method ProcessVideoAsync(id: string, c: DubCalls, outputDir: string) returns (trace: seq<int>)
      modifies this
      ensures id in old(processes) ==> processes == old(processes)[id := RunRecord(old(processes)[id], c, outputDir)]
      ensures id !in old(processes) ==> processes == old(processes)
      ensures trace == ProgressTrace(c, outputDir)
    {
      ghost var p0 := processes;
      ghost var j := if id in p0 then p0[id] else NewJob("", "", 0);
      UpdateStep(p0, id, j, 1, 10, UploadingMessage);
      ghost var uploading := Reported(j, 1, 10, UploadingMessage);
      var created := CreateDubbing(c.apiKey, c.created, c.createdAt, c.rand);
      if created.Err? {
        FailStep(p0, id, uploading, created.msg);
        return [10];
      }
      var rest := FollowDubbing(p0, id, uploading, c, created.value.dubbingId, OutputPath(outputDir, c.outputAt));
      trace := [10] + rest;
    }

    /** The run once the dubbing `dubbingId` exists: step 2, the poll with
        its progress callback, completion and the removal of the upload. */
    method FollowDubbing(ghost p0: map<string, DubJob>, id: string, ghost j: DubJob, c: DubCalls,
                         dubbingId: string, outputPath: string) returns (trace: seq<int>)
      requires Holds(p0, id, j)
      modifies this
      ensures Holds(p0, id, Dubbed(j, c, dubbingId, outputPath, PollResult(c, dubbingId, outputPath)))
      ensures trace == DubbedTrace(c, dubbingId, outputPath)
    {
      ghost var started := Reported(j.(dubbingId := Some(dubbingId)), 2, 20, PollingMessage);
      StartPolling(p0, id, j, dubbingId);
      var outcome, reports, _ := PollDubbingStatus(c.apiKey, dubbingId, outputPath, c.attempts, c.uploads, c.copy);
      assert (outcome, reports) == PollResult(c, dubbingId, outputPath);
      var progresses := ReportStatuses(p0, id, started, reports);
      trace := [20] + progresses;
      ghost var polled := ReportAll(started, reports);
      if outcome.Err? {
        FailStep(p0, id, polled, outcome.msg);
        return;
      }
      CompleteStep(p0, id, polled, JobServer.DownloadUrl(outputPath), c.finishedAt);
      if c.removed.Err? {
        FailStep(p0, id, Completed(polled, JobServer.DownloadUrl(outputPath), c.finishedAt), c.removed.msg);
      }
    }

    /** `updateProcess` on the run's record. */
    method UpdateStep(ghost p0: map<string, DubJob>, id: string, ghost j: DubJob, step: int, progress: int, message: string)
      requires Holds(p0, id, j)
      modifies this
      ensures Holds(p0, id, Reported(j, step, progress, message))
    {
      UpdateProcess(id, step, progress, message);
    }

    /** Records the dubbing id and reports step 2. */
    method StartPolling(ghost p0: map<string, DubJob>, id: string, ghost j: DubJob, dubbingId: string)
      requires Holds(p0, id, j)
      modifies this
      ensures Holds(p0, id, Reported(j.(dubbingId := Some(dubbingId)), 2, 20, PollingMessage))
    {
      if id in processes {
        processes := processes[id := processes[id].(dubbingId := Some(dubbingId))];
      }
      UpdateStep(p0, id, j.(dubbingId := Some(dubbingId)), 2, 20, PollingMessage);
    }

    /** The progress callback, once per status the poller reports. */
    method ReportStatuses(ghost p0: map<string, DubJob>, id: string, ghost j: DubJob, reports: seq<DubbingStatus>)
      returns (progresses: seq<int>)
      requires Holds(p0, id, j)
      modifies this
      ensures Holds(p0, id, ReportAll(j, reports))
      ensures progresses == Progresses(reports)
    {
      progresses := [];
      for i := 0 to |reports|
        invariant Holds(p0, id, ReportAll(j, reports[..i]))
        invariant progresses == Progresses(reports[..i])
      {
        assert reports[..i + 1][..i] == reports[..i];
        UpdateStep(p0, id, ReportAll(j, reports[..i]), 2, reports[i].progress, reports[i].message);
        progresses := progresses + [reports[i].progress];
      }
      assert reports[..|reports|] == reports;
    }

    /** `failProcess` on the run's record. */
    method FailStep(ghost p0: map<string, DubJob>, id: string, ghost j: DubJob, error: string)
      requires Holds(p0, id, j)
      modifies this
      ensures Holds(p0, id, Faulted(j, error))
    {
      FailProcess(id, error);
    }

    /** `completeProcess` on the run's record. */
    method CompleteStep(ghost p0: map<string, DubJob>, id: string, ghost j: DubJob, resultUrl: string, now: int)
      requires Holds(p0, id, j)
      modifies this
      ensures Holds(p0, id, Completed(j, resultUrl, now))
    {
      CompleteProcess(id, resultUrl, now);
    }
  }
}
