/** The job store of the single-video server: the `activeProcesses` map,
    the records it holds, the background run that drives a record through
    the five dubbing steps, and the progress query. */
module JobServer {

  import opened Outcomes
  import opened Text
  import Utils

  datatype Status = Processing | Completed | Error

  /** The status as the progress route writes it. */
  function StatusName(s: Status): string
  {
    match s
    case Processing => "processing"
    case Completed => "completed"
    case Error => "error"
  }

  /** A record of `activeProcesses`; the fields a record does not have yet
      (`resultUrl`, the texts, `endTime`, `durationMs`) are None. */
  datatype Job = Job(
    status: Status, progress: int, currentStep: int,
    videoPath: string, targetLanguage: string,
    error: Option<string>, startTime: int,
    resultUrl: Option<string>, translatedText: Option<string>, originalText: Option<string>,
    endTime: Option<int>, durationMs: Option<int>)

  /** The language of a request: `req.body.targetLanguage || 'en'`. */
  function RequestLanguage(lang: Option<string>): (r: string)
    ensures r != ""
    ensures Truthy(lang) ==> r == lang.value
  {
    if Truthy(lang) then lang.value else "en"
  }

  /** The record the process route stores for a new job. */
  function NewJob(videoPath: string, lang: Option<string>, now: int): Job
  {
    Job(Processing, 0, 1, videoPath, RequestLanguage(lang), None, now, None, None, None, None, None)
  }

  /** The number of steps `processVideoAsync` reports. */
  const Steps := 5

  /** The (step, progress) pair `processVideoAsync` reports before step k:
      (1, 20), (2, 40), (3, 60), (4, 80) and (5, 90). */
  function Stage(k: int): (int, int)
  {
    (k, if k < Steps then 20 * k else 90)
  }

  /** `trace` is the schedule's first |trace| updates. */
  predicate FollowsSchedule(trace: seq<(int, int)>)
  {
    |trace| <= Steps && forall i :: 0 <= i < |trace| ==> trace[i] == Stage(i + 1)
  }

  /** Reporting the next step of the schedule keeps the trace on it. */
  lemma {:induction false} FollowsScheduleStep(trace: seq<(int, int)>, k: int)
    requires FollowsSchedule(trace) && |trace| == k - 1 && 1 <= k <= Steps
    ensures FollowsSchedule(trace + [Stage(k)])
  {
  }

  /** Steps and progress both strictly increase along the schedule, and the
      completion's 100 is above them all. */
  lemma {:induction false} ScheduleIncreasing(i: int, j: int)
    requires 1 <= i < j <= Steps
    ensures Stage(i).0 < Stage(j).0 && Stage(i).1 < Stage(j).1 < 100
    ensures Stage(1) == (1, 20) && Stage(Steps) == (5, 90)
  {
  }

  // ---------------------------------------------------------------------
  // transcribeAudio (Whisper through Python)

  /** How the Whisper process ended: its exit code and what it wrote to
      stderr. */
  datatype WhisperRun = WhisperRun(code: int, stderr: string)

  const WhisperErrorPrefix := "Error en Whisper: "

  /** server.js `transcribeAudio`: on exit code 0 reads the transcript
      Whisper wrote beside the audio file; otherwise rejects with the
      captured stderr. */
  function WhisperTranscribe(audioPath: string, run: WhisperRun, disk: map<string, string>): (r: Result<string>)
    ensures run.code != 0 ==> r == Err(WhisperErrorPrefix + run.stderr) && StartsWith(r.msg, WhisperErrorPrefix)
  {
    if run.code == 0 then Utils.TranscribeAudio(audioPath, disk) else Err(WhisperErrorPrefix + run.stderr)
  }

  /** server.js applies the regular expression to the whole path; the file
      it reads is the one utils.js derives from the file name alone. */
  lemma {:induction false} WhisperReadsWholePathName(audioPath: string, run: WhisperRun, disk: map<string, string>)
    requires run.code == 0
    ensures var txtPath := Utils.ReplaceFinalExtension(audioPath);
            WhisperTranscribe(audioPath, run, disk) ==
              if txtPath in disk then Ok(disk[txtPath]) else Err(Utils.NoTranscriptMessage)
  {
    Utils.WholePathReplaceAgrees(audioPath);
  }

  // ---------------------------------------------------------------------
  // The download URL

  /** `path.basename(p)` for a path without a trailing slash: what follows
      the last '/'. */
  function Basename(p: string): (b: string)
    ensures '/' !in b
    ensures EndsWith(p, b)
  {
    LastIndexTail(p, '/');
    p[LastIndexOf(p, '/') + 1..]
  }

  const DownloadPrefix := "/api/download/"

  function DownloadUrl(finalVideoPath: string): (url: string)
  {
    DownloadPrefix + Basename(finalVideoPath)
  }

  /** The download URL is the prefix followed by one slash-free path
      segment, the last one of the final video's path. */
  lemma {:induction false} DownloadUrlShape(finalVideoPath: string)
    ensures var url := DownloadUrl(finalVideoPath);
            && StartsWith(url, DownloadPrefix)
            && '/' !in url[|DownloadPrefix|..]
            && EndsWith(finalVideoPath, url[|DownloadPrefix|..])
  {
    var url := DownloadUrl(finalVideoPath);
    var b := Basename(finalVideoPath);
    assert url[|DownloadPrefix|..] == b;
  }

  // ---------------------------------------------------------------------
  // processVideoAsync

  /** What the external steps of one run report: the audio extraction, the
      Whisper process, the files on disk, the two translation backends, the
      speech synthesis, the muxing, whether the final file exists, and
      whether removing temporary files works. */
  datatype Stages = Stages(
    audio: Result<string>, whisper: WhisperRun, disk: map<string, string>,
    libre: Utils.Reply, lingva: Utils.Reply,
    tts: Result<string>, sync: Result<string>, finalExists: bool,
    files: set<string>, removeWorks: bool)

  const FinalMissingMessage := "Video final no se generó correctamente"

  /** How a run ends: completed with the download URL and both texts, or
      failed during step `step` with an error message. */
  datatype PipelineOutcome =
    | Done(resultUrl: string, translated: string, transcript: string)
    | FailedAt(step: nat, msg: string)

  /** The outcome of the five steps of `processVideoAsync`; the first step
      that throws decides it. */
  function Pipeline(target: string, useLingva: bool, st: Stages): (o: PipelineOutcome)
    ensures o.FailedAt? ==> 1 <= o.step <= Steps
  {
    if st.audio.Err? then FailedAt(1, st.audio.msg)
    else
      var transcript := WhisperTranscribe(st.audio.value, st.whisper, st.disk);
      if transcript.Err? then FailedAt(2, transcript.msg)
      else
        var translated := Utils.TranslateText(Utils.CleanTranscription(transcript.value), target, useLingva, st.libre, st.lingva);
        if translated.Err? then FailedAt(3, translated.msg)
        else if st.tts.Err? then FailedAt(4, st.tts.msg)
        else if st.sync.Err? then FailedAt(5, st.sync.msg)
        else if !st.finalExists then FailedAt(5, FinalMissingMessage)
        else Done(DownloadUrl(st.sync.value), translated.value, transcript.value)
  }

  /** A run completes exactly when every step succeeds: the audio is
      extracted, Whisper exits with 0 and leaves its transcript, one of the
      translation backends answers, speech is synthesised, the video is
      muxed and the final file exists. */
  lemma {:induction false} PipelineCompletes(target: string, useLingva: bool, st: Stages)
    ensures Pipeline(target, useLingva, st).Done? <==>
              && st.audio.Ok? && st.whisper.code == 0 && Utils.TxtPath(st.audio.value) in st.disk
              && (Utils.PrimaryAnswer(st.libre).Some? || Utils.FallbackAnswer(st.lingva).Some?)
              && st.tts.Ok? && st.sync.Ok? && st.finalExists
  {
  }

  /** A completed run links to the final video and stores the raw
      transcript Whisper left as the original text. */
  lemma {:induction false} PipelineDoneContents(target: string, useLingva: bool, st: Stages)
    requires Pipeline(target, useLingva, st).Done?
    ensures var o := Pipeline(target, useLingva, st);
            && st.audio.Ok? && st.sync.Ok?
            && o.resultUrl == DownloadUrl(st.sync.value)
            && Utils.TxtPath(st.audio.value) in st.disk
            && o.transcript == st.disk[Utils.TxtPath(st.audio.value)]
  {
    var t := WhisperTranscribe(st.audio.value, st.whisper, st.disk);
    var tr := Utils.TranslateText(Utils.CleanTranscription(t.value), target, useLingva, st.libre, st.lingva);
    assert Pipeline(target, useLingva, st) == Done(DownloadUrl(st.sync.value), tr.value, t.value);
    assert t == Utils.TranscribeAudio(st.audio.value, st.disk);
  }

  /** The translated text of a completed run is the primary backend's
      answer, or the fallback's when the primary gave none. */
  lemma {:induction false} PipelineDoneTranslation(target: string, useLingva: bool, st: Stages)
    requires Pipeline(target, useLingva, st).Done?
    ensures var o := Pipeline(target, useLingva, st);
            o.translated == if Utils.PrimaryAnswer(st.libre).Some? then Utils.PrimaryAnswer(st.libre).value
                            else Utils.FallbackAnswer(st.lingva).value
  {
    assert st.audio.Ok?;
    var t := WhisperTranscribe(st.audio.value, st.whisper, st.disk);
    assert t.Ok?;
    var tr := Utils.TranslateText(Utils.CleanTranscription(t.value), target, useLingva, st.libre, st.lingva);
    assert tr.Ok?;
    assert Pipeline(target, useLingva, st) == Done(DownloadUrl(st.sync.value), tr.value, t.value);
  }

  /** A failure of the Whisper process fails step 2 with its stderr, and a
      missing transcript fails it with the message utils.js uses. */
  lemma {:induction false} WhisperFailureMessages(target: string, useLingva: bool, st: Stages)
    requires st.audio.Ok?
    ensures st.whisper.code != 0 ==>
              Pipeline(target, useLingva, st) == FailedAt(2, WhisperErrorPrefix + st.whisper.stderr)
    ensures st.whisper.code == 0 && Utils.TxtPath(st.audio.value) !in st.disk ==>
              Pipeline(target, useLingva, st) == FailedAt(2, Utils.NoTranscriptMessage)
  {
  }

  /** Step 3 fails only when neither backend answers, with the fallback's
      error after the translation prefix. */
  lemma {:induction false} TranslationFailureMessage(target: string, useLingva: bool, st: Stages)
    requires Pipeline(target, useLingva, st).FailedAt? && Pipeline(target, useLingva, st).step == 3
    ensures Utils.PrimaryAnswer(st.libre).None? && Utils.FallbackAnswer(st.lingva).None?
    ensures Pipeline(target, useLingva, st).msg == Utils.TranslationErrorPrefix + Utils.FallbackError(st.lingva)
  {
    if st.audio.Err? {
      assert false;
    }
    if st.whisper.code != 0 {
      assert false;
    }
    var t := WhisperTranscribe(st.audio.value, st.whisper, st.disk);
    assert t == Utils.TranscribeAudio(st.audio.value, st.disk);
    if t.Err? {
      assert false;
    }
    var tr := Utils.TranslateText(Utils.CleanTranscription(t.value), target, useLingva, st.libre, st.lingva);
    if tr.Ok? {
      assert false;
    }
    assert Pipeline(target, useLingva, st) == FailedAt(3, tr.msg);
  }

  /** A muxed video that is missing fails step 5. */
  lemma {:induction false} MissingFinalFails(target: string, useLingva: bool, st: Stages)
    requires st.audio.Ok? && st.whisper.code == 0 && Utils.TxtPath(st.audio.value) in st.disk
    requires Utils.PrimaryAnswer(st.libre).Some? || Utils.FallbackAnswer(st.lingva).Some?
    requires st.tts.Ok? && st.sync.Ok? && !st.finalExists
    ensures Pipeline(target, useLingva, st) == FailedAt(5, FinalMissingMessage)
  {
  }

  /** Removing three paths with a working remove leaves every other file. */
  lemma {:induction false} CleanupThree(files: set<string>, a: string, b: string, c: string)
    ensures Utils.CleanupTempFiles(Utils.CleanupTempFiles(Utils.CleanupTempFiles(files, a, true), b, true), c, true)
            == files - {a, b, c}
  {
  }

  /** The record at the end of a run: completion sets status, 100, the URL,
      both texts and the timing; a failure sets the error status and
      message and leaves step and progress at the last update made. */
  function RunRecord(j: Job, o: PipelineOutcome, now: int): Job
    requires o.FailedAt? ==> 1 <= o.step <= Steps
  {
    match o
    case Done(url, translated, transcript) =>
      j.(status := Completed, progress := 100, currentStep := 5, resultUrl := Some(url),
         translatedText := Some(translated), originalText := Some(transcript),
         endTime := Some(now), durationMs := Some(now - j.startTime))
    case FailedAt(step, msg) =>
      j.(currentStep := Stage(step).0, progress := Stage(step).1,
         status := Error, error := Some(msg))
  }

  /** A run ends a record's processing: it is completed exactly when the
      run is, and is otherwise in error with the step's message. The
      request's fields and the start time are kept. */
  lemma {:induction false} RunRecordStatus(j: Job, o: PipelineOutcome, now: int)
    requires o.FailedAt? ==> 1 <= o.step <= Steps
    ensures var r := RunRecord(j, o, now);
            && r.status != Processing
            && (r.status == Completed <==> o.Done?)
            && (r.status == Error ==> r.error == Some(o.msg) && r.currentStep == o.step)
            && r.videoPath == j.videoPath && r.targetLanguage == j.targetLanguage && r.startTime == j.startTime
  {
  }

  /** A job that fails never gets a download URL, and a completed job's
      duration is the time from its start to its end. */
  lemma {:induction false} FreshRunResult(videoPath: string, lang: Option<string>, start: int, o: PipelineOutcome, now: int)
    requires o.FailedAt? ==> 1 <= o.step <= Steps
    ensures var r := RunRecord(NewJob(videoPath, lang, start), o, now);
            && (r.status == Error ==> r.resultUrl == None && r.translatedText == None)
            && (r.status == Completed ==> r.resultUrl.Some? && r.durationMs == Some(now - start) && r.error == None)
  {
  }

  /** A snapshot the progress route answers with. */
  datatype Snapshot = Snapshot(
    status: Status, progress: int, currentStep: int, error: Option<string>,
    resultUrl: Option<string>, translatedText: Option<string>, originalText: Option<string>,
    durationMs: Option<int>)

  const NotFoundMessage := "Proceso no encontrado"

  class JobStore {
    var processes: map<string, Job>

    constructor()
      ensures processes == map[]
    {
      processes := map[];
    }

    /** `updateProcess`: sets the step and progress of an existing record. */
    method UpdateProcess(id: string, step: int, progress: int)
      modifies this
      ensures id in old(processes) ==>
                processes == old(processes)[id := old(processes)[id].(currentStep := step, progress := progress)]
      ensures id !in old(processes) ==> processes == old(processes)
    {
      if id in processes {
        processes := processes[id := processes[id].(currentStep := step, progress := progress)];
      }
    }

    /** `completeProcess`: marks an existing record completed at `now`. */
    method CompleteProcess(id: string, resultUrl: string, translatedText: string, originalText: string, now: int)
      modifies this
      ensures id in old(processes) ==>
                var j := old(processes)[id];
                processes == old(processes)[id := j.(status := Completed, progress := 100, resultUrl := Some(resultUrl),
                                                     translatedText := Some(translatedText), originalText := Some(originalText),
                                                     endTime := Some(now), durationMs := Some(now - j.startTime))]
      ensures id !in old(processes) ==> processes == old(processes)
    {
      if id in processes {
        var j := processes[id];
        processes := processes[id := j.(status := Completed, progress := 100, resultUrl := Some(resultUrl),
                                        translatedText := Some(translatedText), originalText := Some(originalText),
                                        endTime := Some(now), durationMs := Some(now - j.startTime))];
      }
    }

    /** `failProcess`: marks an existing record as failed with a message. */
    method FailProcess(id: string, error: string)
      modifies this
      ensures id in old(processes) ==>
                processes == old(processes)[id := old(processes)[id].(status := Error, error := Some(error))]
      ensures id !in old(processes) ==> processes == old(processes)
    {
      if id in processes {
        processes := processes[id := processes[id].(status := Error, error := Some(error))];
      }
    }

    /** The process route: validates the upload and stores a new record
        under `id` (the fresh UUID); a rejected upload answers 500 with the
        validation message and stores nothing. */
    method SubmitVideo(file: Option<Utils.UploadedFile>, lang: Option<string>, id: string, now: int)
      returns (r: Result<string>)
      modifies this
      ensures Utils.ValidateVideoFile(file).Err? ==>
                r == Err(Utils.ValidateVideoFile(file).msg) && processes == old(processes)
      ensures Utils.ValidateVideoFile(file).Ok? ==>
                r == Ok(id) && processes == old(processes)[id := NewJob(file.value.path, lang, now)]
    {
      var valid := Utils.ValidateVideoFile(file);
      if valid.Err? {
        return Err(valid.msg);
      }
      processes := processes[id := NewJob(file.value.path, lang, now)];
      r := Ok(id);
    }

    /** `processVideoAsync`: reports each step before doing it, fails the
        record at the first step that throws, and otherwise completes it and
        removes the temporary files. Returns the (step, progress) updates
        made and the files left. */
    method ProcessVideoAsync(id: string, videoPath: string, target: string, useLingva: bool, st: Stages, now: int)
      returns (trace: seq<(int, int)>, files: set<string>)
      modifies this
      ensures var o := Pipeline(target, useLingva, st);
              && FollowsSchedule(trace)
              && |trace| == (if o.Done? then Steps else o.step)
              && Ran(old(processes), id, o, now)
              && (o.FailedAt? ==> files == st.files)
              && (o.Done? && st.removeWorks ==> files == st.files - {videoPath, st.audio.value, st.tts.value})
    {
      ghost var p0 := processes;
      files := st.files;
      var o;
      o, trace := RunSteps(p0, id, target, useLingva, st);
      match o {
        case FailedAt(k, msg) =>
          FailAt(p0, id, k, msg, now);
        case Done(url, translated, transcript) =>
          CompleteAt(p0, id, url, translated, transcript, now);
          files := Utils.CleanupTempFiles(files, videoPath, st.removeWorks);
          files := Utils.CleanupTempFiles(files, st.audio.value, st.removeWorks);
          files := Utils.CleanupTempFiles(files, st.tts.value, st.removeWorks);
          if st.removeWorks {
            CleanupThree(st.files, videoPath, st.audio.value, st.tts.value);
          }
      }
    }

    /** The `try` block of `processVideoAsync`: each step is reported before
        it runs, and the first step that throws ends the block with its
        error. */
    method RunSteps(ghost p0: map<string, Job>, id: string, target: string, useLingva: bool, st: Stages)
      returns (o: PipelineOutcome, trace: seq<(int, int)>)
      requires processes == p0
      modifies this
      ensures o == Pipeline(target, useLingva, st)
      ensures FollowsSchedule(trace) && 1 <= |trace| <= Steps
      ensures |trace| == (if o.Done? then Steps else o.step)
      ensures AtStep(p0, id, |trace|)
    {
      trace := [];
      FollowsScheduleStep(trace, 1);
      trace := trace + [Stage(1)];
      Advance(p0, id, 1);
      if st.audio.Err? {
        return FailedAt(1, st.audio.msg), trace;
      }
      FollowsScheduleStep(trace, 2);
      trace := trace + [Stage(2)];
      Advance(p0, id, 2);
      var transcribed := WhisperTranscribe(st.audio.value, st.whisper, st.disk);
      if transcribed.Err? {
        return FailedAt(2, transcribed.msg), trace;
      }
      var cleanText := Utils.CleanTranscription(transcribed.value);
      FollowsScheduleStep(trace, 3);
      trace := trace + [Stage(3)];
      Advance(p0, id, 3);
      var translated := Utils.TranslateText(cleanText, target, useLingva, st.libre, st.lingva);
      if translated.Err? {
        return FailedAt(3, translated.msg), trace;
      }
      FollowsScheduleStep(trace, 4);
      trace := trace + [Stage(4)];
      Advance(p0, id, 4);
      if st.tts.Err? {
        return FailedAt(4, st.tts.msg), trace;
      }
      FollowsScheduleStep(trace, 5);
      trace := trace + [Stage(5)];
      Advance(p0, id, 5);
      if st.sync.Err? {
        return FailedAt(5, st.sync.msg), trace;
      }
      if !st.finalExists {
        return FailedAt(5, FinalMissingMessage), trace;
      }
      o := Done(DownloadUrl(st.sync.value), translated.value, transcribed.value);
    }

    /** The store after the first k updates of a run on the store p0. */
    ghost predicate AtStep(p0: map<string, Job>, id: string, k: int)
      requires 1 <= k <= Steps
      reads this
    {
      && (id in p0 ==> processes == p0[id := p0[id].(currentStep := Stage(k).0, progress := Stage(k).1)])
      && (id !in p0 ==> processes == p0)
    }

    /** The store after a run on the store p0 that ended with `o`: only the
        run's own record changes, and only when it exists. */
    ghost predicate Ran(p0: map<string, Job>, id: string, o: PipelineOutcome, now: int)
      requires o.FailedAt? ==> 1 <= o.step <= Steps
      reads this
    {
      && (id in p0 ==> processes == p0[id := RunRecord(p0[id], o, now)])
      && (id !in p0 ==> processes == p0)
    }

    /** Reports step k of the schedule. */
    method Advance(ghost p0: map<string, Job>, id: string, k: int)
      requires 1 <= k <= Steps
      requires k == 1 ==> processes == p0
      requires k > 1 ==> AtStep(p0, id, k - 1)
      modifies this
      ensures AtStep(p0, id, k)
    {
      UpdateProcess(id, Stage(k).0, Stage(k).1);
    }

    /** The catch of `processVideoAsync`, after k steps were reported. */
    method FailAt(ghost p0: map<string, Job>, id: string, k: int, msg: string, ghost now: int)
      requires 1 <= k <= Steps
      requires AtStep(p0, id, k)
      modifies this
      ensures Ran(p0, id, FailedAt(k, msg), now)
    {
      FailProcess(id, msg);
    }

    /** The completion of `processVideoAsync`, after all steps were reported. */
    method CompleteAt(ghost p0: map<string, Job>, id: string, resultUrl: string, translatedText: string, originalText: string, now: int)
      requires AtStep(p0, id, Steps)
      modifies this
      ensures Ran(p0, id, Done(resultUrl, translatedText, originalText), now)
    {
      CompleteProcess(id, resultUrl, translatedText, originalText, now);
    }

    /** The progress route: 404 for an unknown id, otherwise the record's
        fields. */
    function GetProgress(id: string): (r: Result<Snapshot>)
      reads this
      ensures r.Err? <==> id !in processes
      ensures r.Err? ==> r.msg == NotFoundMessage
      ensures r.Ok? ==>
                var j := processes[id];
                && r.value.status == j.status && r.value.progress == j.progress
                && r.value.currentStep == j.currentStep && r.value.error == j.error
                && r.value.resultUrl == j.resultUrl && r.value.durationMs == j.durationMs
                && r.value.translatedText == j.translatedText && r.value.originalText == j.originalText
    {
      if id !in processes then Err(NotFoundMessage)
      else
        var j := processes[id];
        Ok(Snapshot(j.status, j.progress, j.currentStep, j.error, j.resultUrl, j.translatedText, j.originalText, j.durationMs))
    }
  }
}
