/** The browser page of the dubbing server (elevenlabs-version/public/
    script.js): which files it accepts, how it reads the progress answers,
    its two step indicators, when its polling interval is cleared, the
    credits panel and its duration format. Timers and fetches become the
    sequences of answers they would deliver. */
module DubbingPage {

  import opened Outcomes
  import opened Text
  import opened Decimal
  import JobServer
  import DubbingServer
  import UploadPage

  // ---------------------------------------------------------------------
  // handleFile

  /** Why the page refuses a file: only a MIME type outside `video/`; this
      page sets no size limit. */
  function FileProblem(f: UploadPage.VideoFile): (problem: Option<string>)
    ensures problem.None? <==> StartsWith(f.mimeType, UploadPage.VideoTypePrefix)
    ensures problem.Some? ==> problem.value == UploadPage.NotVideoMessage
  {
    if !StartsWith(f.mimeType, UploadPage.VideoTypePrefix) then Some(UploadPage.NotVideoMessage) else None
  }

  /** Every file the translating page takes this page takes too, with the
      same refusal for a file that is no video; a video over 5 GiB is taken
      here only. */
  lemma {:induction false} AcceptsMoreThanUploadPage(f: UploadPage.VideoFile)
    ensures UploadPage.FileProblem(f).None? ==> FileProblem(f).None?
    ensures FileProblem(f).Some? ==> UploadPage.FileProblem(f) == FileProblem(f)
    ensures StartsWith(f.mimeType, UploadPage.VideoTypePrefix) && f.size > UploadPage.MaxFileBytes ==>
              FileProblem(f).None? && UploadPage.FileProblem(f).Some?
  {
  }

  // ---------------------------------------------------------------------
  // The progress answer as the page reads it

  /** The fields of a progress answer the page looks at; the empty string
      stands for a field the answer lacks. */
  datatype DubData = DubData(
    status: string, progress: int, currentStep: int, error: string, resultUrl: string,
    message: string, progressMessage: string, hasEstimates: bool)

  /** What the page gets from the dubbing server's progress route: a
      non-2xx answer is thrown as an error, like a failed fetch. */
  function ServerAnswer(r: Result<DubbingServer.DubSnapshot>): (a: Result<DubData>)
    ensures a.Err? <==> r.Err?
    ensures r.Ok? ==> a.value.status == JobServer.StatusName(r.value.status) && a.value.hasEstimates
                      && a.value.progress == r.value.progress && a.value.currentStep == r.value.currentStep
  {
    match r
    case Err(msg) => Err(msg)
    case Ok(s) =>
      Ok(DubData(JobServer.StatusName(s.status), s.progress, s.currentStep, UploadPage.OrEmpty(s.error),
                 UploadPage.OrEmpty(s.resultUrl), s.message, s.progressMessage, true))
  }

  const StartText := "Iniciando doblaje..."

  /** `updateProgress`: the progress message, else the message, else
      "Procesando...". */
  function ProgressText(d: DubData): (text: string)
    ensures d.progressMessage != "" ==> text == d.progressMessage
    ensures d.progressMessage == "" && d.message != "" ==> text == d.message
    ensures d.progressMessage == "" && d.message == "" ==> text == UploadPage.DefaultProgressText
  {
    if d.progressMessage != "" then d.progressMessage
    else if d.message != "" then d.message
    else UploadPage.DefaultProgressText
  }

  /** The two indicators after an answer: the first is done from step 1 on,
      the second active from step 2 on; otherwise each keeps its class. */
  function UpdateSteps(steps: (UploadPage.Mark, UploadPage.Mark), currentStep: int): (r: (UploadPage.Mark, UploadPage.Mark))
    ensures currentStep >= 1 ==> r.0 == UploadPage.Done
    ensures currentStep >= 2 ==> r.1 == UploadPage.Active
    ensures currentStep < 1 ==> r == steps
    ensures currentStep < 2 ==> r.1 == steps.1
  {
    (if currentStep >= 1 then UploadPage.Done else steps.0,
     if currentStep >= 2 then UploadPage.Active else steps.1)
  }

  /** `showProgress` resets the first indicator to active, the second to
      idle. */
  const ResetSteps := (UploadPage.Active, UploadPage.Idle)

  /** `updateProgress`: the estimates button shows once estimates came and
      progress is made; past 10 % the window is scheduled to open. */
  predicate TimeButtonShown(d: DubData)
  {
    d.hasEstimates && d.progress > 0
  }

  predicate TimeWindowScheduled(d: DubData)
  {
    TimeButtonShown(d) && d.progress > 10
  }

  /** Against the dubbing server: the text is the record's message (or
      "Procesando..." for an empty one), the estimates button shows exactly
      when progress is positive, and the indicators follow the record's
      step. */
  lemma {:induction false} DubbingServerView(s: DubbingServer.DubSnapshot, steps: (UploadPage.Mark, UploadPage.Mark))
    requires s.progressMessage == s.message
    ensures ProgressText(ServerAnswer(Ok(s)).value) == (if s.message != "" then s.message else UploadPage.DefaultProgressText)
    ensures TimeButtonShown(ServerAnswer(Ok(s)).value) <==> s.progress > 0
    ensures TimeWindowScheduled(ServerAnswer(Ok(s)).value) <==> s.progress > 10
    ensures UpdateSteps(ResetSteps, ServerAnswer(Ok(s)).value.currentStep) ==
              (if s.currentStep >= 2 then (UploadPage.Done, UploadPage.Active)
               else if s.currentStep == 1 then (UploadPage.Done, UploadPage.Idle)
               else ResetSteps)
  {
  }

  /** The progress route's snapshots repeat the record's message as the
      progress message, so the view above applies to every answer. */
  lemma {:induction false} SnapshotsRepeatMessage(store: DubbingServer.DubbingStore, id: string, now: int)
    ensures store.GetProgress(id, now).Ok? ==>
              store.GetProgress(id, now).value.progressMessage == store.GetProgress(id, now).value.message
  {
  }

  // ---------------------------------------------------------------------
  // startProgressPolling

  const PollErrorMessage := "Error obteniendo el progreso del doblaje"

  /** The step after one tick of the interval: `Err` is a failed fetch or a
      non-2xx answer. */
  function AfterPoll(answer: Result<DubData>): (a: UploadPage.PollAction)
    ensures a.PollAgain? <==> answer.Ok? && answer.value.status != "completed" && answer.value.status != "error"
    ensures answer.Err? ==> a == UploadPage.ShowFailure(PollErrorMessage)
    ensures answer.Ok? && answer.value.status == "completed" ==> a == UploadPage.ShowResult(answer.value.resultUrl)
    ensures answer.Ok? && answer.value.status == "error" ==> a == UploadPage.ShowFailure(answer.value.error)
  {
    match answer
    case Err(_) => UploadPage.ShowFailure(PollErrorMessage)
    case Ok(d) =>
      if d.status == "completed" then UploadPage.ShowResult(d.resultUrl)
      else if d.status == "error" then UploadPage.ShowFailure(d.error)
      else UploadPage.PollAgain
  }

  /** What each tick leads to. */
  function Actions(answers: seq<Result<DubData>>): (actions: seq<UploadPage.PollAction>)
    ensures |actions| == |answers|
    ensures forall j :: 0 <= j < |answers| ==> actions[j] == AfterPoll(answers[j])
  {
    UploadPage.Reactions(answers, AfterPoll)
  }

  /** Against the dubbing server the interval is cleared exactly when the
      record has finished or failed, or the id is unknown: unlike the
      translating page, an unknown id stops the page at the first tick with
      the generic message. */
  lemma {:induction false} DubbingServerPolling(r: Result<DubbingServer.DubSnapshot>)
    ensures AfterPoll(ServerAnswer(r)).PollAgain? <==> r.Ok? && r.value.status == JobServer.Processing
    ensures r.Err? ==> AfterPoll(ServerAnswer(r)) == UploadPage.ShowFailure(PollErrorMessage)
    ensures r.Ok? && r.value.status == JobServer.Completed ==>
              AfterPoll(ServerAnswer(r)) == UploadPage.ShowResult(UploadPage.OrEmpty(r.value.resultUrl))
  {
    if r.Ok? {
      match r.value.status
      case Processing => assert ServerAnswer(r).value.status == "processing";
      case Completed => assert ServerAnswer(r).value.status == "completed";
      case Error => assert ServerAnswer(r).value.status == "error";
    }
  }

  /** An unknown id settles the page at the first tick. */
  lemma {:induction false} UnknownIdStops(answers: seq<Result<DubData>>)
    requires |answers| > 0 && answers[0] == ServerAnswer(Err(JobServer.NotFoundMessage))
    ensures UploadPage.FirstStop(Actions(answers), Some(UploadPage.ShowFailure(PollErrorMessage)), 1)
  {
    DubbingServerPolling(Err(JobServer.NotFoundMessage));
  }

  // ---------------------------------------------------------------------
  // displayCredits

  /** The credits route's answer: the characters used, when it says, and
      the limit. */
  datatype Credits = Credits(characterCount: Option<int>, characterLimit: int)

  /** The panel's three numbers (used, limit, available), or `None` when the
      panel is hidden. */
  function CreditsPanel(credits: Option<Credits>): (panel: Option<(int, int, int)>)
    ensures panel.Some? <==> credits.Some? && credits.value.characterCount.Some?
    ensures panel.Some? ==>
              && panel.value.0 == credits.value.characterCount.value
              && panel.value.1 == credits.value.characterLimit
              && panel.value.0 + panel.value.2 == panel.value.1
  {
    match credits
    case None => None
    case Some(c) =>
      match c.characterCount
      case None => None
      case Some(used) => Some((used, c.characterLimit, c.characterLimit - used))
  }

  // ---------------------------------------------------------------------
  // formatDuration

  /** `formatDuration(seconds)` for a whole number of seconds: hours,
      minutes of the hour and seconds of the minute. */
  function FormatDuration(seconds: nat): string
  {
    var hours := seconds / 3600;
    var minutes := (seconds % 3600) / 60;
    var secs := seconds % 60;
    if hours > 0 then
      NatToString(hours) + "h " + (NatToString(minutes) + "m " + (NatToString(secs) + "s"))
    else if minutes > 0 then
      NatToString(minutes) + "m " + (NatToString(secs) + "s")
    else
      NatToString(secs) + "s"
  }

  /** The three parts are in range and add back up. */
  lemma {:induction false} DurationParts(seconds: nat)
    ensures (seconds % 3600) / 60 < 60 && seconds % 60 < 60
    ensures (seconds / 3600) * 3600 + ((seconds % 3600) / 60) * 60 + seconds % 60 == seconds
    ensures seconds / 3600 == seconds / 60 / 60 && (seconds % 3600) / 60 == (seconds / 60) % 60
  {
    var q := seconds / 3600;
    var r := seconds % 3600;
    assert seconds == q * 3600 + r;
    assert r == (r / 60) * 60 + r % 60;
    assert seconds % 60 == r % 60 by {
      assert seconds == (q * 60 + r / 60) * 60 + r % 60;
    }
    assert seconds / 60 == q * 60 + r / 60 by {
      assert seconds == (q * 60 + r / 60) * 60 + r % 60;
    }
  }

  /** The page prints a duration as the dubbing server prints its estimates,
      so it reads back to the same number of seconds. */
  lemma {:induction false} FormatDurationReadsBack(seconds: nat)
    ensures FormatDuration(seconds) == DubbingServer.FormatSeconds(seconds)
    ensures DubbingServer.ReadTime(FormatDuration(seconds)) == Some(seconds)
  {
    DurationParts(seconds);
    var minutes := seconds / 60;
    var hours := minutes / 60;
    if hours > 0 {
      assert FormatDuration(seconds)
             == NatToString(hours) + "h " + (NatToString(minutes % 60) + "m " + (NatToString(seconds % 60) + "s"));
    } else if minutes > 0 {
      assert FormatDuration(seconds) == NatToString(minutes) + "m " + (NatToString(seconds % 60) + "s");
    } else {
      assert FormatDuration(seconds) == NatToString(seconds) + "s";
    }
    DubbingServer.FormatSecondsReadsBack(seconds);
  }

  // ---------------------------------------------------------------------
  // The page's state

  /** The section on display: `hideAllSections` leaves at most one. */
  datatype Section = NoSection | ProgressSection | ResultSection(url: string) | ErrorSection(message: string)

  /** How the upload request ended: the process id it returned, a non-2xx
      answer with its `error` field (empty when it had none), or a thrown
      error with its message. */
  datatype PostAnswer = Posted(processId: string) | Refused(error: string) | Thrown(message: string)

  const NoFileChosenMessage := "Por favor selecciona un archivo de video."
  const DefaultRefusal := "Error al procesar el video"

  /** The message a failed upload request shows. */
  function PostFailure(answer: PostAnswer): (msg: string)
    requires !answer.Posted?
    ensures answer.Refused? && answer.error != "" ==> msg == answer.error
    ensures answer.Refused? && answer.error == "" ==> msg == DefaultRefusal
    ensures answer.Thrown? ==> msg == answer.message
  {
    match answer
    case Refused(error) => if error != "" then error else DefaultRefusal
    case Thrown(message) => message
  }

  /** The page: the chosen file, the process it follows, whether the process
      button is disabled, whether the interval runs and the section shown. */
  class Page {
    var selectedFile: Option<UploadPage.VideoFile>
    var processId: string
    var processDisabled: bool
    var polling: bool
    var shown: Section

    /** A chosen file is a video, and the button is enabled only with a
        file chosen. */
    ghost predicate Valid()
      reads this
    {
      && (selectedFile.Some? ==> FileProblem(selectedFile.value).None?)
      && (!processDisabled ==> selectedFile.Some?)
    }

    /** The page as loaded: no file, the button disabled. */
    constructor()
      ensures Valid()
      ensures selectedFile == None && processId == "" && processDisabled && !polling && shown == NoSection
    {
      selectedFile := None;
      processId := "";
      processDisabled := true;
      polling := false;
      shown := NoSection;
    }

    /** `showError`: only the error section shows, and the interval is
        cleared. */
    method ShowError(message: string)
      modifies this
      ensures shown == ErrorSection(message) && !polling
      ensures selectedFile == old(selectedFile) && processId == old(processId)
      ensures processDisabled == old(processDisabled)
    {
      shown := ErrorSection(message);
      polling := false;
    }

    /** `handleFile`: a file that is no video only shows why; a video
        becomes the chosen file and enables the button. */
    method HandleFile(f: UploadPage.VideoFile)
      requires Valid()
      modifies this
      ensures Valid()
      ensures FileProblem(f).Some? ==>
                && shown == ErrorSection(UploadPage.NotVideoMessage) && !polling
                && selectedFile == old(selectedFile) && processDisabled == old(processDisabled)
      ensures FileProblem(f).None? ==>
                selectedFile == Some(f) && !processDisabled && shown == old(shown) && polling == old(polling)
      ensures processId == old(processId)
    {
      var problem := FileProblem(f);
      if problem.Some? {
        ShowError(problem.value);
        return;
      }
      selectedFile := Some(f);
      processDisabled := false;
    }

    /** `removeFile`: no file and the button disabled. */
    method RemoveFile()
      requires Valid()
      modifies this
      ensures Valid()
      ensures selectedFile == None && processDisabled
      ensures processId == old(processId) && polling == old(polling) && shown == old(shown)
    {
      selectedFile := None;
      processDisabled := true;
    }

    /** `retryProcess`: the sections are hidden, the file dropped and the
        button disabled; a running interval is left alone. */
    method RetryProcess()
      requires Valid()
      modifies this
      ensures Valid()
      ensures shown == NoSection && selectedFile == None && processDisabled
      ensures processId == old(processId) && polling == old(polling)
    {
      shown := NoSection;
      processDisabled := true;
      selectedFile := None;
    }

    /** `processVideo` and the interval it starts: without a file it only
        shows an error; otherwise the progress section shows and either the
        upload fails with its message or the interval polls the returned id
        until a tick clears it. */
    method ProcessVideo(answer: PostAnswer, polls: seq<Result<DubData>>)
      returns (action: Option<UploadPage.PollAction>, used: nat)
      requires Valid()
      modifies this
      ensures Valid()
      ensures selectedFile == old(selectedFile) && processDisabled == old(processDisabled)
      ensures old(selectedFile).None? ==>
                && shown == ErrorSection(NoFileChosenMessage) && !polling && action.None? && used == 0
                && processId == old(processId)
      ensures old(selectedFile).Some? && !answer.Posted? ==>
                && shown == ErrorSection(PostFailure(answer)) && !polling && action.None? && used == 0
                && processId == old(processId)
      ensures old(selectedFile).Some? && answer.Posted? ==>
                && processId == answer.processId
                && UploadPage.FirstStop(Actions(polls), action, used)
                && (action.None? ==> polling && shown == ProgressSection)
                && (action.Some? && action.value.ShowResult? ==> !polling && shown == ResultSection(action.value.url))
                && (action.Some? && action.value.ShowFailure? ==> !polling && shown == ErrorSection(action.value.message))
    {
      if selectedFile.None? {
        ShowError(NoFileChosenMessage);
        return None, 0;
      }
      shown := ProgressSection;
      if !answer.Posted? {
        ShowError(PostFailure(answer));
        return None, 0;
      }
      processId := answer.processId;
      polling := true;
      action, used := UploadPage.PollUntil(polls, AfterPoll);
      if action.Some? {
        polling := false;
        if action.value.ShowResult? {
          shown := ResultSection(action.value.url);
        } else {
          ShowError(action.value.message);
        }
      }
    }
  }
}
