/** The browser page of the translating server (public/script.js): which
    files it accepts, how it reads the progress route's answers, the step
    indicators, when it stops polling, the language names and the voice menu.
    The DOM is reduced to the fields of `Page`; timers and fetches become the
    sequences of answers they would deliver. */
module UploadPage {

  import opened Outcomes
  import opened Text
  import opened Decimal
  import opened Lists
  import opened Sorting
  import JobServer
  import DubbingServer

  // ---------------------------------------------------------------------
  // handleFileSelection

  /** A file picked in the browser: its name, its MIME type and its size in
      bytes. */
  datatype VideoFile = VideoFile(name: string, mimeType: string, size: nat)

  const VideoTypePrefix := "video/"
  const MaxFileBytes := 5 * 1024 * 1024 * 1024
  const NotVideoMessage := "Por favor selecciona un archivo de video válido."
  const TooLargeMessage := "El archivo es demasiado grande. El tamaño máximo es 5GB."

  /** Why the page refuses a file, or `None` when it takes it: the MIME type
      is checked first, then the 5 GiB limit. */
  function FileProblem(f: VideoFile): (problem: Option<string>)
    ensures problem.None? <==> StartsWith(f.mimeType, VideoTypePrefix) && f.size <= MaxFileBytes
    ensures !StartsWith(f.mimeType, VideoTypePrefix) ==> problem == Some(NotVideoMessage)
    ensures StartsWith(f.mimeType, VideoTypePrefix) && f.size > MaxFileBytes ==> problem == Some(TooLargeMessage)
  {
    if !StartsWith(f.mimeType, VideoTypePrefix) then Some(NotVideoMessage)
    else if f.size > MaxFileBytes then Some(TooLargeMessage)
    else None
  }

  // ---------------------------------------------------------------------
  // updateStepIndicators

  /** The class a step indicator carries. */
  datatype Mark = Done | Active | Idle

  /** The class of the `k`-th indicator (counted from 1). */
  function StepMark(k: int, currentStep: int): Mark
  {
    if k < currentStep then Done else if k == currentStep then Active else Idle
  }

  /** The classes of `count` indicators for the current step. */
  function StepMarks(count: nat, currentStep: int): (marks: seq<Mark>)
    ensures |marks| == count
  {
    seq(count, i => StepMark(i + 1, currentStep))
  }

  function Repeat(m: Mark, n: nat): (r: seq<Mark>)
    ensures |r| == n && forall i :: 0 <= i < n ==> r[i] == m
  {
    seq(n, _ => m)
  }

  /** The steps before the current one are done, the current one is active
      and the rest idle; a step number out of range marks all steps done
      (past the last) or idle (before the first). At most one step is
      active. */
  lemma {:induction false} StepMarksShape(count: nat, currentStep: int)
    ensures 1 <= currentStep <= count ==>
              StepMarks(count, currentStep)
              == Repeat(Done, currentStep - 1) + [Active] + Repeat(Idle, count - currentStep)
    ensures currentStep < 1 ==> StepMarks(count, currentStep) == Repeat(Idle, count)
    ensures currentStep > count ==> StepMarks(count, currentStep) == Repeat(Done, count)
    ensures forall i, j ::
              (0 <= i < count && 0 <= j < count && StepMarks(count, currentStep)[i] == Active
               && StepMarks(count, currentStep)[j] == Active) ==> i == j
  {
    var marks := StepMarks(count, currentStep);
    if 1 <= currentStep <= count {
      var shape := Repeat(Done, currentStep - 1) + [Active] + Repeat(Idle, count - currentStep);
      assert |shape| == count;
      forall i | 0 <= i < count ensures marks[i] == shape[i] {
        if i < currentStep - 1 {
          assert shape[i] == Done;
        } else if i == currentStep - 1 {
          assert shape[i] == Active;
        } else {
          assert shape[i] == Repeat(Idle, count - currentStep)[i - currentStep];
        }
      }
    }
  }

  /** `updateStepIndicators(currentStep)`: every indicator is given the class
      of its position. */
  method UpdateStepIndicators(steps: array<Mark>, currentStep: int)
    modifies steps
    ensures steps[..] == StepMarks(steps.Length, currentStep)
  {
    for i := 0 to steps.Length
      invariant forall j :: 0 <= j < i ==> steps[j] == StepMark(j + 1, currentStep)
    {
      steps[i] := StepMark(i + 1, currentStep);
    }
  }

  // ---------------------------------------------------------------------
  // The progress answer as the page reads it

  /** The fields of a progress answer the page looks at; the empty string,
      `0` and `false` stand for a field the answer lacks. */
  datatype PollData = PollData(
    status: string, progress: int, currentStep: int, error: string, resultUrl: string,
    progressMessage: string, timeEstimates: bool, isLongVideo: bool, totalChunks: int,
    currentChunk: int)

  function OrEmpty(o: Option<string>): string
  {
    if o.Some? then o.value else ""
  }

  /** What the translating server's progress route sends: the record's
      fields for a known id, only an `error` field with its 404. */
  function AnswerData(r: Result<JobServer.Snapshot>): (d: PollData)
    ensures r.Err? ==> d.status == "" && d.error == r.msg
    ensures r.Ok? ==> d.status == JobServer.StatusName(r.value.status)
  {
    match r
    case Err(msg) => PollData("", 0, 0, msg, "", "", false, false, 0, 0)
    case Ok(s) =>
      PollData(JobServer.StatusName(s.status), s.progress, s.currentStep, OrEmpty(s.error),
               OrEmpty(s.resultUrl), "", false, false, 0, 0)
  }

  const DefaultProgressText := "Procesando..."

  /** `updateProgress`: the text under the bar. */
  function ProgressText(d: PollData): (text: string)
    ensures d.progressMessage != "" ==> text == d.progressMessage
    ensures d.progressMessage == "" ==> text == DefaultProgressText
  {
    if d.progressMessage != "" then d.progressMessage else DefaultProgressText
  }

  /** `updateChunkInfo`: the chunk row is shown for a long video of more than
      one chunk. */
  predicate ChunkInfoShown(d: PollData)
  {
    d.isLongVideo && d.totalChunks > 1
  }

  /** `updateTimeEstimates`: the button shows when estimates came, and the
      window opens by itself during the first step once progress is made. */
  predicate TimeButtonShown(d: PollData)
  {
    d.timeEstimates
  }

  predicate TimeWindowOpens(d: PollData)
  {
    d.timeEstimates && d.currentStep == 1 && d.progress > 0
  }

  /** Against the translating server the page always reads "Procesando...",
      and neither the chunk row nor the estimates button ever shows: its
      progress route sends none of those fields. */
  lemma {:induction false} TranslatingServerView(r: Result<JobServer.Snapshot>)
    ensures ProgressText(AnswerData(r)) == DefaultProgressText
    ensures !ChunkInfoShown(AnswerData(r)) && !TimeButtonShown(AnswerData(r)) && !TimeWindowOpens(AnswerData(r))
  {
  }

  // ---------------------------------------------------------------------
  // pollProgress

  /** What one poll leads to: the result is shown, an error is shown, or
      another poll is scheduled. */
  datatype PollAction = ShowResult(url: string) | ShowFailure(message: string) | PollAgain

  const FetchErrorPrefix := "Error al obtener el progreso: "
  const DefaultFailure := "Error durante el procesamiento"

  /** The step after one answer: `Err` is a fetch or parse failure carrying
      its message. */
  function AfterPoll(answer: Result<PollData>): (a: PollAction)
    ensures a.PollAgain? <==> answer.Ok? && answer.value.status != "completed" && answer.value.status != "error"
    ensures answer.Err? ==> a == ShowFailure(FetchErrorPrefix + answer.msg)
    ensures answer.Ok? && answer.value.status == "completed" ==> a == ShowResult(answer.value.resultUrl)
    ensures answer.Ok? && answer.value.status == "error" ==>
              a == ShowFailure(if answer.value.error != "" then answer.value.error else DefaultFailure)
  {
    match answer
    case Err(msg) => ShowFailure(FetchErrorPrefix + msg)
    case Ok(d) =>
      if d.status == "completed" then ShowResult(d.resultUrl)
      else if d.status == "error" then ShowFailure(if d.error != "" then d.error else DefaultFailure)
      else PollAgain
  }

  /** Against the translating server: polling goes on exactly while the job
      is processing or the id is unknown, so a page holding an id the server
      does not know polls forever; a finished job shows its download address
      and a failed one its error. */
  lemma {:induction false} TranslatingServerPolling(r: Result<JobServer.Snapshot>)
    ensures AfterPoll(Ok(AnswerData(r))).PollAgain? <==> r.Err? || r.value.status == JobServer.Processing
    ensures r.Ok? && r.value.status == JobServer.Completed ==>
              AfterPoll(Ok(AnswerData(r))) == ShowResult(OrEmpty(r.value.resultUrl))
    ensures r.Ok? && r.value.status == JobServer.Error && r.value.error.Some? && r.value.error.value != "" ==>
              AfterPoll(Ok(AnswerData(r))) == ShowFailure(r.value.error.value)
  {
    if r.Err? {
      assert AnswerData(r).status == "";
    } else {
      match r.value.status
      case Processing => assert AnswerData(r).status == "processing";
      case Completed => assert AnswerData(r).status == "completed";
      case Error => assert AnswerData(r).status == "error";
    }
  }

  /** `used` polls were made and the last of them settled the page with
      `action`, or none of them did. */
  ghost predicate FirstStop(actions: seq<PollAction>, action: Option<PollAction>, used: nat)
  {
    && used <= |actions|
    && (forall j :: 0 <= j < used - 1 ==> actions[j].PollAgain?)
    && (action.None? ==> used == |actions| && forall j :: 0 <= j < |actions| ==> actions[j].PollAgain?)
    && (action.Some? ==> 0 < used && action.value == actions[used - 1] && !action.value.PollAgain?)
  }

  /** The polls' outcomes determine where polling stops. */
  lemma {:induction false} FirstStopUnique(actions: seq<PollAction>, a1: Option<PollAction>, u1: nat,
                                           a2: Option<PollAction>, u2: nat)
    requires FirstStop(actions, a1, u1) && FirstStop(actions, a2, u2)
    ensures a1 == a2 && u1 == u2
  {
  }

  /** The reaction to each answer, in order. */
  function Reactions<A>(answers: seq<A>, react: A -> PollAction): (actions: seq<PollAction>)
    ensures |actions| == |answers|
    ensures forall j :: 0 <= j < |answers| ==> actions[j] == react(answers[j])
  {
    seq(|answers|, j requires 0 <= j < |answers| => react(answers[j]))
  }

  /** What each answer leads to. */
  function Actions(answers: seq<Result<PollData>>): (actions: seq<PollAction>)
    ensures |actions| == |answers|
    ensures forall j :: 0 <= j < |answers| ==> actions[j] == AfterPoll(answers[j])
  {
    Reactions(answers, AfterPoll)
  }

  /** An id the translating server does not know never settles the page. */
  lemma {:induction false} UnknownIdNeverSettles(answers: seq<Result<PollData>>)
    requires forall j :: 0 <= j < |answers| ==> answers[j] == Ok(AnswerData(Err(JobServer.NotFoundMessage)))
    ensures FirstStop(Actions(answers), None, |answers|)
  {
    forall j | 0 <= j < |answers| ensures AfterPoll(answers[j]).PollAgain? {
      TranslatingServerPolling(Err(JobServer.NotFoundMessage));
    }
  }

  /** Polling, one answer at a time, until the reaction to one of them
      settles the page: the chain of `pollProgress` calls here, and the
      ticks of the interval on the dubbing page. */
  method PollUntil<A>(answers: seq<A>, react: A -> PollAction) returns (action: Option<PollAction>, used: nat)
    ensures FirstStop(Reactions(answers, react), action, used)
  {
    used := 0;
    action := None;
    while used < |answers|
      invariant used <= |answers|
      invariant forall j :: 0 <= j < used ==> react(answers[j]).PollAgain?
    {
      var next := react(answers[used]);
      used := used + 1;
      if !next.PollAgain? {
        action := Some(next);
        return;
      }
    }
  }

  // ---------------------------------------------------------------------
  // getLanguageName

  const SpanishNames: map<string, string> := map[
    "en" := "Inglés", "es" := "Español", "fr" := "Francés", "de" := "Alemán",
    "it" := "Italiano", "pt" := "Portugués", "ja" := "Japonés", "ko" := "Coreano",
    "zh" := "Chino", "ru" := "Ruso", "ar" := "Árabe", "hi" := "Hindi"
  ]

  /** The Spanish name of a language code, or the code itself. */
  function LanguageName(code: string): (name: string)
    ensures code in SpanishNames ==> name == SpanishNames[code]
    ensures code !in SpanishNames ==> name == code
  {
    if code in SpanishNames then SpanishNames[code] else code
  }

  /** The page names exactly the languages the dubbing server accepts. */
  lemma {:induction false} LanguageNamesAgree()
    ensures SpanishNames.Keys == DubbingServer.LanguageNames.Keys
  {
    assert SpanishNames.Keys == {"en", "es", "fr", "de", "it", "pt", "ja", "ko", "zh", "ru", "ar", "hi"};
    assert DubbingServer.LanguageNames.Keys == {"en", "es", "fr", "de", "it", "pt", "ja", "ko", "zh", "ru", "ar", "hi"};
  }

  /** The name differs from the code exactly for the named languages. */
  lemma {:induction false} LanguageNameKnown(code: string)
    ensures LanguageName(code) != code <==> code in SpanishNames
  {
    if code in SpanishNames {
      assert forall c :: c in SpanishNames ==> |c| == 2 && |SpanishNames[c]| > 2;
    }
  }

  // ---------------------------------------------------------------------
  // populateVoiceSelector

  /** A voice as the voices route lists it; the empty string stands for a
      field the voice lacks. */
  datatype Voice = Voice(voiceId: string, name: string, category: string, language: string, labelLanguage: string)

  /** The comparator of the voice list: by category, then by name. */
  predicate VoiceLe(a: Voice, b: Voice)
  {
    if a.category != b.category then LexLe(a.category, b.category) else LexLe(a.name, b.name)
  }

  lemma {:induction false} VoiceTransitive(a: Voice, b: Voice, c: Voice)
    requires VoiceLe(a, b) && VoiceLe(b, c)
    ensures VoiceLe(a, c)
  {
    if a.category == b.category && b.category == c.category {
      LexTransitive(a.name, b.name, c.name);
    } else if a.category == c.category {
      LexAntisymmetric(a.category, b.category);
      assert false;
    } else {
      LexTotal(b.category, b.category);
      LexTransitive(a.category, b.category, c.category);
    }
  }

  /** The comparator is consistent, so the sort orders the voices by it. */
  lemma {:induction false} VoiceOrder()
    ensures TotalPreorder(VoiceLe)
  {
    forall a, b ensures VoiceLe(a, b) || VoiceLe(b, a) {
      LexTotal(a.category, b.category);
      LexTotal(a.name, b.name);
    }
    forall a, b, c | VoiceLe(a, b) && VoiceLe(b, c) ensures VoiceLe(a, c) {
      VoiceTransitive(a, b, c);
    }
  }

  /** The group of a listed voice: its category, "premade" without one. */
  function CategoryKey(v: Voice): string
  {
    if v.category != "" then v.category else "premade"
  }

  /** The group of a fallback voice: its language, else its label's, else
      English. */
  function LanguageKey(v: Voice): string
  {
    if v.language != "" then v.language
    else if v.labelLanguage != "" then v.labelLanguage
    else "en"
  }

  /** The list is grouped by category: its first voice has an id. The
      page's own default list has ids too; only a list whose first voice has
      none is grouped by language. */
  predicate ListedVoices(voices: seq<Voice>)
  {
    |voices| > 0 && voices[0].voiceId != ""
  }

  function HasKey(key: Voice -> string, k: string): Voice -> bool
  {
    v => key(v) == k
  }

  /** `groups` holds, under each key, the voices of `xs` with that key in
      their order; no group is empty, every voice has its group and `keys`
      lists the groups once each. */
  ghost predicate Grouped(xs: seq<Voice>, key: Voice -> string, groups: map<string, seq<Voice>>, keys: seq<string>)
  {
    && Distinct(keys)
    && (forall k :: k in keys <==> k in groups)
    && (forall k :: k in groups ==> groups[k] == Filter(HasKey(key, k), xs) && groups[k] != [])
    && (forall i :: 0 <= i < |xs| ==> key(xs[i]) in groups)
  }

  /** A voice whose key has a group joins the end of it. */
  lemma {:induction false} GroupedJoin(xs: seq<Voice>, key: Voice -> string, groups: map<string, seq<Voice>>,
                                       keys: seq<string>, v: Voice)
    requires Grouped(xs, key, groups, keys) && key(v) in groups
    ensures Grouped(xs + [v], key, groups[key(v) := groups[key(v)] + [v]], keys)
  {
    var groups' := groups[key(v) := groups[key(v)] + [v]];
    forall k | k in groups' ensures groups'[k] == Filter(HasKey(key, k), xs + [v]) && groups'[k] != [] {
      FilterSnoc(HasKey(key, k), xs, v);
    }
    forall i | 0 <= i < |xs + [v]| ensures key((xs + [v])[i]) in groups' {
      if i < |xs| {
        assert (xs + [v])[i] == xs[i];
      }
    }
  }

  /** A voice with a new key opens a group of its own. */
  lemma {:induction false} GroupedOpen(xs: seq<Voice>, key: Voice -> string, groups: map<string, seq<Voice>>,
                                       keys: seq<string>, v: Voice)
    requires Grouped(xs, key, groups, keys) && key(v) !in groups
    ensures Grouped(xs + [v], key, groups[key(v) := [v]], keys + [key(v)])
  {
    var k := key(v);
    var groups' := groups[k := [v]];
    forall x | x in xs ensures !HasKey(key, k)(x) {
      var j :| 0 <= j < |xs| && xs[j] == x;
    }
    FilterEmpty(HasKey(key, k), xs);
    forall k' | k' in groups' ensures groups'[k'] == Filter(HasKey(key, k'), xs + [v]) && groups'[k'] != [] {
      FilterSnoc(HasKey(key, k'), xs, v);
    }
    forall i | 0 <= i < |xs + [v]| ensures key((xs + [v])[i]) in groups' {
      if i < |xs| {
        assert (xs + [v])[i] == xs[i];
      }
    }
    assert Distinct(keys + [k]) by {
      forall i, j | 0 <= i < j < |keys + [k]| ensures (keys + [k])[i] != (keys + [k])[j] {
        assert (keys + [k])[i] == keys[i];
      }
    }
  }

  /** The `forEach` that fills `voicesByCategory` or `voicesByLanguage`:
      each voice is appended to its key's list, a new key is added in the
      order first met. */
  method GroupBy(xs: seq<Voice>, key: Voice -> string) returns (groups: map<string, seq<Voice>>, keys: seq<string>)
    ensures Grouped(xs, key, groups, keys)
  {
    groups := map[];
    keys := [];
    for i := 0 to |xs|
      invariant Grouped(xs[..i], key, groups, keys)
    {
      var v := xs[i];
      var k := key(v);
      assert xs[..i + 1] == xs[..i] + [v];
      if k !in groups {
        GroupedOpen(xs[..i], key, groups, keys, v);
        groups := groups[k := [v]];
        keys := keys + [k];
      } else {
        GroupedJoin(xs[..i], key, groups, keys, v);
        groups := groups[k := groups[k] + [v]];
      }
    }
    assert xs[..|xs|] == xs;
  }

  /** One `<optgroup>`: its key and its voices in order. */
  datatype VoiceGroup = VoiceGroup(key: string, voices: seq<Voice>)

  /** The menu groups `xs` by `key`: the groups come in increasing key order
      with no key twice, each holds the voices of `xs` with its key in their
      order and is not empty, and every voice is in the group of its key. */
  ghost predicate MenuOf(xs: seq<Voice>, key: Voice -> string, menu: seq<VoiceGroup>)
  {
    && (forall i, j :: 0 <= i < j < |menu| ==> LexLe(menu[i].key, menu[j].key) && menu[i].key != menu[j].key)
    && (forall i :: 0 <= i < |menu| ==> menu[i].voices == Filter(HasKey(key, menu[i].key), xs) && menu[i].voices != [])
    && (forall v :: v in xs ==> exists i :: 0 <= i < |menu| && menu[i].key == key(v))
  }

  /** The `forEach` over the sorted keys: one menu group per key. */
  method AppendGroups(groups: map<string, seq<Voice>>, ks: seq<string>) returns (menu: seq<VoiceGroup>)
    requires forall k :: k in ks ==> k in groups
    ensures |menu| == |ks|
    ensures forall j :: 0 <= j < |ks| ==> menu[j] == VoiceGroup(ks[j], groups[ks[j]])
  {
    menu := [];
    for i := 0 to |ks|
      invariant |menu| == i
      invariant forall j :: 0 <= j < i ==> menu[j] == VoiceGroup(ks[j], groups[ks[j]])
    {
      menu := menu + [VoiceGroup(ks[i], groups[ks[i]])];
    }
  }

  /** The keys sorted by `sort()` are those of the groups, once each, in
      increasing order. */
  lemma {:induction false} SortedKeys(groups: map<string, seq<Voice>>, keys: seq<string>)
    requires Distinct(keys) && forall k :: k in keys <==> k in groups
    ensures Distinct(SortBy(keys, LexLe)) && Sorted(SortBy(keys, LexLe), LexLe)
    ensures forall k :: k in SortBy(keys, LexLe) <==> k in groups
  {
    var ks := SortBy(keys, LexLe);
    LexTotalPreorder();
    DistinctCounts(keys);
    CountsDistinct(ks);
    forall k ensures k in ks <==> k in keys {
      assert k in ks <==> k in multiset(ks);
      assert k in keys <==> k in multiset(keys);
    }
  }

  /** `Object.keys(groups).sort().forEach(...)`: one menu group per key,
      in the order of `sort()`. */
  method EmitGroups(ghost xs: seq<Voice>, ghost key: Voice -> string, groups: map<string, seq<Voice>>,
                    keys: seq<string>) returns (menu: seq<VoiceGroup>)
    requires Grouped(xs, key, groups, keys)
    ensures MenuOf(xs, key, menu)
  {
    var ks := SortBy(keys, LexLe);
    SortedKeys(groups, keys);
    menu := AppendGroups(groups, ks);
    forall v | v in xs ensures exists i :: 0 <= i < |menu| && menu[i].key == key(v) {
      var n :| 0 <= n < |xs| && xs[n] == v;
      var i :| 0 <= i < |ks| && ks[i] == key(v);
      assert menu[i].key == key(v);
    }
  }

  /** `populateVoiceSelector`: listed voices are sorted by category and
      name and grouped by category, fallback voices grouped by language in
      their own order; the groups come in the order of `sort()`. */
  method PopulateVoiceSelector(voices: seq<Voice>) returns (menu: seq<VoiceGroup>)
    ensures ListedVoices(voices) ==> MenuOf(SortBy(voices, VoiceLe), CategoryKey, menu)
    ensures ListedVoices(voices) ==> forall i :: 0 <= i < |menu| ==> Sorted(menu[i].voices, VoiceLe)
    ensures !ListedVoices(voices) ==> MenuOf(voices, LanguageKey, menu)
  {
    var ordered := if ListedVoices(voices) then SortBy(voices, VoiceLe) else voices;
    var key := if ListedVoices(voices) then CategoryKey else LanguageKey;
    var groups, keys := GroupBy(ordered, key);
    menu := EmitGroups(ordered, key, groups, keys);
    if ListedVoices(voices) {
      VoiceOrder();
      forall i | 0 <= i < |menu| ensures Sorted(menu[i].voices, VoiceLe) {
        FilterSorted(HasKey(key, menu[i].key), ordered, VoiceLe);
      }
    }
  }

  // ---------------------------------------------------------------------
  // The page's state

  /** How the upload request ended: the process id it returned (the empty
      string when the answer had none), a status other than 2xx, or a thrown
      error with its message. */
  datatype PostAnswer = Posted(processId: string) | HttpFailure(status: nat) | Thrown(message: string)

  const NoFileChosenMessage := "Por favor selecciona un archivo de video primero."
  const ProcessErrorPrefix := "Error al procesar el video: "
  const HttpErrorPrefix := "HTTP error! status: "

  /** The message a failed upload request shows. */
  function PostFailure(answer: PostAnswer): (msg: string)
    requires !answer.Posted?
    ensures StartsWith(msg, ProcessErrorPrefix)
    ensures answer.HttpFailure? ==> msg == ProcessErrorPrefix + HttpErrorPrefix + NatToString(answer.status)
    ensures answer.Thrown? ==> msg == ProcessErrorPrefix + answer.message
  {
    match answer
    case HttpFailure(status) => ProcessErrorPrefix + (HttpErrorPrefix + NatToString(status))
    case Thrown(message) => ProcessErrorPrefix + message
  }

  /** The page: the chosen file, the process it follows, whether the process
      button is disabled and the progress section shown, and the error or
      result on display. */
  class Page {
    var selectedFile: Option<VideoFile>
    var processId: string
    var processDisabled: bool
    var progressShown: bool
    var errorMessage: Option<string>
    var resultUrl: Option<string>

    /** A chosen file is always one the page accepts. */
    ghost predicate Valid()
      reads this
    {
      selectedFile.Some? ==> FileProblem(selectedFile.value).None?
    }

    /** The page as loaded: no file, the button disabled. */
    constructor()
      ensures Valid()
      ensures selectedFile == None && processId == "" && processDisabled && !progressShown
      ensures errorMessage == None && resultUrl == None
    {
      selectedFile := None;
      processId := "";
      processDisabled := true;
      progressShown := false;
      errorMessage := None;
      resultUrl := None;
    }

    /** `handleFileSelection`: a refused file only shows why; an accepted
        one becomes the chosen file and enables the button. */
    method HandleFileSelection(f: VideoFile)
      requires Valid()
      modifies this
      ensures Valid()
      ensures FileProblem(f).Some? ==>
                && errorMessage == FileProblem(f) && selectedFile == old(selectedFile)
                && processDisabled == old(processDisabled)
      ensures FileProblem(f).None? ==> selectedFile == Some(f) && !processDisabled && errorMessage == None
      ensures processId == old(processId) && progressShown == old(progressShown) && resultUrl == old(resultUrl)
    {
      var problem := FileProblem(f);
      if problem.Some? {
        errorMessage := problem;
        return;
      }
      selectedFile := Some(f);
      processDisabled := false;
      errorMessage := None;
    }

    /** `removeFile`: no file, the button disabled, results and errors
        hidden. */
    method RemoveFile()
      requires Valid()
      modifies this
      ensures Valid()
      ensures selectedFile == None && processDisabled && resultUrl == None && errorMessage == None
      ensures processId == old(processId) && progressShown == old(progressShown)
    {
      selectedFile := None;
      processDisabled := true;
      resultUrl := None;
      errorMessage := None;
    }

    /** What settling does to the page: the result or the error is shown,
        the progress section hidden and the button enabled. */
    method ApplyPollAction(action: PollAction)
      requires Valid() && !action.PollAgain?
      modifies this
      ensures Valid()
      ensures action.ShowResult? ==> resultUrl == Some(action.url) && errorMessage == old(errorMessage)
      ensures action.ShowFailure? ==> errorMessage == Some(action.message) && resultUrl == old(resultUrl)
      ensures !progressShown && !processDisabled
      ensures selectedFile == old(selectedFile) && processId == old(processId)
    {
      if action.ShowResult? {
        resultUrl := Some(action.url);
      } else {
        errorMessage := Some(action.message);
      }
      progressShown := false;
      processDisabled := false;
    }

    /** `pollProgress` and the calls it schedules: nothing without a process
        id, else the answers are read up to the first that settles the
        page. */
    method PollProgress(answers: seq<Result<PollData>>) returns (action: Option<PollAction>, used: nat)
      requires Valid()
      modifies this
      ensures Valid()
      ensures old(processId) == "" ==> action.None? && used == 0
      ensures old(processId) != "" ==> FirstStop(Actions(answers), action, used)
      ensures action.None? ==> unchanged(this)
      ensures action.Some? && action.value.ShowResult? ==>
                resultUrl == Some(action.value.url) && errorMessage == old(errorMessage)
      ensures action.Some? && action.value.ShowFailure? ==>
                errorMessage == Some(action.value.message) && resultUrl == old(resultUrl)
      ensures action.Some? ==> !progressShown && !processDisabled
      ensures selectedFile == old(selectedFile) && processId == old(processId)
    {
      if processId == "" {
        return None, 0;
      }
      action, used := PollUntil(answers, AfterPoll);
      if action.Some? {
        ApplyPollAction(action.value);
      }
    }

    /** `processVideo`: without a file it only shows an error; otherwise the
        progress section replaces results and errors, the button is
        disabled, and the upload either starts polling for its process id
        or fails with its message and re-enables the button. */
    method ProcessVideo(answer: PostAnswer, polls: seq<Result<PollData>>) returns (action: Option<PollAction>, used: nat)
      requires Valid()
      modifies this
      ensures Valid()
      ensures selectedFile == old(selectedFile)
      ensures old(selectedFile).None? ==>
                && errorMessage == Some(NoFileChosenMessage) && action.None? && used == 0
                && processId == old(processId) && processDisabled == old(processDisabled)
                && progressShown == old(progressShown) && resultUrl == old(resultUrl)
      ensures old(selectedFile).Some? && !answer.Posted? ==>
                && errorMessage == Some(PostFailure(answer)) && action.None? && used == 0
                && processId == old(processId) && !processDisabled && !progressShown && resultUrl == None
      ensures old(selectedFile).Some? && answer.Posted? ==>
                && processId == answer.processId
                && (answer.processId == "" ==> action.None? && used == 0)
                && (answer.processId != "" ==> FirstStop(Actions(polls), action, used))
                && (action.None? ==> processDisabled && progressShown && errorMessage == None && resultUrl == None)
                && (action.Some? && action.value.ShowResult? ==>
                      resultUrl == Some(action.value.url) && errorMessage == None)
                && (action.Some? && action.value.ShowFailure? ==>
                      errorMessage == Some(action.value.message) && resultUrl == None)
                && (action.Some? ==> !progressShown && !processDisabled)
    {
      if selectedFile.None? {
        errorMessage := Some(NoFileChosenMessage);
        return None, 0;
      }
      progressShown := true;
      processDisabled := true;
      resultUrl := None;
      errorMessage := None;
      if !answer.Posted? {
        errorMessage := Some(PostFailure(answer));
        progressShown := false;
        processDisabled := false;
        return None, 0;
      }
      processId := answer.processId;
      action, used := PollProgress(polls);
    }

    /** `retryProcess`: the error is hidden and, with a file chosen, the
        upload starts again. */
    method RetryProcess(answer: PostAnswer, polls: seq<Result<PollData>>) returns (action: Option<PollAction>, used: nat)
      requires Valid()
      modifies this
      ensures Valid()
      ensures old(selectedFile).None? ==>
                && errorMessage == None && action.None? && used == 0 && selectedFile == None
                && processId == old(processId) && processDisabled == old(processDisabled)
                && progressShown == old(progressShown) && resultUrl == old(resultUrl)
      ensures old(selectedFile).Some? && answer.Posted? && answer.processId != "" ==>
                FirstStop(Actions(polls), action, used) && processId == answer.processId
      ensures old(selectedFile).Some? && !answer.Posted? ==>
                errorMessage == Some(PostFailure(answer)) && !processDisabled && !progressShown
    {
      errorMessage := None;
      if selectedFile.Some? {
        action, used := ProcessVideo(answer, polls);
      } else {
        action, used := None, 0;
      }
    }
  }
}
