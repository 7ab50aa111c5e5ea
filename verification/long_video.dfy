/** long-video-processor.js: a long video is cut into chunks of a fixed
    duration, each chunk goes through the dubbing pipeline in index order,
    and the dubbed chunks are concatenated back in index order. ffprobe,
    ffmpeg and the pipeline steps are not run: what they report is passed
    in. Durations are in seconds, as real numbers. */
module LongVideo {

  import opened Outcomes
  import opened Text
  import opened Decimal
  import opened Sorting
  import Utils

  // ---------------------------------------------------------------------
  // splitVideoIntoChunks: the plan

  /** `Math.ceil(x)`. */
  function Ceil(x: real): (n: int)
    ensures n as real - 1.0 < x <= n as real
  {
    if x.Floor as real == x then x.Floor else x.Floor + 1
  }

  function Min(a: real, b: real): real
  {
    if a <= b then a else b
  }

  datatype Chunk = Chunk(index: nat, path: string, startTime: real, endTime: real, duration: real)

  function ChunkPath(outputDir: string, i: nat): string
  {
    outputDir + "/chunks/chunk_" + NatToString(i) + ".mp4"
  }

  function ChunkCount(total: real, chunkDuration: real): int
    requires chunkDuration > 0.0
  {
    Ceil(total / chunkDuration)
  }

  function PlanChunk(outputDir: string, i: nat, total: real, chunkDuration: real): Chunk
  {
    var startTime := i as real * chunkDuration;
    var endTime := Min((i + 1) as real * chunkDuration, total);
    Chunk(i, ChunkPath(outputDir, i), startTime, endTime, endTime - startTime)
  }

  function Plan(outputDir: string, total: real, chunkDuration: real): (plan: seq<Chunk>)
    requires chunkDuration > 0.0
    ensures |plan| == if ChunkCount(total, chunkDuration) > 0 then ChunkCount(total, chunkDuration) else 0
  {
    var n := ChunkCount(total, chunkDuration);
    seq(if n > 0 then n else 0, i requires 0 <= i => PlanChunk(outputDir, i, total, chunkDuration))
  }

  lemma {:induction false} ChunkStartsBeforeEnd(i: nat, total: real, c: real)
    requires c > 0.0 && i < ChunkCount(total, c)
    ensures i as real * c < total
  {
    assert (i as real) < total / c;
    assert (i as real) * c < (total / c) * c;
  }

  lemma {:induction false} LastChunkReachesEnd(total: real, c: real)
    requires c > 0.0
    ensures ChunkCount(total, c) as real * c >= total
  {
    var n := ChunkCount(total, c);
    assert total / c <= n as real;
    assert (total / c) * c <= n as real * c;
  }

  /** The chunk plan has a chunk exactly when there is something to cut. */
  lemma {:induction false} PlanNonEmpty(outputDir: string, total: real, c: real)
    requires c > 0.0
    ensures total > 0.0 <==> |Plan(outputDir, total, c)| > 0
  {
    if total > 0.0 { assert total / c > 0.0; }
    else { assert total / c <= 0.0; }
  }

  /** A planned chunk lasts more than nothing and at most the chunk
      duration, and lasts exactly that when another chunk follows it. */
  lemma {:induction false} ChunkDuration(outputDir: string, total: real, c: real, i: nat)
    requires c > 0.0 && i < ChunkCount(total, c)
    ensures var ch := PlanChunk(outputDir, i, total, c);
            && 0.0 < ch.duration <= c
            && (i + 1 < ChunkCount(total, c) ==> ch.duration == c && ch.endTime == (i + 1) as real * c)
  {
    var s := i as real * c;
    var e := (i + 1) as real * c;
    assert e == s + c;
    ChunkStartsBeforeEnd(i, total, c);
    if i + 1 < ChunkCount(total, c) {
      ChunkStartsBeforeEnd(i + 1, total, c);
    }
  }

  /** Each chunk is numbered by its position and lasts more than nothing
      and at most the chunk duration. */
  lemma {:induction false} PlanChunkShape(outputDir: string, total: real, c: real, i: nat)
    requires c > 0.0 && i < |Plan(outputDir, total, c)|
    ensures var plan := Plan(outputDir, total, c);
            plan[i].index == i && 0.0 < plan[i].duration <= c
  {
    ChunkDuration(outputDir, total, c, i);
  }

  /** Every chunk but the last lasts the full chunk duration and ends where
      the next one starts. */
  lemma {:induction false} PlanContiguous(outputDir: string, total: real, c: real, i: nat)
    requires c > 0.0 && i + 1 < |Plan(outputDir, total, c)|
    ensures var plan := Plan(outputDir, total, c);
            plan[i].endTime == plan[i + 1].startTime && plan[i].duration == c
  {
    ChunkDuration(outputDir, total, c, i);
  }

  /** The first chunk starts at 0 and the last one ends at the video's end. */
  lemma {:induction false} PlanEnds(outputDir: string, total: real, c: real)
    requires c > 0.0 && |Plan(outputDir, total, c)| > 0
    ensures var plan := Plan(outputDir, total, c);
            plan[0].startTime == 0.0 && plan[|plan| - 1].endTime == total
  {
    var n := ChunkCount(total, c);
    LastChunkReachesEnd(total, c);
    ChunkStartsBeforeEnd(n - 1, total, c);
    assert (n - 1 + 1) as real * c == n as real * c;
  }

  /** When the video is a whole number `k` of chunks long, there are `k`
      chunks and the last one is full: no chunk of length zero trails. */
  lemma {:induction false} ExactMultiplePlan(outputDir: string, c: real, k: nat)
    requires c > 0.0 && k > 0
    ensures var plan := Plan(outputDir, k as real * c, c);
            |plan| == k && plan[k - 1].duration == c
  {
    var total := k as real * c;
    assert total / c == k as real;
    var plan := Plan(outputDir, total, c);
    assert plan[k - 1] == PlanChunk(outputDir, k - 1, total, c);
    assert (k - 1 + 1) as real * c == total;
  }

  /** Chunk files of different chunks have different paths. */
  lemma {:induction false} ChunkPathsDistinct(outputDir: string, i: nat, j: nat)
    ensures ChunkPath(outputDir, i) == ChunkPath(outputDir, j) ==> i == j
  {
    var p := outputDir + "/chunks/chunk_";
    if ChunkPath(outputDir, i) == ChunkPath(outputDir, j) {
      assert ChunkPath(outputDir, i) == p + (NatToString(i) + ".mp4");
      assert ChunkPath(outputDir, j) == p + (NatToString(j) + ".mp4");
      SamePrefix(p, NatToString(i) + ".mp4", NatToString(j) + ".mp4");
      SameSuffix(NatToString(i), NatToString(j), ".mp4");
      NatToStringInjective(i, j);
    }
  }

  // createChunks

  /** Position of the first failed extraction among the events, in the order
      they fired; the number of events when none failed. */
  function FirstFailure(events: seq<Result<()>>): (f: nat)
    ensures f <= |events|
    ensures forall j :: 0 <= j < f ==> events[j].Ok?
    ensures f < |events| ==> events[f].Err?
  {
    if |events| == 0 then 0
    else if events[0].Err? then 0
    else 1 + FirstFailure(events[1..])
  }

  /** Number of extractions that fired `end`. */
  function Ended(events: seq<Result<()>>): nat
  {
    if |events| == 0 then 0 else Ended(events[..|events| - 1]) + (if events[|events| - 1].Ok? then 1 else 0)
  }

  /** What the promise of `createChunks` settles to once the events have
      fired: it resolves when the first `n` events all ended (and there is at
      least one chunk), it rejects with the first error that came earlier,
      and otherwise it is still pending. */
  function Extraction<T>(n: nat, chunks: T, events: seq<Result<()>>): Settled<T>
  {
    var f := FirstFailure(events);
    if n > 0 && f >= n then Resolved(chunks)
    else if f < |events| then Rejected(events[f].msg)
    else Pending
  }

  /** The ensures of FirstFailure determine it. */
  lemma {:induction false} FirstFailureIs(events: seq<Result<()>>, f: nat)
    requires f <= |events|
    requires forall j :: 0 <= j < f ==> events[j].Ok?
    requires f < |events| ==> events[f].Err?
    ensures FirstFailure(events) == f
  {
    if |events| > 0 && f > 0 {
      FirstFailureIs(events[1..], f - 1);
    }
  }

  lemma {:induction false} FirstFailureAppend(events: seq<Result<()>>, e: Result<()>)
    ensures FirstFailure(events + [e]) ==
              if FirstFailure(events) < |events| then FirstFailure(events)
              else if e.Err? then |events| else |events| + 1
  {
    var g := FirstFailure(events);
    var f := if g < |events| then g else if e.Err? then |events| else |events| + 1;
    var s := events + [e];
    forall j | 0 <= j < f ensures s[j].Ok? {
      if j < |events| { assert s[j] == events[j]; }
    }
    FirstFailureIs(s, f);
  }

  /** How the counters move when event i fires. */
  lemma {:induction false} StepFacts(events: seq<Result<()>>, i: nat)
    requires i < |events|
    ensures Ended(events[..i + 1]) == Ended(events[..i]) + (if events[i].Ok? then 1 else 0)
    ensures FirstFailure(events[..i + 1]) ==
              if FirstFailure(events[..i]) < i then FirstFailure(events[..i])
              else if events[i].Err? then i else i + 1
  {
    var prefix := events[..i];
    assert events[..i + 1] == prefix + [events[i]];
    assert (prefix + [events[i]])[..i] == prefix;
    FirstFailureAppend(prefix, events[i]);
  }

  /** When the first n extractions all ended, at least n ended. */
  lemma {:induction false} EndedAtLeast(events: seq<Result<()>>, n: nat)
    requires n <= |events|
    requires forall j :: 0 <= j < n ==> events[j].Ok?
    ensures Ended(events) >= n
  {
    if |events| > 0 {
      var front := events[..|events| - 1];
      if n == |events| {
        EndedAtLeast(front, n - 1);
      } else {
        EndedAtLeast(front, n);
      }
    }
  }

  /** A resolved extraction has counted every chunk, so `createChunks` has
      stored them. */
  lemma {:induction false} ResolvedCountsAll<T>(n: nat, chunks: T, events: seq<Result<()>>)
    requires Extraction(n, chunks, events).Resolved?
    ensures n > 0 && Ended(events) >= n
  {
    EndedAtLeast(events, n);
  }

  /** With one event per chunk, extraction resolves exactly when every chunk
      ended and there is one, and rejects exactly when one failed. */
  lemma {:induction false} ExtractionOnePerChunk<T>(chunks: T, events: seq<Result<()>>)
    ensures var o := Extraction(|events|, chunks, events);
            && (o.Resolved? <==> |events| > 0 && forall j :: 0 <= j < |events| ==> events[j].Ok?)
            && (o.Rejected? <==> exists j :: 0 <= j < |events| && events[j].Err?)
  {
    var f := FirstFailure(events);
    if f < |events| { assert events[f].Err?; }
  }

  // ---------------------------------------------------------------------
  // processChunk

  /** The record `processChunk` returns for a dubbed chunk. */
  datatype ProcessedChunk = ProcessedChunk(
    index: nat, originalPath: string, finalPath: string,
    originalText: string, translatedText: string,
    startTime: real, endTime: real)

  /** What the external steps report for one chunk: the audio track ffmpeg
      extracted, the files on disk when the transcript is read, the two
      translation backends' replies, the gTTS audio and the muxed video. */
  datatype ChunkSteps = ChunkSteps(
    audio: Result<string>, disk: map<string, string>,
    libre: Utils.Reply, lingva: Utils.Reply,
    tts: Result<string>, sync: Result<string>)

  /** `processChunk(chunk, targetLanguage)`: extract, transcribe, clean,
      translate, speak and mux; the first step that throws ends the chunk
      with its error. The temporary-file deletes never throw. */
  function ProcessChunk(chunk: Chunk, target: string, useLingva: bool, st: ChunkSteps): Result<ProcessedChunk>
  {
    if st.audio.Err? then Err(st.audio.msg)
    else
      var transcript := Utils.TranscribeAudio(st.audio.value, st.disk);
      if transcript.Err? then Err(transcript.msg)
      else
        var cleanText := Utils.CleanTranscription(transcript.value);
        var translated := Utils.TranslateText(cleanText, target, useLingva, st.libre, st.lingva);
        if translated.Err? then Err(translated.msg)
        else if st.tts.Err? then Err(st.tts.msg)
        else if st.sync.Err? then Err(st.sync.msg)
        else Ok(ProcessedChunk(chunk.index, chunk.path, st.sync.value, cleanText, translated.value,
                               chunk.startTime, chunk.endTime))
  }

  /** A dubbed chunk keeps the chunk's index, times and path, and carries
      the muxed video, the cleaned transcript and its translation. */
  lemma {:induction false} ProcessChunkKeepsChunk(chunk: Chunk, target: string, useLingva: bool, st: ChunkSteps)
    requires ProcessChunk(chunk, target, useLingva, st).Ok?
    ensures var p := ProcessChunk(chunk, target, useLingva, st).value;
            && st.audio.Ok? && st.sync.Ok? && Utils.TxtPath(st.audio.value) in st.disk
            && p.index == chunk.index
            && p.startTime == chunk.startTime
            && p.endTime == chunk.endTime
            && p.originalPath == chunk.path
            && p.finalPath == st.sync.value
            && p.originalText == Utils.CleanTranscription(st.disk[Utils.TxtPath(st.audio.value)])
            && Ok(p.translatedText) == Utils.TranslateText(p.originalText, target, useLingva, st.libre, st.lingva)
  {
  }

  /** The first step that fails gives the chunk's error: the extraction's,
      the missing transcript's, the translation's (the fallback's error
      after the translation prefix, once neither backend answered), the
      speech synthesis's or the mux's. */
  lemma {:induction false} ProcessChunkFirstError(chunk: Chunk, target: string, useLingva: bool, st: ChunkSteps)
    ensures var r := ProcessChunk(chunk, target, useLingva, st);
            && (st.audio.Err? ==> r == Err(st.audio.msg))
            && (st.audio.Ok? && Utils.TxtPath(st.audio.value) !in st.disk ==> r == Err(Utils.NoTranscriptMessage))
            && (st.audio.Ok? && Utils.TxtPath(st.audio.value) in st.disk ==>
                  var translates := Utils.PrimaryAnswer(st.libre).Some? || Utils.FallbackAnswer(st.lingva).Some?;
                  && (!translates ==> r == Err(Utils.TranslationErrorPrefix + Utils.FallbackError(st.lingva)))
                  && (translates && st.tts.Err? ==> r == Err(st.tts.msg))
                  && (translates && st.tts.Ok? && st.sync.Err? ==> r == Err(st.sync.msg)))
  {
  }

  /** A chunk fails exactly when one of its steps does; the translation
      step fails only when both backends do. */
  lemma {:induction false} ProcessChunkFails(chunk: Chunk, target: string, useLingva: bool, st: ChunkSteps)
    ensures ProcessChunk(chunk, target, useLingva, st).Err? <==>
              || st.audio.Err?
              || Utils.TxtPath(st.audio.value) !in st.disk
              || (Utils.PrimaryAnswer(st.libre).None? && Utils.FallbackAnswer(st.lingva).None?)
              || st.tts.Err? || st.sync.Err?
  {
  }

  // ---------------------------------------------------------------------
  // combineChunks

  /** `(a, b) => a.index - b.index` as a "less or equal" relation. */
  predicate ByIndex(a: ProcessedChunk, b: ProcessedChunk)
  {
    a.index <= b.index
  }

  lemma {:induction false} ByIndexTotalPreorder()
    ensures TotalPreorder(ByIndex)
  {
  }

  function ConcatLine(c: ProcessedChunk): string
  {
    "file '" + c.finalPath + "'"
  }

  function ConcatLines(chunks: seq<ProcessedChunk>): (lines: seq<string>)
    ensures |lines| == |chunks|
    ensures forall i :: 0 <= i < |chunks| ==> lines[i] == ConcatLine(chunks[i])
  {
    seq(|chunks|, i requires 0 <= i < |chunks| => ConcatLine(chunks[i]))
  }

  /** The ffmpeg concat list: the chunks sorted by index, one
      `file '<finalPath>'` line each, joined with newlines. */
  function ConcatList(processed: seq<ProcessedChunk>): string
  {
    Join(ConcatLines(SortBy(processed, ByIndex)), "\n")
  }

  /** `final_long_video_${Date.now()}.mp4` in the output directory. */
  function FinalVideoPath(outputDir: string, now: nat): string
  {
    outputDir + "/final_long_video_" + NatToString(now) + ".mp4"
  }

  /** `combineChunks`: resolves with the final path once ffmpeg's concat run
      ends, rejects with its error. The list is sorted in place, so the
      caller's array comes back sorted. */
  function CombineChunks(processed: seq<ProcessedChunk>, outputDir: string, now: nat, concat: Result<()>): (r: Result<(string, seq<ProcessedChunk>)>)
    ensures r.Ok? <==> concat.Ok?
    ensures r.Err? ==> r.msg == concat.msg
    ensures r.Ok? ==> r.value.0 == FinalVideoPath(outputDir, now)
    ensures r.Ok? ==> multiset(r.value.1) == multiset(processed) && Sorted(r.value.1, ByIndex)
  {
    ByIndexTotalPreorder();
    if concat.Err? then Err(concat.msg)
    else Ok((FinalVideoPath(outputDir, now), SortBy(processed, ByIndex)))
  }

  /** No two chunks share an index. */
  predicate DistinctIndices(chunks: seq<ProcessedChunk>)
  {
    forall a, b :: a in chunks && b in chunks && a.index == b.index ==> a == b
  }

  /** The concat list does not depend on the order the chunks came in. */
  lemma {:induction false} ConcatListOrderFree(x: seq<ProcessedChunk>, y: seq<ProcessedChunk>)
    requires multiset(x) == multiset(y) && DistinctIndices(x)
    ensures ConcatList(x) == ConcatList(y)
  {
    ByIndexTotalPreorder();
    var sx := SortBy(x, ByIndex);
    var sy := SortBy(y, ByIndex);
    forall a, b | a in sx && b in sx && ByIndex(a, b) && ByIndex(b, a) ensures a == b {
      assert a in multiset(x) && b in multiset(x);
    }
    SortedUnique(sx, sy, ByIndex);
  }

  /** A list already in index order is left as it is by the sort. */
  lemma {:induction false} SortKeepsIndexOrder(x: seq<ProcessedChunk>)
    requires Sorted(x, ByIndex) && DistinctIndices(x)
    ensures SortBy(x, ByIndex) == x
  {
    ByIndexTotalPreorder();
    var sx := SortBy(x, ByIndex);
    SortedUnique(x, sx, ByIndex);
  }

  lemma {:induction false} ConcatLineFree(c: ProcessedChunk)
    requires '\n' !in c.finalPath
    ensures '\n' !in ConcatLine(c)
  {
    assert ConcatLine(c) == "file '" + c.finalPath + "'";
  }

  /** The concat list has one line per chunk, in index order, when no final
      path contains a line break. */
  lemma {:induction false} ConcatListLines(processed: seq<ProcessedChunk>)
    requires |processed| > 0
    requires forall c :: c in processed ==> '\n' !in c.finalPath
    ensures var sorted := SortBy(processed, ByIndex);
            && Split(ConcatList(processed), '\n') == ConcatLines(sorted)
            && Sorted(sorted, ByIndex)
            && multiset(sorted) == multiset(processed)
  {
    ByIndexTotalPreorder();
    var sorted := SortBy(processed, ByIndex);
    var lines := ConcatLines(sorted);
    forall i | 0 <= i < |lines| ensures '\n' !in lines[i] {
      assert sorted[i] in multiset(processed);
      ConcatLineFree(sorted[i]);
    }
    SplitJoin(lines, '\n');
  }

  // ---------------------------------------------------------------------
  // processLongVideo: progress reports and the chunk loop

  /** `(i / totalChunks) * 100`, the progress reported before chunk i. */
  function Progress(i: nat, n: nat): real
    requires n > 0
  {
    (i as real / n as real) * 100.0
  }

  /** What `progressCallback` receives before a chunk is processed. */
  datatype ChunkReport = ChunkReport(step: string, currentChunk: nat, totalChunks: nat, progress: real, message: string)

  function Report(i: nat, n: nat): ChunkReport
    requires i < n
  {
    ChunkReport("processing_chunk", i + 1, n, Progress(i, n),
                "Procesando chunk " + NatToString(i + 1) + "/" + NatToString(n))
  }

  /** The reports made before the first k of n chunks. */
  function Reports(n: nat, k: nat): (rs: seq<ChunkReport>)
    requires k <= n
    ensures |rs| == k && forall i :: 0 <= i < k ==> rs[i] == Report(i, n)
  {
    seq(k, i requires 0 <= i < k => Report(i, n))
  }

  /** Reported progress starts at 0, strictly increases and stays below 100. */
  lemma {:induction false} ProgressSchedule(n: nat, i: nat, j: nat)
    requires i < j < n
    ensures Progress(0, n) == 0.0
    ensures Progress(i, n) < Progress(j, n) < 100.0
  {
    var r := n as real;
    assert i as real / r < j as real / r;
    assert j as real / r < 1.0;
  }

  /** `processChunk` with what the external steps report fixed: dubbing
      chunk c, the j-th of the run, gives `Dubber(...)(c, j)`. */
  function Dubber(target: string, useLingva: bool, steps: nat -> ChunkSteps): (Chunk, nat) -> Result<ProcessedChunk>
  {
    (c: Chunk, j: nat) => ProcessChunk(c, target, useLingva, steps(j))
  }

  /** What dubbing each chunk of `plan` with `dub` gives, chunk by chunk. */
  function Dubs(plan: seq<Chunk>, dub: (Chunk, nat) -> Result<ProcessedChunk>): (outs: seq<Result<ProcessedChunk>>)
    ensures |outs| == |plan|
  {
    if |plan| == 0 then []
    else Dubs(plan[..|plan| - 1], dub) + [dub(plan[|plan| - 1], |plan| - 1)]
  }

  /** Entry j of `Dubs` is what dubbing chunk j gives. */
  lemma {:induction false} DubAt(plan: seq<Chunk>, dub: (Chunk, nat) -> Result<ProcessedChunk>, j: nat)
    requires j < |plan|
    ensures Dubs(plan, dub)[j] == dub(plan[j], j)
  {
    if j < |plan| - 1 {
      DubAt(plan[..|plan| - 1], dub, j);
    }
  }

  /** The position at which a run over `outs` stops, looking from k on: the
      first failure, or the end when there is none. */
  function FirstErr<T>(outs: seq<Result<T>>, k: nat): (f: nat)
    requires k <= |outs|
    ensures k <= f <= |outs|
    ensures forall j :: k <= j < f ==> outs[j].Ok?
    ensures f < |outs| ==> outs[f].Err?
    decreases |outs| - k
  {
    if k == |outs| then k
    else if outs[k].Err? then k
    else FirstErr(outs, k + 1)
  }

  /** The values of the first k outcomes, all of which succeeded. */
  function OkValues<T>(outs: seq<Result<T>>, k: nat): (done: seq<T>)
    requires k <= |outs|
    requires forall j :: 0 <= j < k ==> outs[j].Ok?
    ensures |done| == k
    ensures forall j :: 0 <= j < k ==> done[j] == outs[j].value
  {
    if k == 0 then [] else OkValues(outs, k - 1) + [outs[k - 1].value]
  }

  /** Chunks whose index is their position are in index order, one per
      index. */
  lemma {:induction false} IndexedByPosition(done: seq<ProcessedChunk>)
    requires forall j :: 0 <= j < |done| ==> done[j].index == j
    ensures Sorted(done, ByIndex) && DistinctIndices(done)
  {
    forall a, b | a in done && b in done && a.index == b.index ensures a == b {
      var x :| 0 <= x < |done| && done[x] == a;
      var y :| 0 <= y < |done| && done[y] == b;
    }
  }

  /** The dubbed record of chunk j of a plan has index j. */
  lemma {:induction false} ProcessedIndex(outputDir: string, total: real, c: real, k: nat, target: string, useLingva: bool, steps: nat -> ChunkSteps, j: nat)
    requires c > 0.0
    requires j < k <= |Plan(outputDir, total, c)|
    requires forall i :: 0 <= i < k ==> Dubs(Plan(outputDir, total, c), Dubber(target, useLingva, steps))[i].Ok?
    ensures OkValues(Dubs(Plan(outputDir, total, c), Dubber(target, useLingva, steps)), k)[j].index == j
  {
    var plan := Plan(outputDir, total, c);
    DubAt(plan, Dubber(target, useLingva, steps), j);
    ProcessChunkKeepsChunk(plan[j], target, useLingva, steps(j));
    PlanChunkShape(outputDir, total, c, j);
  }

  /** Dubbed chunks of a plan come out in index order, one per index. */
  lemma {:induction false} ProcessedInOrder(outputDir: string, total: real, c: real, k: nat, target: string, useLingva: bool, steps: nat -> ChunkSteps)
    requires c > 0.0
    requires k <= |Plan(outputDir, total, c)|
    requires forall j :: 0 <= j < k ==> Dubs(Plan(outputDir, total, c), Dubber(target, useLingva, steps))[j].Ok?
    ensures var done := OkValues(Dubs(Plan(outputDir, total, c), Dubber(target, useLingva, steps)), k);
            && (forall j :: 0 <= j < k ==> done[j].index == j)
            && Sorted(done, ByIndex) && DistinctIndices(done)
  {
    var done := OkValues(Dubs(Plan(outputDir, total, c), Dubber(target, useLingva, steps)), k);
    forall j | 0 <= j < k ensures done[j].index == j {
      ProcessedIndex(outputDir, total, c, k, target, useLingva, steps, j);
    }
    IndexedByPosition(done);
  }

  /** What `processLongVideo` resolves with (its `totalDuration` sums a field
      the records do not have and is not modelled). */
  datatype LongVideoResult = LongVideoResult(finalVideoPath: string, chunks: seq<ProcessedChunk>)

  class LongVideoProcessor {
    var chunks: seq<Chunk>
    var currentChunk: int
    var totalChunks: int
    var progress: real

    constructor()
      ensures chunks == [] && currentChunk == 0 && totalChunks == 0 && progress == 0.0
    {
      chunks := [];
      currentChunk := 0;
      totalChunks := 0;
      progress := 0.0;
    }

    /** `createChunks`: every extraction that fires `end` is counted; the
        promise resolves, and `this.chunks` is set, when the count reaches
        the number of chunks; the first error rejects it. `events` are the
        extractions' outcomes in the order they fired. */
    method CreateChunks(plan: seq<Chunk>, events: seq<Result<()>>) returns (outcome: Settled<seq<Chunk>>)
      modifies this
      ensures outcome == Extraction(|plan|, plan, events)
      ensures chunks == (if |plan| > 0 && Ended(events) >= |plan| then plan else old(chunks))
      ensures currentChunk == old(currentChunk) && totalChunks == old(totalChunks) && progress == old(progress)
    {
      var completed := 0;
      outcome := Pending;
      var i := 0;
      while i < |events|
        invariant 0 <= i <= |events|
        invariant completed == Ended(events[..i])
        invariant FirstFailure(events[..i]) == i ==> completed == i
        invariant outcome == Extraction(|plan|, plan, events[..i])
        invariant chunks == (if |plan| > 0 && completed >= |plan| then plan else old(chunks))
        invariant currentChunk == old(currentChunk) && totalChunks == old(totalChunks) && progress == old(progress)
      {
        completed, outcome := OnExtractionEvent(plan, events, i, completed, outcome, old(chunks));
        i := i + 1;
      }
      assert events[..|events|] == events;
    }

    /** The `end` or `error` handler of extraction i: an end is counted, and
        the count reaching the number of chunks stores them and resolves the
        promise; an error rejects it. A settled promise stays settled. */
    method OnExtractionEvent(plan: seq<Chunk>, events: seq<Result<()>>, i: nat, completed: nat, outcome: Settled<seq<Chunk>>,
                             ghost before: seq<Chunk>)
      returns (completed': nat, outcome': Settled<seq<Chunk>>)
      requires i < |events|
      requires completed == Ended(events[..i])
      requires FirstFailure(events[..i]) == i ==> completed == i
      requires outcome == Extraction(|plan|, plan, events[..i])
      requires chunks == (if |plan| > 0 && completed >= |plan| then plan else before)
      modifies this`chunks
      ensures completed' == Ended(events[..i + 1])
      ensures FirstFailure(events[..i + 1]) == i + 1 ==> completed' == i + 1
      ensures outcome' == Extraction(|plan|, plan, events[..i + 1])
      ensures chunks == (if |plan| > 0 && completed' >= |plan| then plan else before)
    {
      StepFacts(events, i);
      completed', outcome' := completed, outcome;
      if events[i].Ok? {
        completed' := completed + 1;
        if completed' == |plan| {
          chunks := plan;
          if outcome.Pending? {
            outcome' := Resolved(plan);
          }
        }
      } else if outcome.Pending? {
        outcome' := Rejected(events[i].msg);
      }
    }

    /** `splitVideoIntoChunks(videoPath, chunkDuration)`: probes the duration,
        records the chunk count, plans the chunks and extracts them. */
    method SplitVideoIntoChunks(probe: Result<real>, chunkDuration: real, outputDir: string, events: seq<Result<()>>)
      returns (outcome: Settled<seq<Chunk>>)
      requires chunkDuration > 0.0
      modifies this
      ensures probe.Err? ==> outcome == Rejected(probe.msg) && unchanged(this)
      ensures probe.Ok? ==>
                var plan := Plan(outputDir, probe.value, chunkDuration);
                && totalChunks == ChunkCount(probe.value, chunkDuration)
                && outcome == Extraction(|plan|, plan, events)
                && chunks == (if |plan| > 0 && Ended(events) >= |plan| then plan else old(chunks))
      ensures currentChunk == old(currentChunk) && progress == old(progress)
    {
      if probe.Err? {
        return Rejected(probe.msg);
      }
      var total := probe.value;
      totalChunks := ChunkCount(total, chunkDuration);
      ghost var full := Plan(outputDir, total, chunkDuration);
      var plan: seq<Chunk> := [];
      var i := 0;
      while i < totalChunks
        invariant 0 <= i <= |full|
        invariant plan == full[..i]
        invariant totalChunks == ChunkCount(total, chunkDuration)
        invariant currentChunk == old(currentChunk) && progress == old(progress)
      {
        plan := plan + [PlanChunk(outputDir, i, total, chunkDuration)];
        i := i + 1;
      }
      assert plan == full;
      outcome := CreateChunks(plan, events);
    }

    /** The loop of `processLongVideo` over `this.chunks`: before dubbing
        chunk i it sets the progress and reports it; the first chunk that
        fails ends the loop with that chunk's error. */
    method DubChunks(dub: (Chunk, nat) -> Result<ProcessedChunk>)
      returns (done: Result<seq<ProcessedChunk>>, reports: seq<ChunkReport>)
      modifies this`progress
      ensures var outs := Dubs(chunks, dub);
              var f := FirstErr(outs, 0);
              && (f < |chunks| ==>
                    && done == Err(outs[f].msg)
                    && reports == Reports(|chunks|, f + 1)
                    && progress == Progress(f, |chunks|))
              && (f == |chunks| ==>
                    && done == Ok(OkValues(outs, |chunks|))
                    && reports == Reports(|chunks|, |chunks|)
                    && (|chunks| > 0 ==> progress == Progress(|chunks| - 1, |chunks|))
                    && (|chunks| == 0 ==> progress == old(progress)))
    {
      var plan := chunks;
      ghost var outs := Dubs(plan, dub);
      var n := |plan|;
      var processedChunks: seq<ProcessedChunk> := [];
      reports := [];
      var i := 0;
      while i < n
        invariant 0 <= i <= n == |outs|
        invariant FirstErr(outs, 0) >= i
        invariant processedChunks == OkValues(outs, i)
        invariant reports == Reports(n, i)
        invariant progress == (if i > 0 then Progress(i - 1, n) else old(progress))
      {
        reports := ReportProgress(i, n, reports);
        var processed := DubChunkAt(plan, dub, i);
        if processed.Err? {
          FirstErrAt(outs, i);
          done := Err(processed.msg);
          return;
        }
        FirstErrPast(outs, i);
        processedChunks := processedChunks + [processed.value];
        i := i + 1;
      }
      done := Ok(processedChunks);
    }

    /** Sets the progress before chunk i of n and hands the callback its
        report. */
    method ReportProgress(i: nat, n: nat, reports: seq<ChunkReport>) returns (reports': seq<ChunkReport>)
      requires i < n && reports == Reports(n, i)
      modifies this`progress
      ensures progress == Progress(i, n) && reports' == Reports(n, i + 1)
    {
      progress := Progress(i, n);
      reports' := reports + [Report(i, n)];
      ReportsStep(n, i);
    }

    /** `processChunk` on chunk i of `plan`: entry i of `Dubs`. */
    method DubChunkAt(plan: seq<Chunk>, dub: (Chunk, nat) -> Result<ProcessedChunk>, i: nat)
      returns (processed: Result<ProcessedChunk>)
      requires i < |plan|
      ensures processed == Dubs(plan, dub)[i]
    {
      DubAt(plan, dub, i);
      processed := dub(plan[i], i);
    }

    /** `processLongVideo`: splits the video, then dubs the chunks in order,
        reporting progress before each; the first failure ends the run,
        otherwise the chunks are concatenated. `steps(i)` is what the
        external steps report for chunk i; the reports made are returned with
        the outcome. */
    method ProcessLongVideo(probe: Result<real>, chunkDuration: real, outputDir: string, events: seq<Result<()>>,
                            target: string, useLingva: bool, steps: nat -> ChunkSteps, concat: Result<()>, now: nat)
      returns (outcome: Settled<LongVideoResult>, reports: seq<ChunkReport>)
      requires chunkDuration > 0.0
      modifies this
      ensures probe.Err? ==> outcome == Rejected(probe.msg) && reports == [] && unchanged(this)
      ensures probe.Ok? ==>
                var plan := Plan(outputDir, probe.value, chunkDuration);
                var split := Extraction(|plan|, plan, events);
                && totalChunks == ChunkCount(probe.value, chunkDuration)
                && chunks == (if |plan| > 0 && Ended(events) >= |plan| then plan else old(chunks))
                && (split.Rejected? ==> outcome == Rejected(split.reason) && reports == [] && progress == old(progress))
                && (split.Pending? ==> outcome == Pending && reports == [] && progress == old(progress))
                && (split.Resolved? ==> chunks == plan && RunOutcome(plan, target, useLingva, steps, outputDir, now, concat, outcome, reports))
      ensures probe.Ok? ==>
                var plan := Plan(outputDir, probe.value, chunkDuration);
                var f := FirstErr(Dubs(plan, Dubber(target, useLingva, steps)), 0);
                Extraction(|plan|, plan, events).Resolved? ==>
                  progress == Progress(if f < |plan| then f else |plan| - 1, |plan|)
      ensures currentChunk == old(currentChunk)
    {
      reports := [];
      var split := SplitVideoIntoChunks(probe, chunkDuration, outputDir, events);
      if !split.Resolved? {
        outcome := if split.Pending? then Pending else Rejected(split.reason);
        return;
      }
      ghost var plan := Plan(outputDir, probe.value, chunkDuration);
      ResolvedCountsAll(|plan|, plan, events);
      var done;
      done, reports := DubChunks(Dubber(target, useLingva, steps));
      if done.Err? {
        outcome := Rejected(done.msg);
        return;
      }
      var combined := CombineChunks(done.value, outputDir, now, concat);
      if combined.Err? {
        outcome := Rejected(combined.msg);
        return;
      }
      outcome := Resolved(LongVideoResult(combined.value.0, combined.value.1));
    }
  }

  /** How a run over the chunks of `plan` ends once they are extracted: the
      first chunk that fails rejects it with that chunk's error after
      reporting up to that chunk; otherwise every chunk is reported and the
      combine step decides. */
  ghost predicate RunOutcome(plan: seq<Chunk>, target: string, useLingva: bool, steps: nat -> ChunkSteps,
                             outputDir: string, now: nat, concat: Result<()>,
                             outcome: Settled<LongVideoResult>, reports: seq<ChunkReport>)
  {
    var outs := Dubs(plan, Dubber(target, useLingva, steps));
    var f := FirstErr(outs, 0);
    && (f < |plan| ==>
          && reports == Reports(|plan|, f + 1)
          && outcome == Rejected(outs[f].msg))
    && (f == |plan| ==>
          && reports == Reports(|plan|, |plan|)
          && var combined := CombineChunks(OkValues(outs, |plan|), outputDir, now, concat);
          && (combined.Err? ==> outcome == Rejected(combined.msg))
          && (combined.Ok? ==> outcome == Resolved(LongVideoResult(combined.value.0, combined.value.1))))
  }

  lemma {:induction false} ReportsStep(n: nat, i: nat)
    requires i < n
    ensures Reports(n, i + 1) == Reports(n, i) + [Report(i, n)]
  {
  }

  /** A run that got past position i without failure did not stop at i. */
  lemma {:induction false} FirstErrPast<T>(outs: seq<Result<T>>, i: nat)
    requires i < |outs|
    requires FirstErr(outs, 0) >= i
    requires outs[i].Ok?
    ensures FirstErr(outs, 0) > i
  {
  }

  /** A run whose outcomes before i succeeded and whose outcome i failed
      stops at i. */
  lemma {:induction false} FirstErrAt<T>(outs: seq<Result<T>>, i: nat)
    requires i < |outs|
    requires FirstErr(outs, 0) >= i
    requires outs[i].Err?
    ensures FirstErr(outs, 0) == i
  {
  }

  /** A successful run's chunks come back from the in-place sort in the
      order they were dubbed, so the concat list follows that order. */
  lemma {:induction false} SuccessfulRunInOrder(outputDir: string, total: real, c: real, target: string, useLingva: bool,
                             steps: nat -> ChunkSteps, now: nat, concat: Result<()>)
    requires c > 0.0
    requires FirstErr(Dubs(Plan(outputDir, total, c), Dubber(target, useLingva, steps)), 0) == |Plan(outputDir, total, c)|
    requires concat.Ok?
    ensures var plan := Plan(outputDir, total, c);
            var done := OkValues(Dubs(plan, Dubber(target, useLingva, steps)), |plan|);
            && CombineChunks(done, outputDir, now, concat).value.1 == done
            && ConcatList(done) == Join(ConcatLines(done), "\n")
  {
    var plan := Plan(outputDir, total, c);
    ProcessedInOrder(outputDir, total, c, |plan|, target, useLingva, steps);
    SortKeepsIndexOrder(OkValues(Dubs(plan, Dubber(target, useLingva, steps)), |plan|));
  }

  // ---------------------------------------------------------------------
  // getVideoInfo

  /** What ffprobe reports about a file's format. */
  datatype Format = Format(duration: real, size: nat, bitRate: nat, formatName: string)

  datatype VideoInfo = VideoInfo(
    duration: real, size: nat, bitrate: nat, format: string,
    estimatedChunks: int, estimatedProcessingTime: int)

  /** `getVideoInfo(videoPath)`: the probe's figures plus the chunk count and
      five minutes of processing per started minute of video. */
  function GetVideoInfo(probe: Result<Format>, chunkDuration: real): (r: Result<VideoInfo>)
    requires chunkDuration > 0.0
    ensures probe.Err? ==> r == Err(probe.msg)
    ensures probe.Ok? ==> r.Ok? && r.value.duration == probe.value.duration
    ensures probe.Ok? && probe.value.duration > 0.0 ==>
              r.value.estimatedChunks == |Plan("", probe.value.duration, chunkDuration)|
    ensures probe.Ok? ==> r.value.estimatedProcessingTime % 5 == 0
    ensures probe.Ok? ==> (r.value.estimatedProcessingTime / 5 - 1) as real * 60.0 < probe.value.duration
                            <= (r.value.estimatedProcessingTime / 5) as real * 60.0
  {
    if probe.Err? then Err(probe.msg)
    else
      var d := probe.value.duration;
      assert d > 0.0 ==> d / chunkDuration > 0.0;
      Ok(VideoInfo(d, probe.value.size, probe.value.bitRate, probe.value.formatName,
                Ceil(d / chunkDuration), Ceil(d / 60.0) * 5))
  }
}
