/** The pipeline helpers of utils.js: the transcript cleaner, unique upload
    names, the upload validator, the transcript path, the two-backend
    translation fallback and the best-effort temporary-file delete. The
    ffmpeg, Whisper, gTTS and HTTP calls are not run: their outcomes are
    parameters. */
module Utils {

  import opened Outcomes
  import opened Text
  import opened Decimal
  import opened Lists

  // ---------------------------------------------------------------------
  // cleanTranscription

  const DetectedBanner := "detected language"
  const DetectingBanner := "detecting language"

  /** The banner Whisper prints about language detection. */
  predicate IsBanner(t: string)
  {
    StartsWith(Lower(t), DetectedBanner) || StartsWith(Lower(t), DetectingBanner)
  }

  /** The filter of `cleanTranscription`: the trimmed line is non-empty, is no
      `[..]` timestamp marker and no language banner. */
  predicate KeepLine(line: string)
  {
    var t := Trim(line);
    t != "" && !StartsWith(t, "[") && !IsBanner(t)
  }

  /** `lines.filter(KeepLine)`. */
  function FilterLines(lines: seq<string>): (kept: seq<string>)
    ensures forall i :: 0 <= i < |kept| ==> KeepLine(kept[i])
  {
    Filter(KeepLine, lines)
  }

  /** `cleanTranscription(rawText)`: the kept lines joined by single spaces.
      The result is one line, and it is empty exactly when no line is kept. */
  function CleanTranscription(raw: string): (r: string)
    ensures '\n' !in r
    ensures r == "" <==> forall l :: l in Split(raw, '\n') ==> !KeepLine(l)
  {
    var lines := Split(raw, '\n');
    var kept := FilterLines(lines);
    SplitPiecesFree(raw, '\n');
    FilterMembers(KeepLine, lines);
    FilterEmpty(KeepLine, lines);
    JoinFree(kept, " ", '\n');
    forall i | 0 <= i < |kept| ensures kept[i] != "" {
      KeptNotEmpty(kept[i]);
    }
    JoinEmpty(kept, " ");
    Join(kept, " ")
  }

  /** A kept line is not empty. */
  lemma {:induction false} KeptNotEmpty(line: string)
    requires KeepLine(line)
    ensures line != ""
  {
  }

  /** A single line is cleaned to itself or to nothing. */
  lemma {:induction false} CleanOneLine(line: string)
    requires '\n' !in line
    ensures CleanTranscription(line) == (if KeepLine(line) then line else "")
  {
    SplitWithoutSeparator(line, '\n');
    assert FilterLines([line]) == (if KeepLine(line) then [line] else []);
  }

  /** A second pass changes a cleaned transcript exactly when the joined text
      is no longer a line the filter keeps. */
  lemma {:induction false} CleanTwice(raw: string)
    ensures var r := CleanTranscription(raw);
            CleanTranscription(r) == (if KeepLine(r) then r else "")
  {
    CleanOneLine(CleanTranscription(raw));
  }

  lemma {:induction false} TrimStartAppend(a: string, b: string)
    requires exists i :: 0 <= i < |a| && !IsSpace(a[i])
    ensures TrimStart(a + b) == TrimStart(a) + b
  {
    if IsSpace(a[0]) {
      assert (a + b)[1..] == a[1..] + b;
      var i :| 0 <= i < |a| && !IsSpace(a[i]);
      assert !IsSpace(a[1..][i - 1]);
      TrimStartAppend(a[1..], b);
    }
  }

  /** Text appended after a line that is not blank does not change the first
      character left by trimming. */
  lemma {:induction false} FirstTrimmedChar(a: string, b: string)
    requires Trim(a) != ""
    ensures Trim(a + b) != "" && Trim(a + b)[0] == Trim(a)[0]
  {
    var t := TrimStart(a);
    assert t != "";
    assert !IsSpace(a[|a| - |t|]);
    TrimStartAppend(a, b);
    assert TrimStart(a + b) == t + b;
  }

  /** A cleaned transcript that is not empty is its first kept line followed
      by the rest. */
  lemma {:induction false} CleanedHead(raw: string) returns (first: string, rest: string)
    requires CleanTranscription(raw) != ""
    ensures KeepLine(first) && CleanTranscription(raw) == first + rest
  {
    var kept := FilterLines(Split(raw, '\n'));
    assert CleanTranscription(raw) == Join(kept, " ");
    assert kept != [];
    first := kept[0];
    if |kept| == 1 {
      rest := "";
    } else {
      rest := " " + Join(kept[1..], " ");
    }
    JoinHeadRest(kept, " ");
  }

  /** A join is its first part followed by the separator and the join of
      the rest, if any. */
  lemma {:induction false} JoinHeadRest(parts: seq<string>, sep: string)
    requires |parts| > 0
    ensures Join(parts, sep) == parts[0] + (if |parts| == 1 then "" else sep + Join(parts[1..], sep))
  {
    if |parts| == 1 {
      assert parts[0] + "" == parts[0];
    }
  }

  /** A cleaned transcript that is not empty starts, once trimmed, with a
      character that is not "[": it starts like its first kept line. */
  lemma {:induction false} CleanedStart(raw: string)
    requires CleanTranscription(raw) != ""
    ensures Trim(CleanTranscription(raw)) != ""
    ensures Trim(CleanTranscription(raw))[0] != '['
  {
    var first, rest := CleanedHead(raw);
    assert Trim(first) != "" && Trim(first)[0] != '[';
    FirstTrimmedChar(first, rest);
  }

  /** A second pass can only drop the whole text, and only because the
      joined lines now begin with a language banner: the first kept line is
      never blank and never a `[` marker, but a line such as "Detected"
      followed by "language x" joins into a banner. */
  lemma {:induction false} SecondPassDropsOnlyBanners(raw: string)
    ensures var r := CleanTranscription(raw);
            CleanTranscription(r) != r ==> CleanTranscription(r) == "" && IsBanner(Trim(r))
  {
    var r := CleanTranscription(raw);
    CleanTwice(raw);
    if CleanTranscription(r) != r {
      CleanedStart(raw);
      assert !StartsWith(Trim(r), "[");
    }
  }

  /** A single surviving line is a fixed point of the cleaner. */
  lemma {:induction false} SingleLineIdempotent(raw: string)
    requires |FilterLines(Split(raw, '\n'))| == 1
    ensures CleanTranscription(CleanTranscription(raw)) == CleanTranscription(raw)
  {
    CleanTwice(raw);
    assert KeepLine(FilterLines(Split(raw, '\n'))[0]);
  }

  /** A string with no white space at either end is its own trim. */
  lemma {:induction false} TrimNoSpace(s: string)
    requires |s| > 0 && !IsSpace(s[0]) && !IsSpace(s[|s| - 1])
    ensures Trim(s) == s
  {
  }

  /** A line no banner fits in, with text at both ends and no leading "[",
      is kept. */
  lemma {:induction false} ShortLineKept(t: string)
    requires 0 < |t| < |DetectedBanner| && t[0] != '['
    requires !IsSpace(t[0]) && !IsSpace(t[|t| - 1])
    ensures KeepLine(t)
  {
    TrimNoSpace(t);
  }

  /** A lower-cased string starts with `p` when its first characters lower
      to `p`. */
  lemma {:induction false} LowerStartsWith(t: string, p: string)
    requires |p| <= |t|
    requires forall i :: 0 <= i < |p| ==> LowerChar(t[i]) == p[i]
    ensures StartsWith(Lower(t), p)
  {
    assert Lower(t)[..|p|] == p;
  }

  /** A line that, trimmed, lower-cases to a banner is dropped. */
  lemma {:induction false} BannerLineDropped(t: string, p: string)
    requires p == DetectedBanner || p == DetectingBanner
    requires |p| < |t| && !IsSpace(t[0]) && !IsSpace(t[|t| - 1])
    requires forall i :: 0 <= i < |p| ==> LowerChar(t[i]) == p[i]
    ensures !KeepLine(t)
  {
    TrimNoSpace(t);
    LowerStartsWith(t, p);
  }

  /** Two kept lines clean into one line joined by a space. */
  lemma {:induction false} CleanTwoLines(a: string, b: string)
    requires '\n' !in a && '\n' !in b
    requires KeepLine(a) && KeepLine(b)
    ensures CleanTranscription(a + "\n" + b) == a + " " + b
  {
    SplitAt(a, b, '\n');
    SplitWithoutSeparator(b, '\n');
    var lines := [a, b];
    assert Split(a + "\n" + b, '\n') == lines;
    assert FilterLines(lines[1..]) == [b];
    assert FilterLines(lines) == lines;
    assert Join(lines, " ") == a + " " + Join([b], " ");
  }

  /** "Detected" and "language x" are both lines the filter keeps. */
  lemma {:induction false} ExampleLinesKept(a: string, b: string)
    requires a == "Detected" && b == "language x"
    ensures '\n' !in a && '\n' !in b && KeepLine(a) && KeepLine(b)
  {
    ShortLineKept(a);
    ShortLineKept(b);
  }

  /** "Detected language x" lower-cases to the detection banner followed by
      " x". */
  lemma {:induction false} ExampleBannerPrefix(a: string, b: string)
    requires a == "Detected" && b == "language x"
    ensures |DetectedBanner| < |a + " " + b|
    ensures forall i :: 0 <= i < |DetectedBanner| ==> LowerChar((a + " " + b)[i]) == DetectedBanner[i]
  {
  }

  /** "Detected language x" is one line, and the filter drops it. */
  lemma {:induction false} ExampleJoinedDropped(a: string, b: string)
    requires a == "Detected" && b == "language x"
    ensures '\n' !in a + " " + b && !KeepLine(a + " " + b)
  {
    var t := a + " " + b;
    assert t[0] == 'D' && t[|t| - 1] == 'x';
    ExampleBannerPrefix(a, b);
    BannerLineDropped(t, DetectedBanner);
    forall i | 0 <= i < |t| ensures t[i] != '\n' {
      if i < |a| { assert t[i] == a[i]; }
      else if i > |a| { assert t[i] == b[i - |a| - 1]; }
    }
  }

  /** The cleaner is not idempotent: "Detected" then "language x" joins into
      a banner line that a second pass removes. */
  lemma {:induction false} BannerSplitAcrossLines(a: string, b: string)
    requires a == "Detected" && b == "language x"
    ensures CleanTranscription(a + "\n" + b) == a + " " + b
    ensures CleanTranscription(CleanTranscription(a + "\n" + b)) == ""
  {
    ExampleLinesKept(a, b);
    CleanTwoLines(a, b);
    ExampleJoinedDropped(a, b);
    CleanOneLine(a + " " + b);
  }

  // ---------------------------------------------------------------------
  // generateUniqueFilename

  /** `path.extname(name)` for a name without a directory part: from the last
      dot on, unless there is no dot, the only dot leads the name, or the
      name is "..". */
  function ExtName(name: string): (ext: string)
    requires '/' !in name
  {
    var k := LastIndexOf(name, '.');
    if k <= 0 || name == ".." then "" else name[k..]
  }

  /** `path.basename(name, ext)`: the name without its extension. */
  function Stem(name: string): (stem: string)
    requires '/' !in name
    ensures stem + ExtName(name) == name
  {
    name[..|name| - |ExtName(name)|]
  }

  /** `generateUniqueFilename(originalName)` with `Date.now()` passed in. */
  function GenerateUniqueFilename(name: string, now: nat): (r: string)
    requires '/' !in name
    ensures '/' !in r
  {
    Stem(name) + "_" + NatToString(now) + ExtName(name)
  }

  /** The unique name keeps the original extension, and its stem is the
      original stem followed by "_" and the timestamp. Only the name ".."
      (whose extension node reports as empty) breaks this. */
  lemma {:induction false} UniqueFilenameKeepsParts(name: string, now: nat)
    requires '/' !in name && name != ".."
    ensures ExtName(GenerateUniqueFilename(name, now)) == ExtName(name)
    ensures Stem(GenerateUniqueFilename(name, now)) == Stem(name) + "_" + NatToString(now)
  {
    var r := GenerateUniqueFilename(name, now);
    var ext := ExtName(name);
    var d := NatToString(now);
    var tail := "_" + d;
    var mid := Stem(name) + tail;
    assert r == mid + ext;
    TimestampHasNoDot(d);
    if ext == "" {
      assert r == name + tail;
      LastIndexAppend(name, tail, '.');
      assert r[|name|] == '_';
    } else {
      var k := LastIndexOf(name, '.');
      assert ext == name[k..];
      LastIndexIsLast(name, '.');
      forall j | 0 < j < |ext| ensures ext[j] != '.' {
        assert ext[j] == name[k + j];
      }
      LastIndexAt(ext, '.', 0);
      LastIndexAppend(mid, ext, '.');
      assert r[..|mid|] == mid && r[|mid|..] == ext;
    }
  }

  /** An underscore followed by digits holds no dot. */
  lemma {:induction false} TimestampHasNoDot(d: string)
    requires AllDigits(d)
    ensures LastIndexOf("_" + d, '.') == -1
  {
    var tail := "_" + d;
    forall j | 0 <= j < |tail| ensures tail[j] != '.' {
      if j > 0 { assert tail[j] == d[j - 1]; }
    }
    LastIndexAt(tail, '.', -1);
  }

  // ---------------------------------------------------------------------
  // validateVideoFile

  /** What multer hands the route for an upload. */
  datatype UploadedFile = UploadedFile(originalName: string, mimetype: string, path: string, size: nat)

  const NoFileMessage := "No se subió ningún archivo"
  const NotVideoMessage := "El archivo no es un video"

  /** `validateVideoFile(file)`: throws for a missing file and for a mimetype
      that does not start with "video/", returns normally otherwise. */
  function ValidateVideoFile(file: Option<UploadedFile>): (r: Result<()>)
    ensures r.Ok? <==> file.Some? && StartsWith(file.value.mimetype, "video/")
    ensures file.None? ==> r == Err(NoFileMessage)
    ensures file.Some? && r.Err? ==> r == Err(NotVideoMessage)
  {
    if file.None? then Err(NoFileMessage)
    else if !StartsWith(file.value.mimetype, "video/") then Err(NotVideoMessage)
    else Ok(())
  }

  // ---------------------------------------------------------------------
  // transcribeAudio's transcript path

  /** `s` ends in what the regular expression `\.[^/.]+$` matches: its last
      dot is followed by at least one character and by no slash. */
  predicate HasFinalExtension(s: string)
  {
    var k := LastIndexOf(s, '.');
    0 <= k < |s| - 1 && LastIndexOf(s, '/') < k
  }

  /** `s.replace(/\.[^/.]+$/, ".txt")`. */
  function ReplaceFinalExtension(s: string): (r: string)
  {
    if HasFinalExtension(s) then s[..LastIndexOf(s, '.')] + ".txt" else s
  }

  /** `path.join(path.dirname(p), path.basename(p).replace(...))` for a
      normalised path: the same directory, the file name's final extension
      replaced. */
  function TxtPath(audioPath: string): (r: string)
  {
    var k := LastIndexOf(audioPath, '/');
    audioPath[..k + 1] + ReplaceFinalExtension(audioPath[k + 1..])
  }

  /** The transcript lives in the audio file's directory. */
  lemma {:induction false} TxtPathKeepsDirectory(audioPath: string)
    ensures var k := LastIndexOf(audioPath, '/');
            audioPath[..k + 1] <= TxtPath(audioPath)
  {
  }

  /** A file name without a final extension is left as it is. */
  lemma {:induction false} TxtPathNoExtension(audioPath: string)
    requires !HasFinalExtension(audioPath[LastIndexOf(audioPath, '/') + 1..])
    ensures TxtPath(audioPath) == audioPath
  {
    var k := LastIndexOf(audioPath, '/');
    assert audioPath == audioPath[..k + 1] + audioPath[k + 1..];
  }

  /** A file name's final extension becomes ".txt". */
  lemma {:induction false} TxtPathExtension(audioPath: string)
    requires HasFinalExtension(audioPath[LastIndexOf(audioPath, '/') + 1..])
    ensures var k := LastIndexOf(audioPath, '/');
            TxtPath(audioPath) == audioPath[..k + 1 + LastIndexOf(audioPath[k + 1..], '.')] + ".txt"
  {
    var k := LastIndexOf(audioPath, '/');
    var base := audioPath[k + 1..];
    var d := LastIndexOf(base, '.');
    assert ReplaceFinalExtension(base) == base[..d] + ".txt";
    assert audioPath[..k + 1] + base[..d] == audioPath[..k + 1 + d];
  }

  /** The file name part of a path has no slash. */
  lemma {:induction false} SlashFreeBase(audioPath: string)
    ensures LastIndexOf(audioPath[LastIndexOf(audioPath, '/') + 1..], '/') == -1
  {
    var k := LastIndexOf(audioPath, '/');
    var base := audioPath[k + 1..];
    LastIndexIsLast(audioPath, '/');
    forall j | 0 <= j < |base| ensures base[j] != '/' { assert base[j] == audioPath[k + 1 + j]; }
    LastIndexAt(base, '/', -1);
  }

  /** Replacing the final extension twice is replacing it once. */
  lemma {:induction false} ReplaceIdempotent(s: string)
    ensures ReplaceFinalExtension(ReplaceFinalExtension(s)) == ReplaceFinalExtension(s)
  {
    if HasFinalExtension(s) {
      TxtSuffix(s[..LastIndexOf(s, '.')]);
    }
  }

  /** Any name ending in ".txt" has ".txt" as its final extension. */
  lemma {:induction false} TxtSuffix(a: string)
    ensures HasFinalExtension(a + ".txt")
    ensures ReplaceFinalExtension(a + ".txt") == a + ".txt"
  {
    var r := a + ".txt";
    var e := |a|;
    assert r[e] == '.' && r[e + 1] == 't' && r[e + 2] == 'x' && r[e + 3] == 't';
    LastIndexAt(r, '.', e);
    var q := LastIndexOf(r, '/');
    assert q < e;
    assert r[..e] == a;
  }

  /** Deriving the transcript path twice changes nothing more. */
  lemma {:induction false} TxtPathIdempotent(audioPath: string)
    ensures TxtPath(TxtPath(audioPath)) == TxtPath(audioPath)
  {
    WholePathReplaceAgrees(audioPath);
    WholePathReplaceAgrees(TxtPath(audioPath));
    ReplaceIdempotent(audioPath);
  }

  /** The last dot of the file name is the last dot of the path, and a path
      whose file name has no dot has its last dot in the directory part. */
  lemma {:induction false} BaseDot(audioPath: string)
    ensures var k := LastIndexOf(audioPath, '/');
            var d := LastIndexOf(audioPath[k + 1..], '.');
            var e := LastIndexOf(audioPath, '.');
            (d >= 0 ==> e == k + 1 + d) && (d < 0 ==> e <= k)
  {
    var k := LastIndexOf(audioPath, '/');
    LastIndexSplit(audioPath, k + 1, '.');
  }

  /** The path has a final extension exactly when its file name has one. */
  lemma {:induction false} SameExtension(audioPath: string)
    ensures var k := LastIndexOf(audioPath, '/');
            HasFinalExtension(audioPath) <==> HasFinalExtension(audioPath[k + 1..])
  {
    BaseDot(audioPath);
    SlashFreeBase(audioPath);
  }

  /** server.js applies the same regular expression to the whole path instead
      of the file name; for a normalised path both give the same result. */
  lemma {:induction false} WholePathReplaceAgrees(audioPath: string)
    ensures ReplaceFinalExtension(audioPath) == TxtPath(audioPath)
  {
    var k := LastIndexOf(audioPath, '/');
    SameExtension(audioPath);
    if HasFinalExtension(audioPath[k + 1..]) {
      BaseDot(audioPath);
      ExtensionCase(audioPath, k, LastIndexOf(audioPath, '.'));
    } else {
      TxtPathNoExtension(audioPath);
    }
  }

  /** The transcript path when the file name has a final extension, whose dot
      is at `e` in the whole path. */
  lemma {:induction false} ExtensionCase(audioPath: string, k: int, e: int)
    requires -1 <= k < e < |audioPath|
    requires k == LastIndexOf(audioPath, '/')
    requires HasFinalExtension(audioPath[k + 1..])
    requires e == k + 1 + LastIndexOf(audioPath[k + 1..], '.')
    ensures TxtPath(audioPath) == audioPath[..e] + ".txt"
  {
    var base := audioPath[k + 1..];
    assert ReplaceFinalExtension(base) == base[..e - k - 1] + ".txt";
    assert TxtPath(audioPath) == audioPath[..k + 1] + (base[..e - k - 1] + ".txt");
    Assemble(audioPath, k + 1, e - k - 1, ".txt");
  }

  /** Splitting a string at `n` and cutting the second half at `d` is
      cutting it at `n + d`. */
  lemma {:induction false} Assemble(s: string, n: nat, d: nat, t: string)
    requires n + d <= |s|
    ensures s[..n] + (s[n..][..d] + t) == s[..n + d] + t
  {
  }

  const NoTranscriptMessage := "No se encontró el archivo de transcripción generado por Whisper."

  /** utils.js `transcribeAudio(audioPath)`: reads the transcript Whisper left
      beside the audio file; `disk` maps existing paths to their contents. */
  function TranscribeAudio(audioPath: string, disk: map<string, string>): (r: Result<string>)
    ensures r.Ok? <==> TxtPath(audioPath) in disk
    ensures r.Ok? ==> r.value == disk[TxtPath(audioPath)]
    ensures r.Err? ==> r.msg == NoTranscriptMessage
  {
    var txt := TxtPath(audioPath);
    if txt in disk then Ok(disk[txt]) else Err(NoTranscriptMessage)
  }

  // ---------------------------------------------------------------------
  // translateText

  /** What a backend call produced: the fetch failed, or a response arrived
      whose `ok` flag is given and whose `.json()` either threw (Err) or
      yielded the relevant field, absent or present. */
  datatype Reply = NetworkError(msg: string) | Response(ok: bool, field: Result<Option<string>>)

  const TranslationErrorPrefix := "Error en traducción: "

  /** The LibreTranslate answer `translateText` accepts: an ok response with
      a truthy `translatedText`. */
  function PrimaryAnswer(libre: Reply): Option<string>
  {
    if libre.Response? && libre.ok && libre.field.Ok? && Truthy(libre.field.value)
    then Some(libre.field.value.value) else None
  }

  /** The Lingva answer: any response (its status is not checked) with a
      truthy `translation`. */
  function FallbackAnswer(lingva: Reply): Option<string>
  {
    if lingva.Response? && lingva.field.Ok? && Truthy(lingva.field.value)
    then Some(lingva.field.value.value) else None
  }

  /** The message of the error the Lingva attempt throws. */
  function FallbackError(lingva: Reply): string
  {
    match lingva
    case NetworkError(m) => m
    case Response(_, field) => if field.Err? then field.msg else "Respuesta inesperada de Lingva"
  }

  /** `translateText(text, targetLanguage, useLingva)` given the replies of
      the two backends. `useLingva` is never consulted. */
  function TranslateText(text: string, target: string, useLingva: bool, libre: Reply, lingva: Reply): (r: Result<string>)
    ensures PrimaryAnswer(libre).Some? ==> r == Ok(PrimaryAnswer(libre).value)
    ensures PrimaryAnswer(libre).None? && FallbackAnswer(lingva).Some? ==> r == Ok(FallbackAnswer(lingva).value)
    ensures r.Err? <==> PrimaryAnswer(libre).None? && FallbackAnswer(lingva).None?
    ensures r.Err? ==> r.msg == TranslationErrorPrefix + FallbackError(lingva)
    ensures r.Ok? ==> r.value != ""
  {
    match PrimaryAnswer(libre)
    case Some(t) => Ok(t)
    case None =>
      match FallbackAnswer(lingva)
      case Some(t) => Ok(t)
      case None => Err(TranslationErrorPrefix + FallbackError(lingva))
  }

  /** The `useLingva` flag does not change the outcome. */
  lemma {:induction false} UseLingvaIgnored(text: string, target: string, libre: Reply, lingva: Reply)
    ensures TranslateText(text, target, true, libre, lingva) == TranslateText(text, target, false, libre, lingva)
  {
  }

  /** A 503 from LibreTranslate falls through to Lingva's answer. */
  lemma {:induction false} PrimaryDownUsesFallback(text: string, target: string, libreBody: Result<Option<string>>, t: string)
    requires t != ""
    ensures TranslateText(text, target, false, Response(false, libreBody), Response(true, Ok(Some(t)))) == Ok(t)
  {
  }

  // ---------------------------------------------------------------------
  // cleanupTempFiles

  /** `cleanupTempFiles(filePath)` on the set of existing files: the file is
      removed if it exists and the removal works; a failed removal is logged
      and swallowed. It returns no error in any case. */
  function CleanupTempFiles(files: set<string>, path: string, removeWorks: bool): (r: set<string>)
    ensures r <= files && files - r <= {path}
    ensures path !in files ==> r == files
    ensures removeWorks ==> path !in r
  {
    if path in files && removeWorks then files - {path} else files
  }

  /** Cleaning the same path again is harmless. */
  lemma {:induction false} CleanupRepeatable(files: set<string>, path: string, again: bool)
    ensures CleanupTempFiles(CleanupTempFiles(files, path, true), path, again) == CleanupTempFiles(files, path, true)
  {
  }
}
