// Bulk paper generation (handleBulkGenerate in App.tsx). In multi-stream mode
// every selected stream is turned into a question paper and a solutions paper,
// or into one error line when its pool is empty or the configuration selects
// nothing from it; the remaining streams still run. In multi-set mode one
// stream is checked up front and then turned into N sets with numbered file
// names. Whatever files were produced are bundled into one archive; an alert
// reports errors or that nothing was produced.
//
// The store's answers, the random draws of every selection and the date are
// parameters. The documents are described by what they render: the selection
// together with the configuration as entered, under the subject of the stream
// or the set.

module AppBulk {

  import opened Types
  import opened Text
  import opened AppSelection
  import opened ExportService
  import DbService
  import AppSession

  /** The text that marks the session entry of the stream list. */
  const SessionMarker: string := "Current Session"

  /** Where a bulk run takes its questions from: the session bank, or the store by stream name. */
  datatype Sources = Sources(bank: seq<Question>, connected: bool, fetch: string -> DbService.Query)

  /** The questions of a stream: the session bank for the session entry, the store's answer otherwise. */
  function Pool(src: Sources, stream: string): seq<Question> {
    if Contains(stream, SessionMarker) then src.bank
    else DbService.FetchQuestionsByStream(src.connected, src.fetch(stream))
  }

  // ---------------------------------------------------------------- names and messages

  /** The characters `.` does not match in a JavaScript regular expression. */
  predicate IsLineTerminator(c: char) {
    c == '\n' || c == '\r' || c == '\U{2028}' || c == '\U{2029}'
  }

  /** Where the line that position `from` lies on ends. */
  function LineEnd(s: string, from: nat): (k: nat)
    requires from <= |s|
    ensures from <= k <= |s|
    ensures forall j :: from <= j < k ==> !IsLineTerminator(s[j])
    ensures k < |s| ==> IsLineTerminator(s[k])
    decreases |s| - from
  {
    if from == |s| || IsLineTerminator(s[from]) then from else LineEnd(s, from + 1)
  }

  // `s.replace(/Current Session.*/, "Mixed Questions")`: the first marker and the
  // rest of its line are replaced.
  function MixedSubject(s: string): (r: string)
    ensures !Contains(s, SessionMarker) ==> r == s
  {
    match IndexOf(s, SessionMarker)
    case None => s
    case Some(k) => s[..k] + "Mixed Questions" + s[LineEnd(s, k + |SessionMarker|)..]
  }

  /** The session entry of the stream list becomes the subject "Mixed Questions". */
  lemma MixedSubjectOfSessionEntry(bankSize: nat)
    ensures MixedSubject(AppSession.SessionEntry(bankSize)) == "Mixed Questions"
  {
    var e := AppSession.SessionEntry(bankSize);
    var digits := NatToString(bankSize);
    assert e == "Current Session (" + digits + " Qs)";
    assert MatchesAt(e, SessionMarker, 0) by {
      assert e[..15] == SessionMarker;
    }
    forall j | 15 <= j < |e|
      ensures !IsLineTerminator(e[j])
    {
      if j < 17 {
        assert e[j] == "Current Session ("[j];
      } else if j < 17 + |digits| {
        assert e[j] == digits[j - 17];
      } else {
        assert e[j] == " Qs)"[j - 17 - |digits|];
      }
    }
    assert LineEnd(e, 15) == |e|;
  }

  function KindName(k: QuestionKind): string {
    match k
    case MCQ => "MCQ"
    case MSQ => "MSQ"
    case NAT => "NAT"
  }

  /** `${k}: Req ${v.requested}/Avail ${v.available}` for one statistics entry. */
  function StatLine(entry: (QuestionKind, Stat)): string {
    KindName(entry.0) + ": Req " + NatToString(entry.1.requested) + "/Avail " + NatToString(entry.1.available)
  }

  /** A run of digits followed by `/` splits only one way. */
  lemma DigitsThenSlash(d1: string, r1: string, d2: string, r2: string)
    requires forall i :: 0 <= i < |d1| ==> '0' <= d1[i] <= '9'
    requires forall i :: 0 <= i < |d2| ==> '0' <= d2[i] <= '9'
    requires r1 != [] && r1[0] == '/' && r2 != [] && r2[0] == '/'
    requires d1 + r1 == d2 + r2
    ensures d1 == d2 && r1 == r2
  {
    var t := d1 + r1;
    assert d1 == t[..|d1|] && d2 == t[..|d2|];
    assert r1 == t[|d1|..] && r2 == t[|d2|..];
  }

  /** A statistics line is the three-letter kind, `: Req `, then the requested count's digits and the rest. */
  lemma StatLineParts(e: (QuestionKind, Stat))
    ensures |StatLine(e)| >= 9 && StatLine(e)[..3] == KindName(e.0)
    ensures StatLine(e)[9..] == NatToString(e.1.requested) + ("/Avail " + NatToString(e.1.available))
  {
    var head := KindName(e.0) + ": Req ";
    var tail := NatToString(e.1.requested) + ("/Avail " + NatToString(e.1.available));
    assert |head| == 9;
    assert StatLine(e) == head + tail;
  }

  /** A statistics line can be read back: it names the kind, the requested and the available count. */
  lemma StatLineInjective(a: (QuestionKind, Stat), b: (QuestionKind, Stat))
    requires StatLine(a) == StatLine(b)
    ensures a == b
  {
    StatLineParts(a);
    StatLineParts(b);
    var va, vb := NatToString(a.1.available), NatToString(b.1.available);
    DigitsThenSlash(NatToString(a.1.requested), "/Avail " + va, NatToString(b.1.requested), "/Avail " + vb);
    assert va == ("/Avail " + va)[7..] && vb == ("/Avail " + vb)[7..];
    NatToStringInjective(a.1.requested, b.1.requested);
    NatToStringInjective(a.1.available, b.1.available);
  }

  /** The statistics entries, in insertion order, joined with commas. */
  function Details(stats: Stats): (d: string)
    ensures stats == [] ==> d == ""
    ensures |stats| == 1 ==> d == StatLine(stats[0])
  {
    Join(seq(|stats|, i requires 0 <= i < |stats| => StatLine(stats[i])), ", ")
  }

  /** Each further statistics entry adds `, ` and its line to the details. */
  lemma DetailsSnoc(stats: Stats, e: (QuestionKind, Stat))
    requires stats != []
    ensures Details(stats + [e]) == Details(stats) + ", " + StatLine(e)
  {
    var ls := seq(|stats| + 1, i requires 0 <= i < |stats| + 1 => StatLine((stats + [e])[i]));
    assert ls[..|stats|] == seq(|stats|, i requires 0 <= i < |stats| => StatLine(stats[i]));
  }

  // ---------------------------------------------------------------- multi-stream

  /** What one stream of a multi-stream run yields: its two papers, or one error line. */
  datatype StreamResult = StreamPapers(paper: ExportFile, solutions: ExportFile) | StreamError(message: string)

  /**
   * One stream: no questions, or a configuration that selects none of them,
   * is an error line; otherwise the selection is rendered under the stream's
   * subject (the session entry becomes "Mixed Questions") into
   * `<name>_QP.pdf` and `<name>_SOL.pdf`, white-space runs in the name
   * replaced by `_`, and the session entry named Current_Session. The
   * configuration is rendered as entered.
   */
  function StreamOutcome(src: Sources, config: PaperConfig, stream: string, draws: seq<seq<nat>>): (r: StreamResult)
    ensures var pool := Pool(src, stream);
      && (r.StreamError? <==> |pool| == 0 || Supply(pool, config.sections) == 0)
      && (r.StreamPapers? ==>
            && r.paper.content.questions == Selection(pool, config.sections, draws)
            && r.solutions.content.questions == r.paper.content.questions
            && r.paper.content.config == config.(subjectName := MixedSubject(stream))
            && r.solutions.content.config == r.paper.content.config
            && r.paper.filename
               == ReplaceWhitespaceRuns(if Contains(stream, SessionMarker) then "Current_Session" else stream, "_") + "_QP.pdf"
            && r.solutions.filename
               == ReplaceWhitespaceRuns(if Contains(stream, SessionMarker) then "Current_Session" else stream, "_") + "_SOL.pdf")
  {
    var pool := Pool(src, stream);
    if |pool| == 0 then StreamError("Stream '" + stream + "': No questions found.")
    else
      var streamConfig := config.(subjectName := MixedSubject(stream));
      var selected := Selection(pool, config.sections, draws);
      if |selected| == 0 then
        StreamError("Stream '" + stream + "': Config mismatch (" + Details(StatsOf(pool, config.sections)) + ")")
      else
        var name := ReplaceWhitespaceRuns(if Contains(stream, SessionMarker) then "Current_Session" else stream, "_");
        StreamPapers(ExportFile(name + "_QP.pdf", QuestionPaperPdf(selected, streamConfig)),
                     ExportFile(name + "_SOL.pdf", SolutionsPdf(selected, streamConfig)))
  }

  /** The outcomes of the streams, in order; stream k draws its selection from `draws(k)`. */
  function StreamResults(src: Sources, config: PaperConfig, streams: seq<string>, draws: nat -> seq<seq<nat>>)
    : (rs: seq<StreamResult>)
    ensures |rs| == |streams|
    ensures forall k :: 0 <= k < |rs| ==> rs[k] == StreamOutcome(src, config, streams[k], draws(k))
  {
    seq(|streams|, k requires 0 <= k < |streams| => StreamOutcome(src, config, streams[k], draws(k)))
  }

  /** The files of the successful streams, two per stream, in stream order. */
  function PapersOf(rs: seq<StreamResult>): seq<ExportFile> {
    if rs == [] then []
    else
      var last := rs[|rs| - 1];
      PapersOf(rs[..|rs| - 1]) + (if last.StreamPapers? then [last.paper, last.solutions] else [])
  }

  /** The error lines of the failed streams, in stream order. */
  function ErrorsOf(rs: seq<StreamResult>): seq<string> {
    if rs == [] then []
    else
      var last := rs[|rs| - 1];
      ErrorsOf(rs[..|rs| - 1]) + (if last.StreamError? then [last.message] else [])
  }

  /** Every stream is accounted for exactly once: two files if it succeeded, one error line if not. */
  lemma {:induction false} StreamAccounting(rs: seq<StreamResult>)
    ensures |ErrorsOf(rs)| <= |rs|
    ensures |PapersOf(rs)| == 2 * (|rs| - |ErrorsOf(rs)|)
    decreases |rs|
  {
    if rs != [] {
      StreamAccounting(rs[..|rs| - 1]);
    }
  }

  /** The streams are independent: a run over two lists yields the files and errors of each, in order. */
  lemma {:induction false} ResultsAppend(xs: seq<StreamResult>, ys: seq<StreamResult>)
    ensures PapersOf(xs + ys) == PapersOf(xs) + PapersOf(ys)
    ensures ErrorsOf(xs + ys) == ErrorsOf(xs) + ErrorsOf(ys)
    decreases |ys|
  {
    if ys == [] {
      assert xs + ys == xs;
    } else {
      var zs := xs + ys;
      assert zs[..|zs| - 1] == xs + ys[..|ys| - 1];
      ResultsAppend(xs, ys[..|ys| - 1]);
    }
  }

  // ---------------------------------------------------------------- multi-set

  /** `String.fromCharCode(64 + i)`: A for set 1, B for set 2, and so on; a lone surrogate code is not a character here. */
  function SetLetter(i: nat): char {
    var code := (64 + i) % 0x1_0000;
    if code < 0xD800 || 0xE000 <= code then code as char else '\U{FFFD}'
  }

  /** The first twenty-six sets are lettered A to Z, each with its own letter. */
  lemma SetLetterAlphabet(i: nat, j: nat)
    requires 1 <= i <= 26 && 1 <= j <= 26
    ensures 'A' <= SetLetter(i) <= 'Z' && SetLetter(i) as int - 'A' as int == i - 1
    ensures SetLetter(i) == SetLetter(j) ==> i == j
  {
  }

  /** The subject of set i: the target with its session marker shortened to "Mixed", then " - Set <letter>". */
  function SetSubject(target: string, i: nat): string {
    ReplaceFirst(target, SessionMarker, "Mixed") + " - Set " + [SetLetter(i)]
  }

  /** A set's subject ends in ` - Set <letter>`; a target without the session marker stands in front unchanged. */
  lemma SetSubjectShape(target: string, i: nat)
    ensures var s := SetSubject(target, i);
      && |s| >= 8 && s[|s| - 8..] == " - Set " + [SetLetter(i)]
      && (!Contains(target, SessionMarker) ==> s == target + " - Set " + [SetLetter(i)])
  {
  }

  /** Within the first twenty-six sets, different sets get different subjects. */
  lemma SetSubjectsDistinct(target: string, i: nat, j: nat)
    requires 1 <= i <= 26 && 1 <= j <= 26 && i != j
    ensures SetSubject(target, i) != SetSubject(target, j)
  {
    var s, t := SetSubject(target, i), SetSubject(target, j);
    SetSubjectShape(target, i);
    SetSubjectShape(target, j);
    SetLetterAlphabet(i, j);
    assert s[|s| - 1] == SetLetter(i) && t[|t| - 1] == SetLetter(j);
  }

  /** The session entry starts with the marker, followed by the bank size in parentheses. */
  lemma SessionEntryStartsWithMarker(bankSize: nat)
    ensures var e := AppSession.SessionEntry(bankSize);
      IndexOf(e, SessionMarker) == Some(0) && e[|SessionMarker|..] == " (" + NatToString(bankSize) + " Qs)"
  {
    var e := AppSession.SessionEntry(bankSize);
    var rest := " (" + NatToString(bankSize) + " Qs)";
    assert e == SessionMarker + rest;
    assert MatchesAt(e, SessionMarker, 0) by {
      assert e[..15] == SessionMarker;
    }
  }

  /** The session entry's sets are subjects `Mixed (<n> Qs) - Set <letter>`. */
  lemma SetSubjectOfSessionEntry(bankSize: nat, i: nat)
    ensures SetSubject(AppSession.SessionEntry(bankSize), i)
      == "Mixed" + " (" + NatToString(bankSize) + " Qs)" + " - Set " + [SetLetter(i)]
  {
    var e := AppSession.SessionEntry(bankSize);
    SessionEntryStartsWithMarker(bankSize);
    assert Contains(e, SessionMarker);
  }

  const PaperSuffix: string := "_QP.pdf"
  const SolutionsSuffix: string := "_SOL.pdf"

  /** `${sanitizedStream}_Set_${i}<suffix>`. */
  function SetFileName(target: string, i: nat, suffix: string): string {
    ReplaceWhitespaceRuns(target, "_") + "_Set_" + NatToString(i) + suffix
  }

  /** A set's file name ends in its suffix and has no white space before it. */
  lemma SetFileNameShape(target: string, i: nat, suffix: string)
    ensures var f := SetFileName(target, i, suffix);
      && |f| >= |suffix| && f[|f| - |suffix|..] == suffix
      && forall j :: 0 <= j < |f| - |suffix| ==> !IsWhitespace(f[j])
  {
    var name := ReplaceWhitespaceRuns(target, "_");
    var digits := NatToString(i);
    var stem := name + "_Set_" + digits;
    forall j | 0 <= j < |stem|
      ensures !IsWhitespace(stem[j])
    {
      if j < |name| {
        assert name[j] in name;
      } else if j >= |name| + 5 {
        assert stem[j] == digits[j - |name| - 5];
      }
    }
    assert SetFileName(target, i, suffix) == stem + suffix;
  }

  /** The two papers of set i. */
  function SetPapers(pool: seq<Question>, config: PaperConfig, target: string, draws: seq<seq<nat>>, i: nat)
    : seq<ExportFile>
  {
    var setConfig := config.(subjectName := SetSubject(target, i));
    var selected := Selection(pool, config.sections, draws);
    [ExportFile(SetFileName(target, i, PaperSuffix), QuestionPaperPdf(selected, setConfig)),
     ExportFile(SetFileName(target, i, SolutionsSuffix), SolutionsPdf(selected, setConfig))]
  }

  /** The files of sets 1 to n, two per set, in set order. */
  function SetsFiles(pool: seq<Question>, config: PaperConfig, target: string, draws: nat -> seq<seq<nat>>, n: nat)
    : (files: seq<ExportFile>)
    ensures |files| == 2 * n
  {
    if n == 0 then [] else SetsFiles(pool, config, target, draws, n - 1) + SetPapers(pool, config, target, draws(n), n)
  }

  /** Which paper of its set file k of a run is: even positions hold question papers, odd ones solutions. */
  function SuffixAt(k: nat): string {
    if k % 2 == 0 then PaperSuffix else SolutionsSuffix
  }

  /** File k of a run is paper k % 2 of set k / 2 + 1: the question paper first, then the solutions. */
  lemma {:induction false} SetsFileAt(pool: seq<Question>, config: PaperConfig, target: string,
                                      draws: nat -> seq<seq<nat>>, n: nat, k: nat)
    requires k < 2 * n
    ensures SetsFiles(pool, config, target, draws, n)[k] == SetPapers(pool, config, target, draws(k / 2 + 1), k / 2 + 1)[k % 2]
    decreases n
  {
    var prev := SetsFiles(pool, config, target, draws, n - 1);
    var last := SetPapers(pool, config, target, draws(n), n);
    assert SetsFiles(pool, config, target, draws, n) == prev + last;
    if k < 2 * (n - 1) {
      SetsFileAt(pool, config, target, draws, n - 1, k);
      assert (prev + last)[k] == prev[k];
    } else if k == 2 * (n - 1) {
      assert k / 2 + 1 == n && k % 2 == 0;
      assert (prev + last)[k] == last[0];
    } else {
      assert k == 2 * (n - 1) + 1;
      assert k / 2 + 1 == n && k % 2 == 1;
      assert (prev + last)[k] == last[1];
    }
  }

  /**
   * File 2(i-1) is the question paper of set i and file 2(i-1)+1 its
   * solutions; both are named after set i and render set i's own selection
   * with the configuration as entered under set i's subject.
   */
  lemma SetsFileNameAt(pool: seq<Question>, config: PaperConfig, target: string,
                       draws: nat -> seq<seq<nat>>, n: nat, k: nat)
    requires k < 2 * n
    ensures var f := SetsFiles(pool, config, target, draws, n)[k];
      && f.filename == SetFileName(target, k / 2 + 1, SuffixAt(k))
      && f.content.config == config.(subjectName := SetSubject(target, k / 2 + 1))
      && f.content.questions == Selection(pool, config.sections, draws(k / 2 + 1))
      && (k % 2 == 0 <==> f.content.QuestionPaperPdf?)
  {
    SetsFileAt(pool, config, target, draws, n, k);
  }

  /** The two suffixes differ in their last seven characters, so a name ending in one does not end in the other. */
  lemma SuffixDetermines(x: string, y: string, s: string, t: string)
    requires s == PaperSuffix || s == SolutionsSuffix
    requires t == PaperSuffix || t == SolutionsSuffix
    requires x + s == y + t
    ensures x == y && s == t
  {
    var w := x + s;
    assert w[|w| - 7..] == s[|s| - 7..] && w[|w| - 7..] == t[|t| - 7..];
    assert x == w[..|x|] && y == w[..|y|];
  }

  lemma Regroup(prefix: string, a: string, b: string)
    ensures prefix + a + b == prefix + (a + b)
  {
  }

  /** Equal strings with the same prefix agree after it. */
  lemma CancelPrefix(prefix: string, a: string, b: string)
    requires prefix + a == prefix + b
    ensures a == b
  {
    assert a == (prefix + a)[|prefix|..] && b == (prefix + b)[|prefix|..];
  }

  /** Two set file names agree only for the same set and the same kind of paper. */
  lemma SetFileNamesDistinct(target: string, i: nat, j: nat, s: string, t: string)
    requires s == PaperSuffix || s == SolutionsSuffix
    requires t == PaperSuffix || t == SolutionsSuffix
    requires SetFileName(target, i, s) == SetFileName(target, j, t)
    ensures i == j && s == t
  {
    var x, y := NatToString(i), NatToString(j);
    var prefix := ReplaceWhitespaceRuns(target, "_") + "_Set_";
    Regroup(prefix, x, s);
    Regroup(prefix, y, t);
    CancelPrefix(prefix, x + s, y + t);
    SuffixDetermines(x, y, s, t);
    NatToStringInjective(i, j);
  }

  /** No two files of a multi-set run share a name. */
  lemma SetsFilesDistinct(pool: seq<Question>, config: PaperConfig, target: string,
                          draws: nat -> seq<seq<nat>>, n: nat, a: nat, b: nat)
    requires a < b < 2 * n
    ensures SetsFiles(pool, config, target, draws, n)[a].filename != SetsFiles(pool, config, target, draws, n)[b].filename
  {
    SetsFileNameAt(pool, config, target, draws, n, a);
    SetsFileNameAt(pool, config, target, draws, n, b);
    var i, j := a / 2 + 1, b / 2 + 1;
    if SetFileName(target, i, SuffixAt(a)) == SetFileName(target, j, SuffixAt(b)) {
      SetFileNamesDistinct(target, i, j, SuffixAt(a), SuffixAt(b));
    }
  }

  // ---------------------------------------------------------------- the run

  /** What a bulk run leaves behind: the files, the error lines, the archive, and the alert shown. */
  datatype BulkOutcome = BulkOutcome(files: seq<ExportFile>, errors: seq<string>, archive: Option<Archive>, alert: Option<string>)

  /** The closing report: an archive when there are files, and an alert for errors or for an empty run. */
  function Report(files: seq<ExportFile>, errors: seq<string>, isoDate: string): (r: BulkOutcome)
    ensures r.files == files && r.errors == errors
    ensures r.archive.Some? <==> files != []
    ensures r.archive == CreateZipBundle(files, isoDate)
    ensures r.alert.None? <==> files != [] && errors == []
    ensures files == [] && errors == [] ==> r.alert == Some("No files generated. Check logs.")
  {
    if |files| > 0 then
      BulkOutcome(files, errors, CreateZipBundle(files, isoDate),
        if |errors| > 0
        then Some("Generated " + NatToString(|files| / 2) + " papers with some errors:\n\n" + Join(errors, "\n"))
        else None)
    else
      BulkOutcome(files, errors, None,
        if |errors| > 0 then Some("Generation Failed.\n\n" + Join(errors, "\n"))
        else Some("No files generated. Check logs."))
  }

  /** The multi-set branch: aborts with an alert on an empty pool or an empty test selection, else runs the sets. */
  function MultiSetRun(src: Sources, config: PaperConfig, target: string, setCounts: int,
                       draws: nat -> seq<seq<nat>>, testDraws: seq<seq<nat>>, isoDate: string): (r: BulkOutcome)
    ensures r.errors == []
    ensures var pool := Pool(src, target);
      |pool| == 0 || Supply(pool, config.sections) == 0 ==> r.files == [] && r.archive.None? && r.alert.Some?
    ensures var pool := Pool(src, target);
      |pool| > 0 && Supply(pool, config.sections) > 0 ==>
        && r.files == SetsFiles(pool, config, target, draws, if setCounts > 0 then setCounts else 0)
        && (setCounts > 0 ==> r.alert.None? && r.archive.Some?)
  {
    var pool := Pool(src, target);
    if |pool| == 0 then BulkOutcome([], [], None, Some("No questions found for stream: " + target + "."))
    else if |Selection(pool, config.sections, testDraws)| == 0 then
      BulkOutcome([], [], None, Some("Config Mismatch: " + Details(StatsOf(pool, config.sections))))
    else Report(SetsFiles(pool, config, target, draws, if setCounts > 0 then setCounts else 0), [], isoDate)
  }

  /** The branch condition of multi-set mode: a non-empty target and a non-zero set count. */
  predicate RunsSets(mode: BulkMode, selection: BulkSelection) {
    mode == MultiSet && Truthy(selection.targetStream) && selection.setCounts.Some? && selection.setCounts.value != 0
  }

  /** handleBulkGenerate as a whole. */
  function BulkGenerate(mode: BulkMode, config: PaperConfig, selection: BulkSelection, src: Sources,
                        draws: nat -> seq<seq<nat>>, testDraws: seq<seq<nat>>, isoDate: string): (r: BulkOutcome)
    ensures r.archive.Some? <==> r.files != []
    ensures r.errors != [] ==> mode == MultiStream && selection.streams.Some?
    ensures !(mode == MultiStream && selection.streams.Some?) && !RunsSets(mode, selection) ==>
      r == BulkOutcome([], [], None, Some("No files generated. Check logs."))
  {
    if mode == MultiStream && selection.streams.Some? then
      var rs := StreamResults(src, config, selection.streams.value, draws);
      Report(PapersOf(rs), ErrorsOf(rs), isoDate)
    else if RunsSets(mode, selection) then
      MultiSetRun(src, config, selection.targetStream.value, selection.setCounts.value, draws, testDraws, isoDate)
    else Report([], [], isoDate)
  }

  /**
   * The archive exists exactly when some file was produced, and then has an
   * entry of every file's name; a multi-stream run produces two files per stream
   * that did not fail, and a multi-set run that did not abort produces two
   * files per set, all named differently, so its archive holds every one.
   */
  lemma BulkGenerateFiles(mode: BulkMode, config: PaperConfig, selection: BulkSelection, src: Sources,
                          draws: nat -> seq<seq<nat>>, testDraws: seq<seq<nat>>, isoDate: string)
    ensures var out := BulkGenerate(mode, config, selection, src, draws, testDraws, isoDate);
      && (out.archive.Some? <==> out.files != [])
      && (out.archive.Some? ==> forall k :: 0 <= k < |out.files| ==> out.files[k].filename in out.archive.value.entries)
      && (mode == MultiStream && selection.streams.Some? ==>
            |out.files| == 2 * (|selection.streams.value| - |out.errors|))
      && (RunsSets(mode, selection) ==>
            var pool := Pool(src, selection.targetStream.value);
            var n := selection.setCounts.value;
            && out.errors == []
            && (|pool| == 0 || Supply(pool, config.sections) == 0 ==> out.files == [] && out.alert.Some?)
            && (|pool| > 0 && Supply(pool, config.sections) > 0 && n > 0 ==>
                  |out.files| == 2 * n && out.alert.None?)
            && (out.archive.Some? ==> forall k :: 0 <= k < |out.files| ==>
                  out.archive.value.entries[out.files[k].filename] == out.files[k].content))
  {
    if mode == MultiStream && selection.streams.Some? {
      StreamAccounting(StreamResults(src, config, selection.streams.value, draws));
    } else if RunsSets(mode, selection) {
      var pool := Pool(src, selection.targetStream.value);
      var n := selection.setCounts.value;
      if |pool| > 0 && Supply(pool, config.sections) > 0 && n > 0 {
        var files := SetsFiles(pool, config, selection.targetStream.value, draws, n);
        forall a, b | 0 <= a < b < |files|
          ensures files[a].filename != files[b].filename
        {
          SetsFilesDistinct(pool, config, selection.targetStream.value, draws, n, a, b);
        }
      }
    }
  }

  /** The body of the multi-stream loop for one stream. */
  method GenerateForStream(src: Sources, config: PaperConfig, stream: string, draws: seq<seq<nat>>)
    returns (r: StreamResult)
    ensures r == StreamOutcome(src, config, stream, draws)
  {
    var questions: seq<Question>;
    var streamNameForFile: string;
    if Contains(stream, SessionMarker) {
      questions := src.bank;
      streamNameForFile := "Current_Session";
    } else {
      questions := DbService.FetchQuestionsByStream(src.connected, src.fetch(stream));
      streamNameForFile := stream;
    }
    if |questions| == 0 {
      return StreamError("Stream '" + stream + "': No questions found.");
    }
    var streamConfig := config.(subjectName := MixedSubject(stream));
    var res := SelectQuestionsForPaper(questions, streamConfig, draws);
    if |res.selected| == 0 {
      return StreamError("Stream '" + stream + "': Config mismatch (" + Details(res.stats) + ")");
    }
    var name := ReplaceWhitespaceRuns(streamNameForFile, "_");
    r := StreamPapers(ExportFile(name + "_QP.pdf", QuestionPaperPdf(res.selected, streamConfig)),
                      ExportFile(name + "_SOL.pdf", SolutionsPdf(res.selected, streamConfig)));
  }

  /**
   * Two streams can share a file name: "A B" and "A_B" both sanitise to
   * "A_B", so their papers are written to the same archive entries and the
   * later stream's papers replace the earlier one's.
   */
  lemma StreamFileNamesCollide()
    ensures ReplaceWhitespaceRuns("A B", "_") == "A_B" == ReplaceWhitespaceRuns("A_B", "_")
  {
    assert LeadingWhitespace(" B") == 1 by {
      assert " B"[1..] == "B";
      assert LeadingWhitespace("B") == 0;
    }
    assert "A B"[1..] == " B" && " B"[1..] == "B" && "B"[1..] == [];
    assert "A_B"[1..] == "_B" && "_B"[1..] == "B";
    assert !IsWhitespace('A') && !IsWhitespace('_') && !IsWhitespace('B');
  }

  /** The papers of streams "A B" and "A_B", when both succeed, carry the same two file names. */
  lemma StreamPapersCollide(src: Sources, config: PaperConfig, d1: seq<seq<nat>>, d2: seq<seq<nat>>)
    requires StreamOutcome(src, config, "A B", d1).StreamPapers? && StreamOutcome(src, config, "A_B", d2).StreamPapers?
    ensures StreamOutcome(src, config, "A B", d1).paper.filename == StreamOutcome(src, config, "A_B", d2).paper.filename
    ensures StreamOutcome(src, config, "A B", d1).solutions.filename
         == StreamOutcome(src, config, "A_B", d2).solutions.filename
  {
    StreamFileNamesCollide();
    assert !Contains("A B", SessionMarker) && !Contains("A_B", SessionMarker);
  }

  /** Extending the results by the outcome of stream k adds its two files or its error line. */
  lemma ResultsSnoc(rs: seq<StreamResult>, k: nat)
    requires k < |rs|
    ensures PapersOf(rs[..k + 1]) == PapersOf(rs[..k]) + (if rs[k].StreamPapers? then [rs[k].paper, rs[k].solutions] else [])
    ensures ErrorsOf(rs[..k + 1]) == ErrorsOf(rs[..k]) + (if rs[k].StreamError? then [rs[k].message] else [])
  {
    assert rs[..k + 1][..k] == rs[..k];
  }

  /** The multi-stream loop: files and error lines are pushed stream by stream. */
  method GenerateStreams(src: Sources, config: PaperConfig, streams: seq<string>, draws: nat -> seq<seq<nat>>)
    returns (files: seq<ExportFile>, errors: seq<string>)
    ensures files == PapersOf(StreamResults(src, config, streams, draws))
    ensures errors == ErrorsOf(StreamResults(src, config, streams, draws))
  {
    files, errors := [], [];
    ghost var rs := StreamResults(src, config, streams, draws);
    var k := 0;
    while k < |streams|
      invariant 0 <= k <= |streams|
      invariant files == PapersOf(rs[..k]) && errors == ErrorsOf(rs[..k])
    {
      ResultsSnoc(rs, k);
      var r := GenerateForStream(src, config, streams[k], draws(k));
      assert r == rs[k];
      match r {
        case StreamPapers(paper, solutions) =>
          files := files + [paper, solutions];
        case StreamError(message) =>
          errors := errors + [message];
      }
      k := k + 1;
    }
    assert rs[..k] == rs;
  }

  /** The body of the multi-set loop for set i. */
  method GenerateSet(questions: seq<Question>, config: PaperConfig, target: string, i: nat, draws: seq<seq<nat>>)
    returns (papers: seq<ExportFile>)
    ensures papers == SetPapers(questions, config, target, draws, i)
  {
    var setConfig := config.(subjectName := ReplaceFirst(target, SessionMarker, "Mixed") + " - Set " + [SetLetter(i)]);
    var res := SelectQuestionsForPaper(questions, setConfig, draws);
    var sanitizedStream := ReplaceWhitespaceRuns(target, "_");
    papers := [ExportFile(sanitizedStream + "_Set_" + NatToString(i) + "_QP.pdf", QuestionPaperPdf(res.selected, setConfig)),
               ExportFile(sanitizedStream + "_Set_" + NatToString(i) + "_SOL.pdf", SolutionsPdf(res.selected, setConfig))];
  }

  /** The multi-set loop: sets 1 to setCounts, none when the count is negative. */
  method GenerateSets(questions: seq<Question>, config: PaperConfig, target: string, setCounts: int,
                      draws: nat -> seq<seq<nat>>)
    returns (files: seq<ExportFile>)
    ensures files == SetsFiles(questions, config, target, draws, if setCounts > 0 then setCounts else 0)
  {
    files := [];
    var i := 1;
    while i <= setCounts
      invariant 1 <= i && (setCounts > 0 ==> i <= setCounts + 1) && (setCounts <= 0 ==> i == 1)
      invariant files == SetsFiles(questions, config, target, draws, i - 1)
    {
      var papers := GenerateSet(questions, config, target, i, draws(i));
      files := files + papers;
      i := i + 1;
    }
  }

  /**
   * handleBulkGenerate: the multi-stream loop, or the multi-set branch that
   * checks the pool and a test selection before looping over the sets; then
   * the archive and the closing alert.
   */
  method HandleBulkGenerate(mode: BulkMode, config: PaperConfig, selection: BulkSelection, src: Sources,
                            draws: nat -> seq<seq<nat>>, testDraws: seq<seq<nat>>, isoDate: string)
    returns (outcome: BulkOutcome)
    ensures outcome == BulkGenerate(mode, config, selection, src, draws, testDraws, isoDate)
  {
    var files: seq<ExportFile> := [];
    var errors: seq<string> := [];
    if mode == MultiStream && selection.streams.Some? {
      files, errors := GenerateStreams(src, config, selection.streams.value, draws);
    } else if RunsSets(mode, selection) {
      var target := selection.targetStream.value;
      var questions: seq<Question>;
      if Contains(target, SessionMarker) {
        questions := src.bank;
      } else {
        questions := DbService.FetchQuestionsByStream(src.connected, src.fetch(target));
      }
      if |questions| == 0 {
        return BulkOutcome([], [], None, Some("No questions found for stream: " + target + "."));
      }
      var test := SelectQuestionsForPaper(questions, config, testDraws);
      if |test.selected| == 0 {
        return BulkOutcome([], [], None, Some("Config Mismatch: " + Details(test.stats)));
      }
      files := GenerateSets(questions, config, target, selection.setCounts.value, draws);
    }
    var archive: Option<Archive> := None;
    var alert: Option<string> := None;
    if |files| > 0 {
      archive := CreateZipBundle(files, isoDate);
      if |errors| > 0 {
        alert := Some("Generated " + NatToString(|files| / 2) + " papers with some errors:\n\n" + Join(errors, "\n"));
      }
    } else {
      if |errors| > 0 {
        alert := Some("Generation Failed.\n\n" + Join(errors, "\n"));
      } else {
        alert := Some("No files generated. Check logs.");
      }
    }
    outcome := BulkOutcome(files, errors, archive, alert);
  }
}
