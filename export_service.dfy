// What the export service emits, and in what order (services/exportService.ts):
// the copy-and-shuffle helper, the question paper (title block, marks table,
// instructions, then the sections walked with one cursor over the selected
// list), the solutions table, the spreadsheet rows and the guard of the zip
// bundle. Layout, fonts, pagination and rasterising are not modelled: a
// renderer oracle says whether a rich block could be turned into an image.

module ExportService {

  import opened Types
  import opened Seqs
  import opened Text
  import opened Shuffling

  // ---------------------------------------------------------------- shuffleArray

  /**
   * shuffleArray: copies the list and shuffles the copy in place, counting the
   * position down from the last to 1. The caller's list is a value and so is
   * never changed.
   */
  method ShuffleArray<T>(input: seq<T>, rand: seq<nat>) returns (r: seq<T>)
    ensures r == Shuffle(input, rand)
    ensures |r| == |input| && multiset(r) == multiset(input)
  {
    var arr := new T[|input|](k requires 0 <= k < |input| => input[k]);
    assert arr[..] == input;
    var i := arr.Length - 1;
    while i > 0
      invariant -1 <= i < arr.Length == |input|
      invariant Shuffled(arr[..], rand, i + 1) == Shuffle(input, rand)
    {
      var j := Pick(rand, i);
      ShuffledStep(arr[..], rand, i);
      Swap(arr, i, j);
      i := i - 1;
    }
    r := arr[..];
    ShuffleIsPermutation(input, rand);
  }

  // ---------------------------------------------------------------- marks table

  /** One row of the instructions table: kind, count, marks, negative marks, row total. */
  datatype MarksRow = MarksRow(kind: QuestionKind, count: nat, marksPerQuestion: real, negativeMarks: real, total: real)

  /** The closing row: total question count and total marks. */
  datatype TotalsRow = TotalsRow(totalQuestions: nat, totalMarks: real)

  function RowOf(sec: Section): MarksRow {
    MarksRow(sec.kind, sec.count, sec.marksPerQuestion, sec.negativeMarks, sec.count as real * sec.marksPerQuestion)
  }

  /** `config.sections.map(...)`: one row per section, in order. */
  function MarksTable(sections: seq<Section>): (rows: seq<MarksRow>)
    ensures |rows| == |sections|
    ensures forall i :: 0 <= i < |sections| ==> rows[i] == RowOf(sections[i])
  {
    seq(|sections|, i requires 0 <= i < |sections| => RowOf(sections[i]))
  }

  /** The `reduce` of count * marksPerQuestion over all sections. */
  function TotalMarks(sections: seq<Section>): real
  {
    if sections == [] then 0.0
    else
      var last := sections[|sections| - 1];
      TotalMarks(sections[..|sections| - 1]) + last.count as real * last.marksPerQuestion
  }

  function Totals(sections: seq<Section>): TotalsRow {
    TotalsRow(TotalCount(sections), TotalMarks(sections))
  }

  function SumRowCounts(rows: seq<MarksRow>): nat {
    if rows == [] then 0 else SumRowCounts(rows[..|rows| - 1]) + rows[|rows| - 1].count
  }

  function SumRowTotals(rows: seq<MarksRow>): real {
    if rows == [] then 0.0 else SumRowTotals(rows[..|rows| - 1]) + rows[|rows| - 1].total
  }

  /**
   * Each row's total is count times marks per question, and the totals row
   * is the sum of the section rows above it, in both columns.
   */
  lemma {:induction false} TotalsMatchRows(sections: seq<Section>)
    ensures forall i :: 0 <= i < |sections| ==>
      MarksTable(sections)[i].total == sections[i].count as real * sections[i].marksPerQuestion
    ensures Totals(sections).totalQuestions == SumRowCounts(MarksTable(sections))
    ensures Totals(sections).totalMarks == SumRowTotals(MarksTable(sections))
    decreases |sections|
  {
    if sections != [] {
      var init := sections[..|sections| - 1];
      TotalsMatchRows(init);
      assert MarksTable(sections)[..|sections| - 1] == MarksTable(init);
    }
  }

  // ---------------------------------------------------------------- question paper

  /** The fixed instruction lines printed under the marks table. */
  const Instructions: seq<string> := [
    "1. This question paper contains multiple sections as detailed above.",
    "2. NAT questions require a specific value.",
    "3. MSQ may have one or more correct options.",
    "4. Diagrams are included where necessary.",
    "5. Do not close the browser window."
  ]

  /** The first page: title, duration, marks table with its totals row, instructions. */
  datatype PaperHeader = PaperHeader(
    title: string, duration: int, table: seq<MarksRow>, totals: TotalsRow, instructions: seq<string>)

  function HeaderOf(config: PaperConfig): (h: PaperHeader)
    ensures h.title == "MODEL QUESTION PAPER: " + ToUpper(config.subjectName)
    ensures |h.table| == |config.sections| && h.totals == Totals(config.sections)
  {
    PaperHeader("MODEL QUESTION PAPER: " + ToUpper(config.subjectName), config.durationMins,
      MarksTable(config.sections), Totals(config.sections), Instructions)
  }

  /** A block handed to the rich renderer: a question (with its image, if any) or one labelled option. */
  datatype RenderRequest = QuestionBlock(text: string, imageUrl: Option<string>) | OptionBlock(tag: string, text: string)

  /**
   * The rich renderer: `available` is whether html2canvas is loaded,
   * `succeeds` whether rendering a block yields an image (a null result is a failure).
   */
  datatype Renderer = Renderer(available: bool, succeeds: RenderRequest -> bool)

  /** The text holds math markup: `$$`, a backslash or `$`. */
  predicate HasMath(s: string) {
    Contains(s, "$$") || Contains(s, "\\") || Contains(s, "$")
  }

  /** The question is tried on the rich path: math, a markdown image, or an image URL. */
  predicate WantsRichRender(q: Question) {
    HasMath(q.question) || Contains(q.question, "![") || Truthy(q.imageUrl)
  }

  datatype QuestionBody = RichImage(request: RenderRequest) | PlainText(text: string)

  datatype OptionLine = OptionImage(tag: string, text: string) | OptionText(tag: string, text: string)

  datatype AnswerArea = AnswerBox | Choices(lines: seq<OptionLine>)

  /** One numbered entry: `Q.<number>`, the question body, then an answer box or the options. */
  datatype Entry = Entry(number: nat, body: QuestionBody, answer: AnswerArea)

  /** A section banner (`SECTION <number>: <kind> (<marks> Marks)`) and the entries under it. */
  datatype SectionOut = SectionOut(number: nat, kind: QuestionKind, marksPerQuestion: real, entries: seq<Entry>)

  datatype PaperDocument = PaperDocument(header: PaperHeader, sections: seq<SectionOut>)

  function RequestFor(q: Question): RenderRequest {
    QuestionBlock(q.question, if Truthy(q.imageUrl) then q.imageUrl else None)
  }

  /** The question as an image when the rich path is tried and succeeds, otherwise as plain text. */
  function BodyOf(q: Question, r: Renderer): (b: QuestionBody)
    ensures b.RichImage? ==> WantsRichRender(q) && r.available && r.succeeds(RequestFor(q))
    ensures b.PlainText? ==> b.text == Trim(CollapseNewlines(q.question))
    ensures WantsRichRender(q) && r.available && r.succeeds(RequestFor(q)) ==> b.RichImage?
  {
    if WantsRichRender(q) && r.available && r.succeeds(RequestFor(q)) then RichImage(RequestFor(q))
    else PlainText(Trim(CollapseNewlines(q.question)))
  }

  function OptionLineOf(tag: string, text: string, r: Renderer): OptionLine {
    if HasMath(text) && r.available && r.succeeds(OptionBlock(tag, text)) then OptionImage(tag, text)
    else OptionText(tag, text)
  }

  function LineLabel(line: OptionLine): string {
    match line
    case OptionImage(tag, _) => tag
    case OptionText(tag, _) => tag
  }

  function LineText(line: OptionLine): string {
    match line
    case OptionImage(_, text) => text
    case OptionText(_, text) => text
  }

  /** What follows the question: the section kind, not the question's, decides. */
  function AnswerAreaOf(kind: QuestionKind, q: Question, r: Renderer): AnswerArea {
    if kind == NAT then AnswerBox
    else Choices([OptionLineOf("a)", q.options.a, r), OptionLineOf("b)", q.options.b, r),
                  OptionLineOf("c)", q.options.c, r), OptionLineOf("d)", q.options.d, r)])
  }

  function EntryOf(q: Question, number: nat, kind: QuestionKind, r: Renderer): Entry {
    Entry(number, BodyOf(q, r), AnswerAreaOf(kind, q, r))
  }

  /**
   * A NAT section emits an answer box and no options; every other section
   * emits exactly four options labelled a) to d), in that order, carrying the
   * texts of options a to d.
   */
  lemma AnswerAreaShape(kind: QuestionKind, q: Question, r: Renderer)
    ensures var area := AnswerAreaOf(kind, q, r);
      && (kind == NAT <==> area == AnswerBox)
      && (kind != NAT ==>
          && |area.lines| == 4
          && (LineLabel(area.lines[0]), LineText(area.lines[0])) == ("a)", q.options.a)
          && (LineLabel(area.lines[1]), LineText(area.lines[1])) == ("b)", q.options.b)
          && (LineLabel(area.lines[2]), LineText(area.lines[2])) == ("c)", q.options.c)
          && (LineLabel(area.lines[3]), LineText(area.lines[3])) == ("d)", q.options.d))
  {
  }

  /** The number of questions the cursor has consumed after the given sections. */
  function Consumed(qs: seq<Question>, sections: seq<Section>): (n: nat)
    ensures n <= |qs|
  {
    Min(TotalCount(sections), |qs|)
  }

  /** Where the cursor stands when section s starts. */
  function CursorStart(qs: seq<Question>, sections: seq<Section>, s: nat): nat
    requires s < |sections|
  {
    Consumed(qs, sections[..s])
  }

  /** Where the cursor stands when section s ends: never behind its start, never past the whole walk. */
  function CursorEnd(qs: seq<Question>, sections: seq<Section>, s: nat): (e: nat)
    requires s < |sections|
    ensures CursorStart(qs, sections, s) <= e <= Consumed(qs, sections)
  {
    assert sections[..s + 1][..s] == sections[..s];
    TotalCountPrefix(sections, s + 1);
    Consumed(qs, sections[..s + 1])
  }

  /**
   * Section s consumes the next min(count, remaining) questions; the first
   * section starts at 0 and each section starts where the previous ended, so
   * once the list is exhausted later sections get none.
   */
  lemma CursorSteps(qs: seq<Question>, sections: seq<Section>, s: nat)
    requires s < |sections|
    ensures CursorEnd(qs, sections, s) == Min(CursorStart(qs, sections, s) + sections[s].count, |qs|)
    ensures CursorEnd(qs, sections, s) - CursorStart(qs, sections, s)
            == Min(sections[s].count, |qs| - CursorStart(qs, sections, s))
    ensures s == 0 ==> CursorStart(qs, sections, s) == 0
    ensures s + 1 < |sections| ==> CursorEnd(qs, sections, s) == CursorStart(qs, sections, s + 1)
    ensures CursorStart(qs, sections, s) == |qs| ==> CursorEnd(qs, sections, s) == |qs|
  {
    assert sections[..s + 1][..s] == sections[..s];
  }

  /** Entries for the questions lo .. hi - 1 of the list, numbered lo + 1 .. hi. */
  function Entries(qs: seq<Question>, lo: nat, hi: nat, kind: QuestionKind, r: Renderer): (es: seq<Entry>)
    requires lo <= hi <= |qs|
    ensures |es| == hi - lo
    ensures forall j :: 0 <= j < |es| ==> es[j].number == lo + j + 1
  {
    var es := seq(hi - lo, j requires 0 <= j < hi - lo => EntryOf(qs[lo + j], lo + j + 1, kind, r));
    assert forall j :: 0 <= j < |es| ==> es[j] == EntryOf(qs[lo + j], lo + j + 1, kind, r);
    es
  }

  /** Entry j of the stretch lo .. hi is question lo + j, numbered lo + j + 1. */
  lemma EntryAt(qs: seq<Question>, lo: nat, hi: nat, kind: QuestionKind, r: Renderer, j: nat)
    requires lo <= hi <= |qs| && j < hi - lo
    ensures Entries(qs, lo, hi, kind, r)[j] == EntryOf(qs[lo + j], lo + j + 1, kind, r)
  {
  }

  lemma EntriesSnoc(qs: seq<Question>, lo: nat, hi: nat, kind: QuestionKind, r: Renderer)
    requires lo <= hi < |qs|
    ensures Entries(qs, lo, hi + 1, kind, r) == Entries(qs, lo, hi, kind, r) + [EntryOf(qs[hi], hi + 1, kind, r)]
  {
    var longer := Entries(qs, lo, hi + 1, kind, r);
    var shorter := Entries(qs, lo, hi, kind, r) + [EntryOf(qs[hi], hi + 1, kind, r)];
    forall j | 0 <= j < |longer|
      ensures longer[j] == shorter[j]
    {
      EntryAt(qs, lo, hi + 1, kind, r, j);
      if j < hi - lo {
        EntryAt(qs, lo, hi, kind, r, j);
      }
    }
  }

  /** The section part of the paper, one section after another, as the cursor walk emits it. */
  function PaperSections(qs: seq<Question>, sections: seq<Section>, r: Renderer): (out: seq<SectionOut>)
    ensures |out| == |sections|
  {
    if sections == [] then []
    else
      var init, last := sections[..|sections| - 1], sections[|sections| - 1];
      PaperSections(qs, init, r)
        + [SectionOut(|sections|, last.kind, last.marksPerQuestion,
                      Entries(qs, Consumed(qs, init), Consumed(qs, sections), last.kind, r))]
  }

  /**
   * The inner loop of the walk: from the cursor `start`, up to `count`
   * entries, stopping early when the list runs out.
   */
  method SectionEntries(questions: seq<Question>, start: nat, section: Section, r: Renderer)
    returns (entries: seq<Entry>, next: nat)
    requires start <= |questions|
    ensures next == Min(start + section.count, |questions|)
    ensures entries == Entries(questions, start, next, section.kind, r)
  {
    entries := [];
    next := start;
    var i := 0;
    while i < section.count
      invariant 0 <= i <= section.count
      invariant next == Min(start + i, |questions|)
      invariant entries == Entries(questions, start, next, section.kind, r)
    {
      if next >= |questions| {
        break;
      }
      EntriesSnoc(questions, start, next, section.kind, r);
      entries := entries + [EntryOf(questions[next], next + 1, section.kind, r)];
      next := next + 1;
      i := i + 1;
    }
  }

  /**
   * The section/cursor walk of generatePaperPDF: one cursor runs over the
   * selected list; section s takes up to `count` of the next questions and
   * stops early once the list is exhausted.
   */
  method GeneratePaperBody(questions: seq<Question>, config: PaperConfig, r: Renderer) returns (out: seq<SectionOut>)
    ensures out == PaperSections(questions, config.sections, r)
  {
    var secs := config.sections;
    var current := 0;
    out := [];
    var s := 0;
    while s < |secs|
      invariant 0 <= s <= |secs|
      invariant current == Consumed(questions, secs[..s])
      invariant out == PaperSections(questions, secs[..s], r)
    {
      var entries;
      entries, current := SectionEntries(questions, current, secs[s], r);
      CursorSteps(questions, secs, s);
      assert secs[..s + 1][..s] == secs[..s];
      out := out + [SectionOut(s + 1, secs[s].kind, secs[s].marksPerQuestion, entries)];
      s := s + 1;
    }
    assert secs[..s] == secs;
  }

  /** generatePaperPDF: the header followed by the walked sections. */
  method GeneratePaperPDF(questions: seq<Question>, config: PaperConfig, r: Renderer) returns (doc: PaperDocument)
    ensures doc.header == HeaderOf(config)
    ensures doc.sections == PaperSections(questions, config.sections, r)
  {
    var body := GeneratePaperBody(questions, config, r);
    doc := PaperDocument(HeaderOf(config), body);
  }

  /**
   * Section s of the paper is numbered s + 1, carries its section's kind and
   * marks, and holds exactly the questions between the cursor positions.
   */
  lemma {:induction false} PaperSectionAt(qs: seq<Question>, sections: seq<Section>, r: Renderer, s: nat)
    requires s < |sections|
    ensures PaperSections(qs, sections, r)[s] ==
      SectionOut(s + 1, sections[s].kind, sections[s].marksPerQuestion,
                 Entries(qs, CursorStart(qs, sections, s), CursorEnd(qs, sections, s), sections[s].kind, r))
    decreases |sections|
  {
    var init := sections[..|sections| - 1];
    if s < |init| {
      PaperSectionAt(qs, init, r, s);
      assert init[..s] == sections[..s] && init[..s + 1] == sections[..s + 1];
    } else {
      assert sections[..s] == init && sections[..s + 1] == sections;
    }
  }

  /**
   * Entry j of section s is question lo + j, numbered lo + j + 1, under
   * section s's kind, where lo is the cursor at the start of s.
   */
  lemma PaperEntryAt(qs: seq<Question>, sections: seq<Section>, r: Renderer, s: nat, lo: nat, j: nat, q: Question, kind: QuestionKind)
    requires s < |sections| && lo == CursorStart(qs, sections, s) && lo + j < CursorEnd(qs, sections, s)
    requires qs[lo + j] == q && sections[s].kind == kind
    ensures |PaperSections(qs, sections, r)[s].entries| == CursorEnd(qs, sections, s) - lo
    ensures PaperSections(qs, sections, r)[s].entries[j] == EntryOf(q, lo + j + 1, kind, r)
  {
    PaperSectionAt(qs, sections, r, s);
    EntryAt(qs, lo, CursorEnd(qs, sections, s), kind, r, j);
  }

  /** The question numbers of all entries, section by section. */
  function EntryNumbers(out: seq<SectionOut>): seq<nat>
  {
    if out == [] then []
    else
      var entries := out[|out| - 1].entries;
      EntryNumbers(out[..|out| - 1]) + seq(|entries|, j requires 0 <= j < |entries| => entries[j].number)
  }

  /** Q.1, Q.2, ... run on across sections without restarting, up to the number of questions consumed. */
  lemma {:induction false} LabelsContinuous(qs: seq<Question>, sections: seq<Section>, r: Renderer)
    ensures EntryNumbers(PaperSections(qs, sections, r)) == seq(Consumed(qs, sections), i => i + 1)
    decreases |sections|
  {
    if sections != [] {
      var init := sections[..|sections| - 1];
      LabelsContinuous(qs, init, r);
      var out := PaperSections(qs, sections, r);
      var lo, hi := Consumed(qs, init), Consumed(qs, sections);
      assert out[..|out| - 1] == PaperSections(qs, init, r);
      var entries := out[|out| - 1].entries;
      assert entries == Entries(qs, lo, hi, sections[|sections| - 1].kind, r);
      var tail := seq(|entries|, j requires 0 <= j < |entries| => entries[j].number);
      assert |tail| == hi - lo;
      assert tail == seq(hi - lo, j => lo + j + 1);
      assert seq(lo, i => i + 1) + tail == seq(hi, i => i + 1);
    }
  }

  // ---------------------------------------------------------------- solutions table

  const NoExplanation: string := "No explanation provided."

  /** One row of the key: sequence number, kind, answer, explanation. */
  datatype SolutionRow = SolutionRow(number: string, kind: QuestionKind, answer: string, explanation: string)

  /**
   * The explanation (or the default text) cut to its first 100 characters,
   * with `...` added only when the explanation is longer than 100.
   */
  function ExplanationCell(explanation: Option<string>): (c: string)
    ensures |c| <= 103
    ensures Truthy(explanation) && |explanation.value| <= 100 ==> c == explanation.value
    ensures Truthy(explanation) && |explanation.value| > 100 ==> c == explanation.value[..100] + "..."
    ensures !Truthy(explanation) ==> c == NoExplanation
  {
    var text := if Truthy(explanation) then explanation.value else NoExplanation;
    text[..Min(100, |text|)]
      + (if explanation.Some? && |explanation.value| > 100 then "..." else "")
  }

  /** generateSolutionsPDF's table body: one row per question, in selection order, numbered from 1. */
  function SolutionsTable(qs: seq<Question>): (rows: seq<SolutionRow>)
    ensures |rows| == |qs|
    ensures forall i :: 0 <= i < |qs| ==>
      rows[i] == SolutionRow(NatToString(i + 1), qs[i].kind, OrDefault(qs[i].answer, "N/A"), ExplanationCell(qs[i].explanation))
  {
    seq(|qs|, i requires 0 <= i < |qs| =>
      SolutionRow(NatToString(i + 1), qs[i].kind, OrDefault(qs[i].answer, "N/A"), ExplanationCell(qs[i].explanation)))
  }

  // ---------------------------------------------------------------- spreadsheet

  /** One spreadsheet row: the section's kind and marks beside the question's own fields. */
  datatype ExcelRow = ExcelRow(
    section: QuestionKind, questionId: string, kind: QuestionKind, questionText: string,
    optionA: string, optionB: string, optionC: string, optionD: string,
    answerKey: Option<string>, explanation: Option<string>, imageUrl: string,
    marks: real, negativeMarks: real, source: string)

  function ExcelRowOf(q: Question, sec: Section): ExcelRow {
    ExcelRow(sec.kind, q.qid, q.kind, q.question, q.options.a, q.options.b, q.options.c, q.options.d,
             q.answer, q.explanation, if Truthy(q.imageUrl) then q.imageUrl.value else "",
             sec.marksPerQuestion, sec.negativeMarks, q.sourceName)
  }

  /** The rows for the questions lo .. hi - 1 of the list, all under one section. */
  function RowsFor(qs: seq<Question>, lo: nat, hi: nat, sec: Section): (rows: seq<ExcelRow>)
    requires lo <= hi <= |qs|
    ensures |rows| == hi - lo
  {
    seq(hi - lo, j requires 0 <= j < hi - lo => ExcelRowOf(qs[lo + j], sec))
  }

  /** The spreadsheet rows: one per question the cursor consumes, min(total requested, available) in all. */
  function ExcelRows(qs: seq<Question>, sections: seq<Section>): (rows: seq<ExcelRow>)
    ensures |rows| == Consumed(qs, sections)
  {
    if sections == [] then []
    else
      var init := sections[..|sections| - 1];
      ExcelRows(qs, init) + RowsFor(qs, Consumed(qs, init), Consumed(qs, sections), sections[|sections| - 1])
  }

  /** The inner loop of generatePaperExcel: up to `count` rows from the cursor `start`. */
  method SectionRows(questions: seq<Question>, start: nat, section: Section)
    returns (rows: seq<ExcelRow>, next: nat)
    requires start <= |questions|
    ensures next == Min(start + section.count, |questions|)
    ensures rows == RowsFor(questions, start, next, section)
  {
    rows := [];
    next := start;
    var i := 0;
    while i < section.count
      invariant 0 <= i <= section.count
      invariant next == Min(start + i, |questions|)
      invariant rows == RowsFor(questions, start, next, section)
    {
      if next >= |questions| {
        break;
      }
      rows := rows + [ExcelRowOf(questions[next], section)];
      next := next + 1;
      i := i + 1;
    }
  }

  /** generatePaperExcel's rows: the same cursor walk as the paper, one row per consumed question. */
  method GeneratePaperExcel(questions: seq<Question>, config: PaperConfig) returns (rows: seq<ExcelRow>)
    ensures rows == ExcelRows(questions, config.sections)
  {
    var secs := config.sections;
    var current := 0;
    rows := [];
    var s := 0;
    while s < |secs|
      invariant 0 <= s <= |secs|
      invariant current == Consumed(questions, secs[..s])
      invariant rows == ExcelRows(questions, secs[..s])
    {
      var more;
      more, current := SectionRows(questions, current, secs[s]);
      CursorSteps(questions, secs, s);
      assert secs[..s + 1][..s] == secs[..s];
      rows := rows + more;
      s := s + 1;
    }
    assert secs[..s] == secs;
  }

  /**
   * Row i of the spreadsheet is question i of the list, beside the kind and
   * marks of the section whose cursor range holds i.
   */
  lemma {:induction false} ExcelRowsFollowCursor(qs: seq<Question>, sections: seq<Section>, s: nat, i: nat)
    requires s < |sections| && CursorStart(qs, sections, s) <= i < CursorEnd(qs, sections, s)
    ensures ExcelRows(qs, sections)[i] == ExcelRowOf(qs[i], sections[s])
    decreases |sections|
  {
    var init := sections[..|sections| - 1];
    if s < |init| {
      assert init[..s] == sections[..s] && init[..s + 1] == sections[..s + 1];
      ExcelRowsFollowCursor(qs, init, s, i);
    } else {
      assert sections[..s] == init && sections[..s + 1] == sections;
    }
  }

  /** Row i of the spreadsheet, for a given question and section in the cursor range of that section. */
  lemma ExcelRowAt(qs: seq<Question>, sections: seq<Section>, s: nat, i: nat, q: Question, sec: Section)
    requires s < |sections| && CursorStart(qs, sections, s) <= i < CursorEnd(qs, sections, s)
    requires qs[i] == q && sections[s] == sec
    ensures i < |ExcelRows(qs, sections)| && ExcelRows(qs, sections)[i] == ExcelRowOf(q, sec)
  {
    ExcelRowsFollowCursor(qs, sections, s, i);
  }

  // ---------------------------------------------------------------- zip bundle

  /** A generated document, described by what it renders. */
  datatype FileContent = QuestionPaperPdf(questions: seq<Question>, config: PaperConfig)
                       | SolutionsPdf(questions: seq<Question>, config: PaperConfig)

  datatype ExportFile = ExportFile(filename: string, content: FileContent)

  /** A zip archive: its file name and its entries, by entry name. */
  datatype Archive = Archive(name: string, entries: map<string, FileContent>)

  /**
   * `files.forEach(f => zip.file(f.filename, f.content))`: every file becomes
   * the entry of its name, a later file replacing an earlier one of the same
   * name.
   */
  function ZipEntries(files: seq<ExportFile>): (m: map<string, FileContent>)
    ensures forall n :: n in m <==> exists i :: 0 <= i < |files| && files[i].filename == n
  {
    if files == [] then map[]
    else
      var init := files[..|files| - 1];
      var last := files[|files| - 1];
      var m := ZipEntries(init);
      assert forall i :: 0 <= i < |init| ==> init[i] == files[i];
      m[last.filename := last.content]
  }

  /** A file that no later file shares a name with is in the archive as it was given. */
  lemma {:induction false} ZipKeepsLastOfName(files: seq<ExportFile>, i: nat)
    requires i < |files|
    requires forall j :: i < j < |files| ==> files[j].filename != files[i].filename
    ensures files[i].filename in ZipEntries(files) && ZipEntries(files)[files[i].filename] == files[i].content
    decreases |files|
  {
    if i < |files| - 1 {
      var init := files[..|files| - 1];
      assert init[i] == files[i];
      ZipKeepsLastOfName(init, i);
    }
  }

  /** Two files of the same name leave one entry, holding the later file's content. */
  lemma ZipSameNameKeepsLast(f: ExportFile, g: ExportFile)
    requires f.filename == g.filename
    ensures ZipEntries([f, g]) == map[g.filename := g.content]
  {
    assert [f, g][..1] == [f] && [f][..0] == [];
  }

  /**
   * createZipBundle: nothing at all for an empty list, otherwise one dated
   * archive holding the entries the files leave behind.
   */
  function CreateZipBundle(files: seq<ExportFile>, isoDate: string): (r: Option<Archive>)
    ensures r.None? <==> files == []
    ensures r.Some? ==> r.value.name == "Bulk_Question_Papers_" + isoDate + ".zip"
    ensures r.Some? ==> forall i :: 0 <= i < |files| ==> files[i].filename in r.value.entries
    ensures r.Some? ==> forall n :: n in r.value.entries ==> exists i :: 0 <= i < |files| && files[i].filename == n
    ensures r.Some? && (forall i, j :: 0 <= i < j < |files| ==> files[i].filename != files[j].filename) ==>
      forall i :: 0 <= i < |files| ==> r.value.entries[files[i].filename] == files[i].content
  {
    if files == [] then None
    else
      var entries := ZipEntries(files);
      assert (forall i, j :: 0 <= i < j < |files| ==> files[i].filename != files[j].filename) ==>
        forall i :: 0 <= i < |files| ==> files[i].filename in entries && entries[files[i].filename] == files[i].content
      by {
        if forall i, j :: 0 <= i < j < |files| ==> files[i].filename != files[j].filename {
          forall i | 0 <= i < |files|
            ensures files[i].filename in entries && entries[files[i].filename] == files[i].content
          {
            ZipKeepsLastOfName(files, i);
          }
        }
      }
      Some(Archive("Bulk_Question_Papers_" + isoDate + ".zip", entries))
  }
}
