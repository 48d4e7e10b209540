// The shared data model of the question bank: questions, raw chunks, paper
// configurations, log entries and the bulk-generation request (types.ts, plus
// the selection record that BulkPaperModal hands to App).

module Types {

  /** An optional TypeScript field (`x?: T`): `None` is `undefined`. */
  datatype Option<+T> = None | Some(value: T) {
    function GetOr(default: T): T {
      match this
      case Some(v) => v
      case None => default
    }
  }

  /** The three question kinds: single-answer choice, multi-answer choice, numerical answer. */
  datatype QuestionKind = MCQ | MSQ | NAT

  /** Where a question came from; `DB` only for questions read back from the store. */
  datatype SourceType = PDF | WEB | SCRAPER | DB

  /** Raw chunks are produced by collectors only, never by the store. */
  type ChunkSource = s: SourceType | s != DB witness PDF

  /** The four option slots a to d; their keys are fixed, their texts may be empty. */
  datatype Options = Options(a: string, b: string, c: string, d: string)

  /** A classified exam question (`MCQ` in types.ts); `kind` is the source's `type`. */
  datatype Question = Question(
    qid: string,
    kind: QuestionKind,
    stream: Option<string>,
    topic: Option<string>,
    question: string,
    options: Options,
    answer: Option<string>,
    explanation: Option<string>,
    sourceType: SourceType,
    sourceName: string,
    pageOrUrl: string,
    imageUrl: Option<string>)

  datatype ChunkStatus = Pending | Processing | Completed | Failed

  /** A unit of raw text awaiting cleaning. */
  datatype RawChunk = RawChunk(
    id: string,
    text: string,
    sourceType: ChunkSource,
    sourceName: string,
    pageOrUrl: string,
    status: ChunkStatus,
    error: Option<string>,
    retryCount: Option<nat>)

  /** One section of a paper: kind, requested count, marks per question, negative marks. */
  datatype Section = Section(kind: QuestionKind, count: nat, marksPerQuestion: real, negativeMarks: real)

  /** A paper configuration; the order of `sections` is both selection and rendering order. */
  datatype PaperConfig = PaperConfig(subjectName: string, durationMins: int, sections: seq<Section>)

  datatype LogLevel = INFO | WARN | ERROR

  /** A log entry; `meta` holds the already serialised metadata, if any. */
  datatype LogEntry = LogEntry(timestamp: string, level: LogLevel, source: string, message: string, meta: Option<string>)

  datatype BulkMode = MultiStream | MultiSet

  /** What BulkPaperModal hands to App: `streams` in multi-stream mode, target and set count in multi-set mode. */
  datatype BulkSelection = BulkSelection(streams: Option<seq<string>>, targetStream: Option<string>, setCounts: Option<int>)

  /** The total number of questions a list of sections asks for (the `reduce` over `count`). */
  function TotalCount(sections: seq<Section>): nat
  {
    if sections == [] then 0
    else TotalCount(sections[..|sections| - 1]) + sections[|sections| - 1].count
  }

  /** TotalCount distributes over concatenation of section lists. */
  lemma {:induction false} TotalCountAppend(xs: seq<Section>, ys: seq<Section>)
    ensures TotalCount(xs + ys) == TotalCount(xs) + TotalCount(ys)
    decreases |ys|
  {
    if ys == [] {
      assert xs + ys == xs;
    } else {
      var zs := xs + ys;
      assert zs[..|zs| - 1] == xs + ys[..|ys| - 1];
      TotalCountAppend(xs, ys[..|ys| - 1]);
    }
  }

  /** A prefix of a section list never asks for more than the whole list. */
  lemma TotalCountPrefix(xs: seq<Section>, k: nat)
    requires k <= |xs|
    ensures TotalCount(xs[..k]) <= TotalCount(xs)
  {
    TotalCountAppend(xs[..k], xs[k..]);
    assert xs[..k] + xs[k..] == xs;
  }

  /** True when a JavaScript string field is truthy: present and non-empty. */
  predicate Truthy(s: Option<string>) {
    s.Some? && s.value != ""
  }

  /** `s || d` on a string field: the value when it is truthy, the default otherwise. */
  function OrDefault(s: Option<string>, d: string): (r: string)
    ensures Truthy(s) ==> r == s.value
    ensures !Truthy(s) ==> r == d
  {
    if Truthy(s) then s.value else d
  }
}
