// The CSV export (services/csvService.ts): the projection of each question onto
// the exported columns. Serialising the rows and downloading the file are not
// part of this model.

module CsvService {

  import opened Types

  /** One CSV record: id, text, the four options as columns, and the source fields. */
  datatype CsvRow = CsvRow(
    qid: string, question: string, a: string, b: string, c: string, d: string,
    sourceType: SourceType, sourceName: string, pageOrUrl: string)

  function CsvRowOf(q: Question): CsvRow {
    CsvRow(q.qid, q.question, q.options.a, q.options.b, q.options.c, q.options.d, q.sourceType, q.sourceName, q.pageOrUrl)
  }

  /** The rows of generateAndDownloadCSV: one per question, in order, carrying that question's exported fields. */
  function CsvRows(qs: seq<Question>): (rows: seq<CsvRow>)
    ensures |rows| == |qs|
    ensures forall i :: 0 <= i < |qs| ==>
      && rows[i].qid == qs[i].qid && rows[i].question == qs[i].question
      && Options(rows[i].a, rows[i].b, rows[i].c, rows[i].d) == qs[i].options
      && rows[i].sourceType == qs[i].sourceType && rows[i].sourceName == qs[i].sourceName
      && rows[i].pageOrUrl == qs[i].pageOrUrl
  {
    seq(|qs|, i requires 0 <= i < |qs| => CsvRowOf(qs[i]))
  }

  /** Exporting two lists one after the other gives the rows of their concatenation. */
  lemma CsvRowsAppend(xs: seq<Question>, ys: seq<Question>)
    ensures CsvRows(xs + ys) == CsvRows(xs) + CsvRows(ys)
  {
    assert forall i :: 0 <= i < |xs + ys| ==> CsvRows(xs + ys)[i] == (CsvRows(xs) + CsvRows(ys))[i];
  }

  /** Kind, answer, explanation, stream, topic and image are not exported: changing them changes no row. */
  lemma CsvIgnoresUnexportedFields(
    q: Question, kind: QuestionKind, answer: Option<string>, explanation: Option<string>,
    stream: Option<string>, topic: Option<string>, imageUrl: Option<string>)
    ensures CsvRows([q.(kind := kind, answer := answer, explanation := explanation,
                        stream := stream, topic := topic, imageUrl := imageUrl)]) == CsvRows([q])
  {
  }

  /** Two questions give the same row exactly when they agree on every exported field. */
  lemma CsvRowDeterminedByExportedFields(p: Question, q: Question)
    ensures CsvRows([p]) == CsvRows([q]) <==>
      p.qid == q.qid && p.question == q.question && p.options == q.options
      && p.sourceType == q.sourceType && p.sourceName == q.sourceName && p.pageOrUrl == q.pageOrUrl
  {
    assert CsvRows([p])[0] == CsvRowOf(p) && CsvRows([q])[0] == CsvRowOf(q);
  }
}
