// The question store (services/dbService.ts). The store itself is a table
// keyed by question id; whether a client is configured, whether a call fails,
// and what a query returns are parameters. Saving is an upsert on the id;
// reading maps rows back to questions marked as coming from the store.

module DbService {

  import opened Types
  import Seqs

  /** One stored row: the question without its source type, page and image. */
  datatype Row = Row(
    qid: string, stream: string, topic: string, kind: QuestionKind, question: string,
    options: Options, answer: Option<string>, explanation: Option<string>, sourceName: string)

  /** The stored table, keyed on `qid`. */
  type Store = map<string, Row>

  /** The row saveQuestionsToDB writes for a question. */
  function ToRow(q: Question): (row: Row)
    ensures row.qid == q.qid && row.kind == q.kind && row.question == q.question && row.options == q.options
    ensures row.answer == q.answer && row.explanation == q.explanation && row.sourceName == q.sourceName
    ensures row.stream == OrDefault(q.stream, "General") && row.topic == OrDefault(q.topic, "General")
  {
    Row(q.qid, OrDefault(q.stream, "General"), OrDefault(q.topic, "General"), q.kind, q.question, q.options, q.answer, q.explanation, q.sourceName)
  }

  function ToRows(qs: seq<Question>): (rows: seq<Row>)
    ensures |rows| == |qs|
    ensures forall i :: 0 <= i < |qs| ==> rows[i] == ToRow(qs[i])
  {
    seq(|qs|, i requires 0 <= i < |qs| => ToRow(qs[i]))
  }

  /** The rows keyed by id; of two rows with the same id the later one stands. */
  function RowsMap(rows: seq<Row>): (m: map<string, Row>)
    ensures forall k :: k in m <==> exists i :: 0 <= i < |rows| && rows[i].qid == k
  {
    if rows == [] then map[]
    else
      var init := rows[..|rows| - 1];
      var m := RowsMap(init);
      assert forall i :: 0 <= i < |init| ==> init[i] == rows[i];
      m[rows[|rows| - 1].qid := rows[|rows| - 1]]
  }

  /** An upsert on `qid`: every row is inserted, replacing a stored row with the same id. */
  function Upsert(store: Store, rows: seq<Row>): Store {
    store + RowsMap(rows)
  }

  /** The result saveQuestionsToDB hands back; it never throws. */
  datatype SaveResult = NotConfigured | SaveFailed(error: string) | SaveOk

  /** A save: its result and the store afterwards. */
  datatype SaveOutcome = SaveOutcome(result: SaveResult, store: Store)

  /**
   * saveQuestionsToDB: without a client, the not-configured error and no
   * change; otherwise an upsert of the rows, which either fails and changes
   * nothing or stores every row.
   */
  function SaveQuestionsToDB(connected: bool, store: Store, qs: seq<Question>, upsertError: Option<string>)
    : (out: SaveOutcome)
    ensures !connected ==> out == SaveOutcome(NotConfigured, store)
    ensures connected && upsertError.Some? ==> out == SaveOutcome(SaveFailed(upsertError.value), store)
    ensures connected && upsertError.None? ==> out.result == SaveOk
    ensures connected && upsertError.None? ==> forall q :: q in qs ==> q.qid in out.store
    ensures connected && upsertError.None? ==> forall k :: k in store && k !in RowsMap(ToRows(qs)) ==>
      k in out.store && out.store[k] == store[k]
  {
    if !connected then SaveOutcome(NotConfigured, store)
    else if upsertError.Some? then SaveOutcome(SaveFailed(upsertError.value), store)
    else
      var rows := ToRows(qs);
      assert forall i :: 0 <= i < |qs| ==> rows[i].qid == qs[i].qid;
      SaveOutcome(SaveOk, Upsert(store, rows))
  }

  /** Saving the same questions twice leaves the store as saving them once. */
  lemma SaveIdempotent(store: Store, qs: seq<Question>)
    ensures var once := SaveQuestionsToDB(true, store, qs, None).store;
      SaveQuestionsToDB(true, once, qs, None).store == once
  {
    var r := RowsMap(ToRows(qs));
    assert (store + r) + r == store + r;
  }

  /** The ids of the questions are pairwise distinct. */
  predicate DistinctIds(qs: seq<Question>) {
    forall i, j :: 0 <= i < j < |qs| ==> qs[i].qid != qs[j].qid
  }

  /** With distinct ids, each row is stored under its own id. */
  lemma {:induction false} RowsMapDistinct(rows: seq<Row>, i: nat)
    requires i < |rows|
    requires forall x, y :: 0 <= x < y < |rows| ==> rows[x].qid != rows[y].qid
    ensures rows[i].qid in RowsMap(rows) && RowsMap(rows)[rows[i].qid] == rows[i]
    decreases |rows|
  {
    if i < |rows| - 1 {
      var init := rows[..|rows| - 1];
      RowsMapDistinct(init, i);
    }
  }

  /** The result fetchQuestionsByStream gets from the store: the matching rows, or an error. */
  datatype Query = QueryRows(rows: seq<Row>) | QueryFailed

  /** The question a stored row reads back as: marked as coming from the store, without image. */
  function RowToQuestion(row: Row): (q: Question)
    ensures q.qid == row.qid && q.kind == row.kind && q.question == row.question && q.options == row.options
    ensures q.answer == row.answer && q.explanation == row.explanation && q.sourceName == row.sourceName
    ensures q.stream == Some(row.stream) && q.topic == Some(row.topic)
    ensures q.sourceType == DB && q.pageOrUrl == "Database Archive" && q.imageUrl == None
  {
    Question(row.qid, row.kind, Some(row.stream), Some(row.topic), row.question, row.options,
             row.answer, row.explanation, DB, row.sourceName, "Database Archive", None)
  }

  /** fetchQuestionsByStream: no client or a failed query give nothing, otherwise one question per row, in order. */
  function FetchQuestionsByStream(connected: bool, query: Query): (qs: seq<Question>)
    ensures !connected || query.QueryFailed? ==> qs == []
    ensures connected && query.QueryRows? ==> |qs| == |query.rows|
    ensures connected && query.QueryRows? ==> forall i :: 0 <= i < |qs| ==> qs[i] == RowToQuestion(query.rows[i])
  {
    if !connected then []
    else match query
      case QueryFailed => []
      case QueryRows(rows) => seq(|rows|, i requires 0 <= i < |rows| => RowToQuestion(rows[i]))
  }

  /**
   * A saved question reads back with the same id, kind, text, options,
   * answer, explanation and source name; its stream and topic default to
   * General, it is marked as coming from the store, and its image is lost.
   */
  lemma SaveThenFetch(store: Store, qs: seq<Question>, i: nat)
    requires i < |qs| && DistinctIds(qs)
    ensures var stored := SaveQuestionsToDB(true, store, qs, None).store;
      && qs[i].qid in stored
      && var back := RowToQuestion(stored[qs[i].qid]);
      && back == qs[i].(stream := Some(OrDefault(qs[i].stream, "General")), topic := Some(OrDefault(qs[i].topic, "General")),
                        sourceType := DB, pageOrUrl := "Database Archive", imageUrl := None)
  {
    var rows := ToRows(qs);
    RowsMapDistinct(rows, i);
  }

  /** The stream column as the store returns it: a value may be missing. */
  datatype StreamsQuery = StreamValues(values: seq<Option<string>>) | StreamsFailed

  /** The values in order of first occurrence, each once. */
  function Distinct<T(==,!new)>(xs: seq<T>): (r: seq<T>)
    ensures forall x :: x in r <==> x in xs
    ensures forall i, j :: 0 <= i < j < |r| ==> r[i] != r[j]
  {
    if xs == [] then []
    else
      var init := Distinct(xs[..|xs| - 1]);
      var last := xs[|xs| - 1];
      assert forall x :: x in xs <==> x in xs[..|xs| - 1] || x == last;
      if last in init then init else init + [last]
  }

  /** Where a value first occurs. */
  function FirstIndex<T(==)>(xs: seq<T>, x: T): (k: nat)
    requires x in xs
    ensures k < |xs| && xs[k] == x && x !in xs[..k]
  {
    var init := xs[..|xs| - 1];
    if x in init then
      var k := FirstIndex(init, x);
      assert xs[..k] == init[..k];
      k
    else |xs| - 1
  }

  /** Distinct keeps the values in the order of their first occurrences. */
  lemma {:induction false} DistinctKeepsFirstOccurrenceOrder<T(!new)>(xs: seq<T>, i: nat, j: nat)
    requires i < j < |Distinct(xs)|
    ensures FirstIndex(xs, Distinct(xs)[i]) < FirstIndex(xs, Distinct(xs)[j])
    decreases |xs|
  {
    var init := xs[..|xs| - 1];
    var last := xs[|xs| - 1];
    var r := Distinct(xs);
    assert r[i] in Distinct(init);
    if j < |Distinct(init)| {
      assert r[j] in Distinct(init);
      DistinctKeepsFirstOccurrenceOrder(init, i, j);
    } else {
      assert r[j] == last && last !in init;
    }
  }

  /** The truthy stream names, in order; a list without repeats stays without repeats. */
  function TruthyValues(xs: seq<Option<string>>): (r: seq<string>)
    ensures forall s :: s in r <==> Some(s) in xs && s != ""
    ensures (forall i, j :: 0 <= i < j < |xs| ==> xs[i] != xs[j]) ==> forall i, j :: 0 <= i < j < |r| ==> r[i] != r[j]
  {
    if xs == [] then []
    else
      var init := TruthyValues(xs[..|xs| - 1]);
      var last := xs[|xs| - 1];
      assert forall x :: x in xs <==> x in xs[..|xs| - 1] || x == last;
      assert (forall i, j :: 0 <= i < j < |xs| ==> xs[i] != xs[j]) ==> last !in xs[..|xs| - 1];
      if Truthy(last) then init + [last.value] else init
  }

  /** One step of TruthyValues: the last value is kept exactly when it is truthy. */
  lemma TruthyValuesStep(xs: seq<Option<string>>)
    requires xs != []
    ensures TruthyValues(xs) == TruthyValues(xs[..|xs| - 1]) + (if Truthy(xs[|xs| - 1]) then [xs[|xs| - 1].value] else [])
  {
  }

  /** Keeping the truthy names distributes over concatenation: it is a filter, and keeps the order of its input. */
  lemma {:induction false} TruthyValuesAppend(xs: seq<Option<string>>, ys: seq<Option<string>>)
    ensures TruthyValues(xs + ys) == TruthyValues(xs) + TruthyValues(ys)
    decreases |ys|
  {
    if ys == [] {
      assert xs + ys == xs;
    } else {
      var zs := xs + ys;
      assert zs[..|zs| - 1] == xs + ys[..|ys| - 1] && zs[|zs| - 1] == ys[|ys| - 1];
      TruthyValuesStep(zs);
      TruthyValuesStep(ys);
      TruthyValuesAppend(xs, ys[..|ys| - 1]);
      Seqs.AppendAssoc(TruthyValues(xs), TruthyValues(ys[..|ys| - 1]),
                       if Truthy(ys[|ys| - 1]) then [ys[|ys| - 1].value] else []);
    }
  }

  /** A value that occurs in a prefix of the list first occurs where it first occurs in that prefix. */
  lemma FirstIndexPrefix<T>(xs: seq<T>, n: nat, x: T)
    requires n <= |xs| && x in xs[..n]
    ensures x in xs && FirstIndex(xs, x) == FirstIndex(xs[..n], x)
  {
    var k := FirstIndex(xs[..n], x);
    assert xs[..n][..k] == xs[..k];
    FirstIndexUnique(xs, x, k);
  }

  /** The first occurrence is the only position holding the value with no earlier copy. */
  lemma FirstIndexUnique<T>(xs: seq<T>, x: T, k: nat)
    requires k < |xs| && xs[k] == x && x !in xs[..k]
    ensures FirstIndex(xs, x) == k
  {
  }

  /** A kept name that comes from the last value first occurs after every name kept before it. */
  lemma LastKeptComesLast(xs: seq<Option<string>>, i: nat)
    requires xs != [] && Truthy(xs[|xs| - 1]) && xs[|xs| - 1] !in xs[..|xs| - 1]
    requires i < |TruthyValues(xs[..|xs| - 1])|
    ensures Some(TruthyValues(xs[..|xs| - 1])[i]) in xs
    ensures FirstIndex(xs, Some(TruthyValues(xs[..|xs| - 1])[i])) < FirstIndex(xs, xs[|xs| - 1])
  {
    var init := xs[..|xs| - 1];
    var ri := TruthyValues(init);
    assert ri[i] in ri;
    FirstIndexPrefix(xs, |xs| - 1, Some(ri[i]));
    FirstIndexUnique(xs, xs[|xs| - 1], |xs| - 1);
  }

  /** In a list without repeats, the truthy names come out in the order they occur in. */
  lemma {:induction false} TruthyValuesKeepOrder(xs: seq<Option<string>>, i: nat, j: nat)
    requires forall a, b :: 0 <= a < b < |xs| ==> xs[a] != xs[b]
    requires i < j < |TruthyValues(xs)|
    ensures Some(TruthyValues(xs)[i]) in xs && Some(TruthyValues(xs)[j]) in xs
    ensures FirstIndex(xs, Some(TruthyValues(xs)[i])) < FirstIndex(xs, Some(TruthyValues(xs)[j]))
    decreases |xs|
  {
    var init := xs[..|xs| - 1];
    var last := xs[|xs| - 1];
    var r := TruthyValues(xs);
    var ri := TruthyValues(init);
    TruthyValuesStep(xs);
    if j < |ri| {
      assert r[i] == ri[i] && r[j] == ri[j];
      assert forall a, b :: 0 <= a < b < |init| ==> init[a] != init[b];
      TruthyValuesKeepOrder(init, i, j);
      FirstIndexPrefix(xs, |xs| - 1, Some(r[i]));
      FirstIndexPrefix(xs, |xs| - 1, Some(r[j]));
    } else {
      assert Truthy(last) && r[j] == last.value && r[i] == ri[i];
      assert last !in init;
      LastKeptComesLast(xs, i);
    }
  }

  /** The streams come out in the order in which they first occur in the stream column. */
  lemma StreamsInFirstOccurrenceOrder(values: seq<Option<string>>, i: nat, j: nat)
    requires i < j < |TruthyValues(Distinct(values))|
    ensures var streams := TruthyValues(Distinct(values));
      && Some(streams[i]) in values && Some(streams[j]) in values
      && FirstIndex(values, Some(streams[i])) < FirstIndex(values, Some(streams[j]))
  {
    var d := Distinct(values);
    var streams := TruthyValues(d);
    TruthyValuesKeepOrder(d, i, j);
    var a, b := FirstIndex(d, Some(streams[i])), FirstIndex(d, Some(streams[j]));
    DistinctKeepsFirstOccurrenceOrder(values, a, b);
  }

  /** getAvailableStreams: the distinct non-empty stream names, in order of first occurrence; nothing on failure. */
  function GetAvailableStreams(connected: bool, query: StreamsQuery): (streams: seq<string>)
    ensures !connected || query.StreamsFailed? ==> streams == []
    ensures connected && query.StreamValues? ==> forall s :: s in streams <==> Some(s) in query.values && s != ""
    ensures forall i, j :: 0 <= i < j < |streams| ==> streams[i] != streams[j]
    ensures connected && query.StreamValues? ==> forall i, j :: 0 <= i < j < |streams| ==>
      Some(streams[i]) in query.values && Some(streams[j]) in query.values &&
      FirstIndex(query.values, Some(streams[i])) < FirstIndex(query.values, Some(streams[j]))
  {
    if !connected then []
    else match query
      case StreamsFailed => []
      case StreamValues(values) =>
        var streams := TruthyValues(Distinct(values));
        assert forall i, j :: 0 <= i < j < |streams| ==>
          Some(streams[i]) in values && Some(streams[j]) in values &&
          FirstIndex(values, Some(streams[i])) < FirstIndex(values, Some(streams[j])) by {
          forall i, j | 0 <= i < j < |streams|
            ensures Some(streams[i]) in values && Some(streams[j]) in values &&
              FirstIndex(values, Some(streams[i])) < FirstIndex(values, Some(streams[j]))
          {
            StreamsInFirstOccurrenceOrder(values, i, j);
          }
        }
        streams
  }
}
