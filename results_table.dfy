// The results view (components/ResultsTable.tsx): the case-insensitive search
// over the bank and the guard in front of saving the bank to the store.

module ResultsTable {

  import opened Types
  import opened Text
  import DbService

  /** A question matches a search term found, ignoring case, in its text, its source name or its topic. */
  predicate Matches(q: Question, term: string) {
    var t := ToLower(term);
    || Contains(ToLower(q.question), t)
    || Contains(ToLower(q.sourceName), t)
    || (Truthy(q.topic) && Contains(ToLower(q.topic.value), t))
  }

  /** The questions a test keeps, in their order. */
  function Keep(mcqs: seq<Question>, keep: Question -> bool): (r: seq<Question>)
    ensures |r| <= |mcqs|
  {
    if mcqs == [] then []
    else
      var last := mcqs[|mcqs| - 1];
      Keep(mcqs[..|mcqs| - 1], keep) + (if keep(last) then [last] else [])
  }

  /** `filtered`: the matching questions, in bank order. */
  function Filtered(mcqs: seq<Question>, term: string): seq<Question> {
    Keep(mcqs, q => Matches(q, term))
  }

  lemma {:induction false} KeepMembers(mcqs: seq<Question>, keep: Question -> bool, q: Question)
    ensures q in Keep(mcqs, keep) <==> q in mcqs && keep(q)
    decreases |mcqs|
  {
    if mcqs != [] {
      var init := mcqs[..|mcqs| - 1];
      KeepMembers(init, keep, q);
      assert mcqs == init + [mcqs[|mcqs| - 1]];
    }
  }

  lemma {:induction false} KeepAppend(xs: seq<Question>, ys: seq<Question>, keep: Question -> bool)
    ensures Keep(xs + ys, keep) == Keep(xs, keep) + Keep(ys, keep)
    decreases |ys|
  {
    if ys == [] {
      assert xs + ys == xs;
    } else {
      var zs := xs + ys;
      assert zs[..|zs| - 1] == xs + ys[..|ys| - 1];
      KeepAppend(xs, ys[..|ys| - 1], keep);
    }
  }

  lemma {:induction false} KeepAll(mcqs: seq<Question>, keep: Question -> bool)
    requires forall i :: 0 <= i < |mcqs| ==> keep(mcqs[i])
    ensures Keep(mcqs, keep) == mcqs
    decreases |mcqs|
  {
    if mcqs != [] {
      KeepAll(mcqs[..|mcqs| - 1], keep);
    }
  }

  /** A question is shown exactly when it is in the bank and matches the term. */
  lemma FilteredMembers(mcqs: seq<Question>, term: string, q: Question)
    ensures q in Filtered(mcqs, term) <==> q in mcqs && Matches(q, term)
  {
    KeepMembers(mcqs, q => Matches(q, term), q);
  }

  /** Filtering commutes with concatenation, so shown questions stay in bank order. */
  lemma FilteredAppend(xs: seq<Question>, ys: seq<Question>, term: string)
    ensures Filtered(xs + ys, term) == Filtered(xs, term) + Filtered(ys, term)
  {
    KeepAppend(xs, ys, q => Matches(q, term));
  }

  /** An empty search keeps the whole bank. */
  lemma EmptyTermKeepsAll(mcqs: seq<Question>)
    ensures Filtered(mcqs, "") == mcqs
  {
    forall i | 0 <= i < |mcqs|
      ensures Matches(mcqs[i], "")
    {
      ContainsEmpty(ToLower(mcqs[i].question));
      assert ToLower("") == "";
    }
    KeepAll(mcqs, q => Matches(q, ""));
  }

  /** What a click on "Save to Database" leaves: the save and the message shown afterwards. */
  datatype SaveClick = SaveClick(outcome: DbService.SaveOutcome, alert: string)

  const SavedAlert := "Saved to Database!"

  /**
   * handleSaveToDB: an empty bank saves nothing and shows nothing; otherwise the
   * whole bank goes to the store and, once the save has returned, the success
   * message is shown whatever the save reported.
   */
  function HandleSaveToDB(mcqs: seq<Question>, connected: bool, store: DbService.Store, upsertError: Option<string>)
    : (out: Option<SaveClick>)
    ensures mcqs == [] <==> out.None?
    ensures out.Some? ==> out.value.outcome == DbService.SaveQuestionsToDB(connected, store, mcqs, upsertError)
    ensures out.Some? ==> out.value.alert == SavedAlert
  {
    if |mcqs| == 0 then None
    else Some(SaveClick(DbService.SaveQuestionsToDB(connected, store, mcqs, upsertError), SavedAlert))
  }

  /** The bank reported as saved although the store did not take it: no client, or a failed upsert. */
  lemma FailedSaveAlertsSuccess(mcqs: seq<Question>, connected: bool, store: DbService.Store, upsertError: Option<string>)
    requires mcqs != [] && (!connected || upsertError.Some?)
    ensures var out := HandleSaveToDB(mcqs, connected, store, upsertError);
      && out.Some? && out.value.alert == SavedAlert
      && !out.value.outcome.result.SaveOk?
      && out.value.outcome.store == store
  {
  }

  /** The message a save deserves: success only when the rows were stored, the error otherwise. */
  function SaveAlert(result: DbService.SaveResult): (m: string)
    ensures m == SavedAlert <==> result.SaveOk?
  {
    match result
    case SaveOk => SavedAlert
    case NotConfigured => "Error: Supabase not configured"
    case SaveFailed(error) =>
      assert ("Error: " + error)[0] != SavedAlert[0];
      "Error: " + error
  }

  /** handleSaveToDB reporting the save's own result. */
  function HandleSaveToDBReported(mcqs: seq<Question>, connected: bool, store: DbService.Store, upsertError: Option<string>)
    : (out: Option<SaveClick>)
    ensures mcqs == [] <==> out.None?
    ensures out.Some? ==> out.value.outcome == DbService.SaveQuestionsToDB(connected, store, mcqs, upsertError)
    ensures out.Some? ==> (out.value.alert == SavedAlert <==> connected && upsertError.None?)
  {
    if |mcqs| == 0 then None
    else
      var outcome := DbService.SaveQuestionsToDB(connected, store, mcqs, upsertError);
      Some(SaveClick(outcome, SaveAlert(outcome.result)))
  }
}
