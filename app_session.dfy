// The session state of the application shell (App.tsx): the queue of raw
// chunks and the bank of cleaned questions, the cleaning run over a snapshot
// of the queue, threshold-triggered auto-save of the unsaved suffix of the
// bank, loading a stream from the store, clearing, the processing statistics
// and the stream list offered to the paper generators.
//
// React state setters become field assignments. The AI answers, the store's
// query results and failures, the confirmation dialog and the clock are
// parameters. An auto-save is split into its start (the effect that fires it)
// and its settlement (the code after the awaited save), so that a save in
// flight is a state of its own.

module AppSession {

  import opened Types
  import opened Text
  import Seqs
  import GeminiService
  import DbService
  import LoggerService

  /** AUTO_SAVE_THRESHOLD: how many unsaved questions start an auto-save. */
  const AutoSaveThreshold: nat := 10

  // ---------------------------------------------------------------- chunk queue

  /** `prev.map(c => c.id === id ? { ...c, status } : c)`: every chunk with that id gets the status. */
  function MarkStatus(queue: seq<RawChunk>, id: string, status: ChunkStatus): (r: seq<RawChunk>)
    ensures |r| == |queue|
    ensures forall j :: 0 <= j < |r| ==> r[j] == if queue[j].id == id then queue[j].(status := status) else queue[j]
  {
    seq(|queue|, j requires 0 <= j < |queue| => if queue[j].id == id then queue[j].(status := status) else queue[j])
  }

  /** Marking a chunk as processing and then as completed is the same as completing it outright. */
  lemma ProcessingThenCompleted(queue: seq<RawChunk>, id: string)
    ensures MarkStatus(MarkStatus(queue, id, Processing), id, Completed) == MarkStatus(queue, id, Completed)
  {
    var twice := MarkStatus(MarkStatus(queue, id, Processing), id, Completed);
    assert forall j :: 0 <= j < |queue| ==> twice[j] == MarkStatus(queue, id, Completed)[j];
  }

  /** How many chunks of the queue have the given status (the `filter(...).length` of the statistics). */
  function CountStatus(queue: seq<RawChunk>, status: ChunkStatus): (n: nat)
    ensures n <= |queue|
  {
    if queue == [] then 0
    else CountStatus(queue[..|queue| - 1], status) + (if queue[|queue| - 1].status == status then 1 else 0)
  }

  lemma {:induction false} CountStatusAppend(xs: seq<RawChunk>, ys: seq<RawChunk>, status: ChunkStatus)
    ensures CountStatus(xs + ys, status) == CountStatus(xs, status) + CountStatus(ys, status)
    decreases |ys|
  {
    if ys == [] {
      assert xs + ys == xs;
    } else {
      var zs := xs + ys;
      assert zs[..|zs| - 1] == xs + ys[..|ys| - 1];
      CountStatusAppend(xs, ys[..|ys| - 1], status);
    }
  }

  /** If every chunk with the status in `after` already had it in `before`, the count cannot grow. */
  lemma {:induction false} CountStatusMonotone(before: seq<RawChunk>, after: seq<RawChunk>, status: ChunkStatus)
    requires |before| == |after|
    requires forall j :: 0 <= j < |after| && after[j].status == status ==> before[j].status == status
    ensures CountStatus(after, status) <= CountStatus(before, status)
    decreases |after|
  {
    if after != [] {
      CountStatusMonotone(before[..|before| - 1], after[..|after| - 1], status);
    }
  }

  /** A queue in which no chunk has the status counts none of it. */
  lemma {:induction false} CountStatusNone(queue: seq<RawChunk>, status: ChunkStatus)
    requires forall j :: 0 <= j < |queue| ==> queue[j].status != status
    ensures CountStatus(queue, status) == 0
    decreases |queue|
  {
    if queue != [] {
      CountStatusNone(queue[..|queue| - 1], status);
    }
  }

  /** The ids of the chunks among the first n of the snapshot that were pending. */
  function PendingIds(snapshot: seq<RawChunk>, n: nat): set<string>
    requires n <= |snapshot|
  {
    if n == 0 then {}
    else PendingIds(snapshot, n - 1) + (if snapshot[n - 1].status == Pending then {snapshot[n - 1].id} else {})
  }

  /** The queue once the first n chunks of the snapshot have been walked: each pending one has been completed. */
  function QueueAfter(queue: seq<RawChunk>, snapshot: seq<RawChunk>, n: nat): (r: seq<RawChunk>)
    requires n <= |snapshot|
    ensures |r| == |queue|
  {
    if n == 0 then queue
    else
      var before := QueueAfter(queue, snapshot, n - 1);
      if snapshot[n - 1].status == Pending then MarkStatus(before, snapshot[n - 1].id, Completed) else before
  }

  /** After the walk, exactly the chunks sharing an id with a pending chunk of the snapshot are completed. */
  lemma {:induction false} QueueAfterAt(queue: seq<RawChunk>, snapshot: seq<RawChunk>, n: nat, j: nat)
    requires n <= |snapshot| && j < |queue|
    ensures QueueAfter(queue, snapshot, n)[j] ==
      if queue[j].id in PendingIds(snapshot, n) then queue[j].(status := Completed) else queue[j]
    decreases n
  {
    if n > 0 {
      QueueAfterAt(queue, snapshot, n - 1, j);
    }
  }

  /** A pending chunk's id is among the pending ids of any prefix that contains it. */
  lemma {:induction false} PendingIdsContains(snapshot: seq<RawChunk>, n: nat, i: nat)
    requires i < n <= |snapshot| && snapshot[i].status == Pending
    ensures snapshot[i].id in PendingIds(snapshot, n)
    decreases n
  {
    if i < n - 1 {
      PendingIdsContains(snapshot, n - 1, i);
    }
  }

  /**
   * processQueue, on the queue: every chunk that was pending in the snapshot
   * is completed, the other fields of every chunk stay, and a chunk whose id
   * belongs to no pending chunk is left exactly as it was.
   */
  lemma ProcessQueueCompletesPending(snapshot: seq<RawChunk>, j: nat)
    requires j < |snapshot|
    ensures var after := QueueAfter(snapshot, snapshot, |snapshot|);
      && (snapshot[j].status == Pending ==> after[j] == snapshot[j].(status := Completed))
      && (snapshot[j].id !in PendingIds(snapshot, |snapshot|) ==> after[j] == snapshot[j])
      && (after[j].status == Completed || after[j] == snapshot[j])
  {
    QueueAfterAt(snapshot, snapshot, |snapshot|, j);
    if snapshot[j].status == Pending {
      PendingIdsContains(snapshot, |snapshot|, j);
    }
  }

  /**
   * processQueue sets no chunk to failed: a failed chunk afterwards was
   * failed before, so the failed count cannot grow, and nothing is left
   * pending.
   */
  lemma ProcessQueueNeverFails(snapshot: seq<RawChunk>)
    ensures var after := QueueAfter(snapshot, snapshot, |snapshot|);
      && (forall j :: 0 <= j < |after| && after[j].status == Failed ==> snapshot[j].status == Failed)
      && CountStatus(after, Failed) <= CountStatus(snapshot, Failed)
      && CountStatus(after, Pending) == 0
  {
    var after := QueueAfter(snapshot, snapshot, |snapshot|);
    forall j | 0 <= j < |after|
      ensures after[j].status != Pending
      ensures after[j].status == Failed ==> snapshot[j].status == Failed
    {
      ProcessQueueCompletesPending(snapshot, j);
    }
    CountStatusMonotone(snapshot, after, Failed);
    CountStatusNone(after, Pending);
  }

  /** After the walk over a whole snapshot no chunk is pending. */
  lemma NothingPendingAfterwards(snapshot: seq<RawChunk>)
    ensures CountStatus(QueueAfter(snapshot, snapshot, |snapshot|), Pending) == 0
  {
    ProcessQueueNeverFails(snapshot);
  }

  // ---------------------------------------------------------------- cleaning

  /**
   * The AI answers of one cleaning run, by position of the chunk in the
   * snapshot, and the ids crypto.randomUUID hands out, by chunk position and
   * item position.
   */
  datatype Cleaner = Cleaner(responses: nat -> GeminiService.AiResponse, ids: nat -> nat -> string)

  /** What cleanChunkWithAI returns for the chunk at position i. */
  function Cleaned(snapshot: seq<RawChunk>, cleaner: Cleaner, i: nat): seq<Question>
    requires i < |snapshot|
  {
    GeminiService.CleanChunkWithAI(snapshot[i], cleaner.responses(i), cleaner.ids(i))
  }

  /** The questions the first n chunks of the snapshot add to the bank: those of the pending chunks, in queue order. */
  function Extracted(snapshot: seq<RawChunk>, cleaner: Cleaner, n: nat): seq<Question>
    requires n <= |snapshot|
  {
    if n == 0 then []
    else Extracted(snapshot, cleaner, n - 1) + (if snapshot[n - 1].status == Pending then Cleaned(snapshot, cleaner, n - 1) else [])
  }

  /**
   * Every question a cleaning run adds comes from a chunk that was pending,
   * and carries that chunk's source type, source name and page.
   */
  lemma {:induction false} ExtractedFromPendingChunks(snapshot: seq<RawChunk>, cleaner: Cleaner, n: nat, q: Question)
    requires n <= |snapshot| && q in Extracted(snapshot, cleaner, n)
    ensures exists i :: (0 <= i < n && snapshot[i].status == Pending
      && q.sourceType == snapshot[i].sourceType && q.sourceName == snapshot[i].sourceName
      && q.pageOrUrl == snapshot[i].pageOrUrl)
    decreases n
  {
    var last := if snapshot[n - 1].status == Pending then Cleaned(snapshot, cleaner, n - 1) else [];
    if q in Extracted(snapshot, cleaner, n - 1) {
      ExtractedFromPendingChunks(snapshot, cleaner, n - 1, q);
    } else {
      assert q in last;
      var k :| 0 <= k < |last| && last[k] == q;
      assert snapshot[n - 1].status == Pending;
    }
  }

  /** A snapshot with no pending chunk adds nothing to the bank. */
  lemma {:induction false} NothingPendingNothingExtracted(snapshot: seq<RawChunk>, cleaner: Cleaner, n: nat)
    requires n <= |snapshot|
    requires forall i :: 0 <= i < |snapshot| ==> snapshot[i].status != Pending
    ensures Extracted(snapshot, cleaner, n) == []
    decreases n
  {
    if n > 0 {
      NothingPendingNothingExtracted(snapshot, cleaner, n - 1);
    }
  }

  /** One step of the walk: chunk i, when pending, is completed and adds its cleaned questions. */
  lemma WalkStep(snapshot: seq<RawChunk>, cleaner: Cleaner, i: nat)
    requires i < |snapshot|
    ensures QueueAfter(snapshot, snapshot, i + 1) ==
      if snapshot[i].status == Pending then MarkStatus(QueueAfter(snapshot, snapshot, i), snapshot[i].id, Completed)
      else QueueAfter(snapshot, snapshot, i)
    ensures Extracted(snapshot, cleaner, i + 1) ==
      Extracted(snapshot, cleaner, i) + (if snapshot[i].status == Pending then Cleaned(snapshot, cleaner, i) else [])
  {
  }

  /** The pending chunks among the first i, counted the way processQueue increments processedCount. */
  lemma PendingCountStep(snapshot: seq<RawChunk>, i: nat)
    requires i < |snapshot|
    ensures CountStatus(snapshot[..i + 1], Pending) ==
      CountStatus(snapshot[..i], Pending) + (if snapshot[i].status == Pending then 1 else 0)
  {
    assert snapshot[..i + 1][..i] == snapshot[..i];
  }

  // ---------------------------------------------------------------- auto-save

  /** The auto-save effect's condition: enough unsaved questions, no save in flight, a connected store. */
  predicate AutoSaveDue(bankSize: nat, lastSavedIndex: nat, isAutoSaving: bool, connected: bool): (due: bool)
    ensures due ==> lastSavedIndex + AutoSaveThreshold <= bankSize && !isAutoSaving && connected
    ensures lastSavedIndex + AutoSaveThreshold <= bankSize && !isAutoSaving && connected ==> due
  {
    bankSize - lastSavedIndex >= AutoSaveThreshold as int && !isAutoSaving && connected
  }

  /** `cleanBank.slice(lastSavedIndex)`: the questions not yet saved; nothing when the mark lies past the end. */
  function Unsaved(bank: seq<Question>, lastSavedIndex: nat): (qs: seq<Question>)
    ensures lastSavedIndex <= |bank| ==> bank == bank[..lastSavedIndex] + qs
    ensures lastSavedIndex >= |bank| ==> qs == []
  {
    if lastSavedIndex <= |bank| then bank[lastSavedIndex..] else []
  }

  /**
   * A due auto-save saves at least the threshold's worth of questions, all of
   * them from the unsaved end of the bank; right after a save has settled no
   * further save is due until the threshold is reached again.
   */
  lemma AutoSaveBatch(bank: seq<Question>, lastSavedIndex: nat, connected: bool, k: nat)
    ensures AutoSaveDue(|bank|, lastSavedIndex, false, connected) ==>
      lastSavedIndex < |bank| && |Unsaved(bank, lastSavedIndex)| >= AutoSaveThreshold
    ensures AutoSaveDue(|bank| + k, |bank|, false, connected) <==> k >= AutoSaveThreshold && connected
  {
  }

  /** How the awaited save settled: it returned (with or without an error object), or it threw. */
  datatype SaveCall = SaveReturned(upsertError: Option<string>) | SaveThrew

  /** The save stored its questions: it returned, from a configured store, without an error object. */
  predicate SaveSucceeded(call: SaveCall, connected: bool) {
    call.SaveReturned? && connected && call.upsertError.None?
  }

  // ---------------------------------------------------------------- streams and statistics

  /** The entry that stands for the questions of the session. */
  function SessionEntry(bankSize: nat): string {
    "Current Session (" + NatToString(bankSize) + " Qs)"
  }

  /** effectiveStreams: the store's streams, preceded by the session entry when the bank is non-empty. */
  function EffectiveStreams(bankSize: nat, dbStreams: seq<string>): (r: seq<string>)
    ensures bankSize == 0 ==> r == dbStreams
    ensures bankSize > 0 ==> |r| == |dbStreams| + 1 && r[0] == SessionEntry(bankSize) && r[1..] == dbStreams
  {
    if bankSize > 0 then [SessionEntry(bankSize)] + dbStreams else dbStreams
  }

  /** The session entry is the one the bulk generator recognises as the current session. */
  lemma SessionEntryRecognised(bankSize: nat)
    ensures Contains(SessionEntry(bankSize), "Current Session")
  {
    assert MatchesAt(SessionEntry(bankSize), "Current Session", 0) by {
      assert SessionEntry(bankSize)[..15] == "Current Session";
    }
  }

  /** ProcessingStats. */
  datatype ProcessingStats = ProcessingStats(totalChunks: nat, processedChunks: nat, questionsFound: nat, failedChunks: nat)

  function SessionStats(queue: seq<RawChunk>, processedCount: nat, bankSize: nat): (s: ProcessingStats)
    ensures s.totalChunks == |queue| && s.processedChunks == processedCount && s.questionsFound == bankSize
    ensures s.failedChunks == CountStatus(queue, Failed) && s.failedChunks <= s.totalChunks
  {
    ProcessingStats(|queue|, processedCount, bankSize, CountStatus(queue, Failed))
  }

  /** What handleLoadFromDB did. */
  datatype LoadOutcome = Loaded | Declined | NothingFound

  // ---------------------------------------------------------------- the session

  class Session {
    var queue: seq<RawChunk>
    var bank: seq<Question>
    var processedCount: nat
    var activeStream: string
    var dbStreams: seq<string>
    var isDBConnected: bool
    var lastSavedIndex: nat
    var isAutoSaving: bool
    /** The bank length the save in flight captured when it started. */
    var savingUpTo: nat
    /** The questions the save in flight carries. */
    var inFlight: seq<Question>
    /** The question table of the store. */
    var store: DbService.Store
    /**
     * How many times the bank has been emptied or replaced. Only the guarded
     * settlement, FinishAutoSaveGuarded, reads it.
     */
    var generation: nat
    /** The generation in which the save in flight started. */
    var savingGeneration: nat
    /**
     * Whether the save in flight found a client when it was called:
     * saveQuestionsToDB reads the client and sends the upsert before its
     * first await, so a later change of connection does not affect it.
     */
    var savingConnected: bool

    /**
     * The saved prefix lies within the bank; a save in flight that started on
     * the current bank covers a stretch of it beyond the saved prefix; and
     * never more chunks have been processed than there are non-pending chunks
     * in the queue.
     */
    ghost predicate Valid()
      reads this
    {
      && lastSavedIndex <= |bank|
      && savingGeneration <= generation
      && (isAutoSaving && savingGeneration == generation ==> lastSavedIndex <= savingUpTo <= |bank|)
      && processedCount + CountStatus(queue, Pending) <= |queue|
    }

    /** A fresh session; a connected store is asked for its streams. */
    constructor(connected: bool, store: DbService.Store, streams: DbService.StreamsQuery)
      ensures Valid()
      ensures queue == [] && bank == [] && processedCount == 0 && activeStream == ""
      ensures lastSavedIndex == 0 && !isAutoSaving && isDBConnected == connected && this.store == store
      ensures dbStreams == DbService.GetAvailableStreams(connected, streams)
    {
      queue := [];
      bank := [];
      processedCount := 0;
      activeStream := "";
      isDBConnected := connected;
      lastSavedIndex := 0;
      isAutoSaving := false;
      savingUpTo := 0;
      inFlight := [];
      this.store := store;
      generation := 0;
      savingGeneration := 0;
      savingConnected := false;
      dbStreams := DbService.GetAvailableStreams(connected, streams);
    }

    /**
     * checkDBConnection, run on start-up and again whenever the settings are
     * saved: the connection flag follows the client, and a connected store is
     * asked for its streams again. Nothing else changes.
     */
    method CheckDBConnection(connected: bool, streams: DbService.StreamsQuery)
      modifies this`isDBConnected, this`dbStreams
      ensures isDBConnected == connected
      ensures connected ==> dbStreams == DbService.GetAvailableStreams(connected, streams)
      ensures !connected ==> dbStreams == old(dbStreams)
      ensures old(Valid()) ==> Valid()
    {
      isDBConnected := connected;
      if connected {
        dbStreams := DbService.GetAvailableStreams(connected, streams);
      }
    }

    function Stats(): (s: ProcessingStats)
      reads this
      ensures s == SessionStats(queue, processedCount, |bank|)
    {
      SessionStats(queue, processedCount, |bank|)
    }

    /** handleAddChunks: the new chunks join the end of the queue. */
    method AddChunks(newChunks: seq<RawChunk>)
      modifies this`queue
      ensures queue == old(queue) + newChunks
      ensures old(Valid()) ==> Valid()
    {
      CountStatusAppend(queue, newChunks, Pending);
      queue := queue + newChunks;
    }

    /** handleAddDirectMCQs: the questions join the bank; the first one's stream, if set, becomes active. */
    method AddDirectMCQs(newQuestions: seq<Question>)
      modifies this`bank, this`activeStream
      ensures bank == old(bank) + newQuestions
      ensures activeStream == if |newQuestions| > 0 && Truthy(newQuestions[0].stream)
        then newQuestions[0].stream.value else old(activeStream)
      ensures old(Valid()) ==> Valid()
    {
      bank := bank + newQuestions;
      if |newQuestions| > 0 && Truthy(newQuestions[0].stream) {
        activeStream := newQuestions[0].stream.value;
      }
    }

    /**
     * processQueue: walks a snapshot of the queue; each chunk pending in the
     * snapshot is marked processing, cleaned, its questions appended to the
     * bank and marked completed, and counted as processed. Other chunks are
     * skipped. (The source's two skip tests, for neither pending nor failed
     * and for not pending, together skip every chunk that is not pending.)
     */
    method ProcessQueue(cleaner: Cleaner)
      modifies this`queue, this`bank, this`processedCount
      ensures old(Valid()) ==> Valid()
      ensures queue == QueueAfter(old(queue), old(queue), |old(queue)|)
      ensures bank == old(bank) + Extracted(old(queue), cleaner, |old(queue)|)
      ensures processedCount == old(processedCount) + CountStatus(old(queue), Pending)
    {
      var snapshot := queue;
      var i := 0;
      while i < |snapshot|
        invariant 0 <= i <= |snapshot|
        invariant queue == QueueAfter(snapshot, snapshot, i)
        invariant bank == old(bank) + Extracted(snapshot, cleaner, i)
        invariant processedCount == old(processedCount) + CountStatus(snapshot[..i], Pending)
        modifies this`queue, this`bank, this`processedCount
      {
        PendingCountStep(snapshot, i);
        WalkStep(snapshot, cleaner, i);
        if snapshot[i].status == Pending {
          HandleChunk(snapshot[i], cleaner.responses(i), cleaner.ids(i));
          Seqs.AppendAssoc(old(bank), Extracted(snapshot, cleaner, i), Cleaned(snapshot, cleaner, i));
        } else {
          assert Extracted(snapshot, cleaner, i) + [] == Extracted(snapshot, cleaner, i);
        }
        i := i + 1;
      }
      assert snapshot[..i] == snapshot;
      NothingPendingAfterwards(snapshot);
    }

    /**
     * One pending chunk of processQueue: marked processing, cleaned, its
     * questions appended to the bank, marked completed, and counted.
     */
    method HandleChunk(chunk: RawChunk, response: GeminiService.AiResponse, ids: nat -> string)
      modifies this`queue, this`bank, this`processedCount
      ensures queue == MarkStatus(old(queue), chunk.id, Completed)
      ensures bank == old(bank) + GeminiService.CleanChunkWithAI(chunk, response, ids)
      ensures processedCount == old(processedCount) + 1
    {
      ProcessingThenCompleted(queue, chunk.id);
      queue := MarkStatus(queue, chunk.id, Processing);
      var extractedMCQs := GeminiService.CleanChunkWithAI(chunk, response, ids);
      if |extractedMCQs| > 0 {
        bank := bank + extractedMCQs;
        queue := MarkStatus(queue, chunk.id, Completed);
      } else {
        queue := MarkStatus(queue, chunk.id, Completed);
      }
      processedCount := processedCount + 1;
    }

    /** The auto-save effect's condition on the current state. */
    predicate ShouldAutoSave()
      reads this
    {
      AutoSaveDue(|bank|, lastSavedIndex, isAutoSaving, isDBConnected)
    }

    /**
     * The auto-save effect and the start of performAutoSave: when a save is
     * due and something is unsaved, the save goes in flight with the unsaved
     * suffix, the bank length at this moment and the current generation.
     */
    method StartAutoSave() returns (started: bool)
      modifies this`isAutoSaving, this`inFlight, this`savingUpTo, this`savingGeneration, this`savingConnected
      ensures started <==> old(ShouldAutoSave()) && |bank| != lastSavedIndex
      ensures started ==> isAutoSaving && savingUpTo == |bank| && savingGeneration == generation
      ensures started ==> savingConnected == isDBConnected
      ensures started ==> inFlight == Unsaved(bank, lastSavedIndex) && |inFlight| >= AutoSaveThreshold
      ensures !started ==> isAutoSaving == old(isAutoSaving) && savingUpTo == old(savingUpTo)
                           && inFlight == old(inFlight) && savingGeneration == old(savingGeneration)
                           && savingConnected == old(savingConnected)
      ensures old(Valid()) ==> Valid()
    {
      if !ShouldAutoSave() || |bank| == lastSavedIndex {
        return false;
      }
      isAutoSaving := true;
      savingConnected := isDBConnected;
      inFlight := Unsaved(bank, lastSavedIndex);
      savingUpTo := |bank|;
      savingGeneration := generation;
      started := true;
    }

    /**
     * The rest of performAutoSave, once the save settles, as written. A save
     * that returns, even with an error object, moves the saved mark to the
     * bank length the save captured, whatever happened to the bank meanwhile;
     * a save that throws leaves the mark. The upsert reaches the store
     * according to the client found when the save was called. Either way the
     * save is no longer in flight and the streams are reloaded with the
     * connection as it is now.
     */
    method FinishAutoSave(call: SaveCall, streams: DbService.StreamsQuery)
      requires isAutoSaving
      modifies this`store, this`lastSavedIndex, this`isAutoSaving, this`dbStreams
      ensures call.SaveReturned? ==> (lastSavedIndex == savingUpTo
        && store == DbService.SaveQuestionsToDB(savingConnected, old(store), inFlight, call.upsertError).store)
      ensures call.SaveThrew? ==> lastSavedIndex == old(lastSavedIndex) && store == old(store)
      ensures !isAutoSaving && dbStreams == DbService.GetAvailableStreams(isDBConnected, streams)
      ensures old(Valid()) && savingGeneration == generation ==> Valid()
    {
      if call.SaveReturned? {
        var outcome := DbService.SaveQuestionsToDB(savingConnected, store, inFlight, call.upsertError);
        store := outcome.store;
        lastSavedIndex := savingUpTo;
      }
      isAutoSaving := false;
      dbStreams := DbService.GetAvailableStreams(isDBConnected, streams);
    }

    /**
     * The settlement as evidently intended: the mark moves only when the
     * upsert succeeded and the bank has been neither emptied nor replaced
     * since the save started, so the saved prefix always lies within the bank.
     */
    method FinishAutoSaveGuarded(call: SaveCall, streams: DbService.StreamsQuery)
      requires isAutoSaving
      modifies this`store, this`lastSavedIndex, this`isAutoSaving, this`dbStreams
      ensures SaveSucceeded(call, savingConnected) && savingGeneration == generation ==> lastSavedIndex == savingUpTo
      ensures !SaveSucceeded(call, savingConnected) || savingGeneration != generation ==>
        lastSavedIndex == old(lastSavedIndex)
      ensures call.SaveReturned? ==>
        store == DbService.SaveQuestionsToDB(savingConnected, old(store), inFlight, call.upsertError).store
      ensures call.SaveThrew? ==> store == old(store)
      ensures !isAutoSaving && dbStreams == DbService.GetAvailableStreams(isDBConnected, streams)
      ensures old(Valid()) ==> Valid()
    {
      if call.SaveReturned? {
        var outcome := DbService.SaveQuestionsToDB(savingConnected, store, inFlight, call.upsertError);
        store := outcome.store;
        if outcome.result == DbService.SaveOk && savingGeneration == generation {
          assert SaveSucceeded(call, savingConnected);
          lastSavedIndex := savingUpTo;
        }
      }
      isAutoSaving := false;
      dbStreams := DbService.GetAvailableStreams(isDBConnected, streams);
    }

    /**
     * handleLoadFromDB: a non-empty answer replaces the bank, marks all of it
     * saved and makes the stream active, unless the bank was non-empty and the
     * confirmation was declined; an empty answer changes nothing.
     */
    method LoadFromDB(stream: string, query: DbService.Query, confirmed: bool) returns (outcome: LoadOutcome)
      modifies this`bank, this`lastSavedIndex, this`activeStream, this`generation
      ensures var data := DbService.FetchQuestionsByStream(isDBConnected, query);
        && (data == [] <==> outcome == NothingFound)
        && (outcome == Declined <==> data != [] && old(bank) != [] && !confirmed)
        && (outcome == Loaded ==> bank == data && lastSavedIndex == |data| && activeStream == stream
                                  && generation == old(generation) + 1)
        && (outcome != Loaded ==> bank == old(bank) && lastSavedIndex == old(lastSavedIndex)
                                  && activeStream == old(activeStream) && generation == old(generation))
      ensures old(Valid()) ==> Valid()
    {
      var data := DbService.FetchQuestionsByStream(isDBConnected, query);
      if |data| > 0 {
        if |bank| > 0 && !confirmed {
          return Declined;
        }
        bank := data;
        lastSavedIndex := |data|;
        activeStream := stream;
        generation := generation + 1;
        outcome := Loaded;
      } else {
        outcome := NothingFound;
      }
    }

    /**
     * handleClear: empties the bank and the queue, resets the saved mark, the
     * processed count and the active stream, then clears the log and records
     * that the data was cleared. A save in flight is not cancelled.
     */
    method HandleClear(logger: LoggerService.LoggerService, now: string)
      modifies this`bank, this`queue, this`lastSavedIndex, this`processedCount, this`activeStream, this`generation
      modifies logger
      ensures queue == [] && bank == [] && lastSavedIndex == 0 && processedCount == 0 && activeStream == ""
      ensures generation == old(generation) + 1
      ensures logger.logs == [LogEntry(now, INFO, "App", "Data cleared", None)]
      ensures logger.listeners == old(logger.listeners)
      ensures old(Valid()) ==> Valid()
    {
      bank := [];
      queue := [];
      lastSavedIndex := 0;
      processedCount := 0;
      activeStream := "";
      generation := generation + 1;
      logger.Clear();
      logger.Info("App", "Data cleared", None, now);
    }

    /** The stream list handed to the paper generators. */
    function Streams(): (r: seq<string>)
      reads this
      ensures r == EffectiveStreams(|bank|, dbStreams)
    {
      EffectiveStreams(|bank|, dbStreams)
    }
  }

  // ---------------------------------------------------------------- auto-save traces

  /** A fresh connected session given `qs` directly: its first auto-save is in flight with all of them. */
  method StartedSession(qs: seq<Question>, store: DbService.Store, streams: DbService.StreamsQuery)
    returns (s: Session)
    requires |qs| >= AutoSaveThreshold
    ensures fresh(s) && s.isDBConnected && s.store == store && s.bank == qs && s.lastSavedIndex == 0
    ensures s.isAutoSaving && s.inFlight == qs && s.savingUpTo == |qs| && s.savingGeneration == s.generation
    ensures s.savingConnected && s.Valid()
  {
    s := new Session(true, store, streams);
    s.AddDirectMCQs(qs);
    assert s.ShouldAutoSave() && s.bank == qs && s.lastSavedIndex == 0 && s.Valid();
    var started := s.StartAutoSave();
    assert s.inFlight == qs[0..] == qs;
  }

  /**
   * A session started without a store collects `qs` and saves nothing; once
   * the settings connect it, the auto-save becomes due and goes in flight
   * with every question collected so far.
   */
  method ReconnectStartsSave(qs: seq<Question>, store: DbService.Store, streams: DbService.StreamsQuery)
    returns (dueOffline: bool, s: Session)
    requires |qs| >= AutoSaveThreshold
    ensures !dueOffline
    ensures fresh(s) && s.isDBConnected && s.bank == qs && s.lastSavedIndex == 0
    ensures s.isAutoSaving && s.inFlight == qs && s.savingUpTo == |qs|
  {
    s := new Session(false, store, streams);
    s.AddDirectMCQs(qs);
    dueOffline := s.ShouldAutoSave();
    s.CheckDBConnection(true, streams);
    assert s.ShouldAutoSave() && s.bank == qs && s.lastSavedIndex == 0 && s.Valid();
    var started := s.StartAutoSave();
    assert s.inFlight == qs[0..] == qs;
  }

  /**
   * The settings disconnect the store while the first auto-save is in
   * flight: the upsert was already sent, so the questions reach the store and
   * are marked saved, while the streams reloaded afterwards come from no
   * client.
   */
  method DisconnectDuringSave(qs: seq<Question>, store: DbService.Store, streams: DbService.StreamsQuery)
    returns (s: Session)
    requires |qs| >= AutoSaveThreshold
    ensures !s.isDBConnected && !s.isAutoSaving
    ensures s.store == DbService.SaveQuestionsToDB(true, store, qs, None).store
    ensures forall q :: q in qs ==> q.qid in s.store
    ensures s.bank == qs && s.lastSavedIndex == |qs|
    ensures s.dbStreams == DbService.GetAvailableStreams(false, streams)
  {
    s := StartedSession(qs, store, streams);
    s.CheckDBConnection(false, streams);
    s.FinishAutoSave(SaveReturned(None), streams);
  }

  /** A session whose first auto-save, carrying `qs`, is still in flight when the user clears the data. */
  method ClearedWhileSaving(qs: seq<Question>, store: DbService.Store, streams: DbService.StreamsQuery, now: string)
    returns (s: Session)
    requires |qs| >= AutoSaveThreshold
    ensures fresh(s) && s.isDBConnected && s.store == store && s.bank == [] && s.lastSavedIndex == 0
    ensures s.isAutoSaving && s.inFlight == qs && s.savingUpTo == |qs| && s.savingGeneration != s.generation
  {
    s := StartedSession(qs, store, streams);
    var logger := new LoggerService.LoggerService();
    s.HandleClear(logger, now);
  }

  /**
   * The questions `qs` are added to a session with an empty bank and no save
   * in flight; the auto-save that becomes due goes in flight with the
   * questions past the saved mark.
   */
  method AddAndStartSave(s: Session, qs: seq<Question>) returns (sent: seq<Question>)
    requires s.isDBConnected && !s.isAutoSaving && s.bank == [] && s.lastSavedIndex + AutoSaveThreshold <= |qs|
    modifies s
    ensures sent == qs[old(s.lastSavedIndex)..] && sent == s.inFlight
    ensures s.bank == qs && s.isAutoSaving && s.savingUpTo == |qs| && s.savingGeneration == s.generation
    ensures s.isDBConnected && s.savingConnected
  {
    var mark := s.lastSavedIndex;
    s.AddDirectMCQs(qs);
    assert s.bank == qs && s.lastSavedIndex == mark && s.ShouldAutoSave();
    var started := s.StartAutoSave();
    sent := s.inFlight;
  }

  /**
   * A save that settles after a Clear, as written: the first save carries the
   * questions added before the Clear and, once it returns, sets the mark to
   * their number although the bank is now empty. Of the questions added
   * afterwards, the next save carries only those past that stale mark, yet
   * once it returns every one of them is marked saved.
   */
  method LostAutoSaveAfterClear(first: seq<Question>, later: seq<Question>, store: DbService.Store,
                                streams: DbService.StreamsQuery, now: string)
    returns (sent: seq<seq<Question>>, staleMark: nat, s: Session)
    requires |first| >= AutoSaveThreshold && |later| >= |first| + AutoSaveThreshold
    ensures staleMark == |first| > 0
    ensures sent == [first, later[|first|..]]
    ensures s.bank == later && s.lastSavedIndex == |later|
  {
    s := ClearedWhileSaving(first, store, streams, now);
    s.FinishAutoSave(SaveReturned(None), streams);
    staleMark := s.lastSavedIndex;
    var second := AddAndStartSave(s, later);
    s.FinishAutoSave(SaveReturned(None), streams);
    sent := [first, second];
  }

  /** A save started before a Clear settles under the guard: the cleared session keeps its mark at 0. */
  method StaleSaveIgnored(qs: seq<Question>, store: DbService.Store, streams: DbService.StreamsQuery, now: string)
    returns (s: Session)
    requires |qs| >= AutoSaveThreshold
    ensures fresh(s) && s.isDBConnected && s.bank == [] && s.lastSavedIndex == 0 && !s.isAutoSaving
  {
    s := ClearedWhileSaving(qs, store, streams, now);
    s.FinishAutoSaveGuarded(SaveReturned(None), streams);
  }

  /** The same run with the guarded settlement: the second save carries every question added after the Clear. */
  method GuardedAutoSaveAfterClear(first: seq<Question>, later: seq<Question>, store: DbService.Store,
                                   streams: DbService.StreamsQuery, now: string)
    returns (sent: seq<seq<Question>>, markAfterClear: nat, s: Session)
    requires |first| >= AutoSaveThreshold && |later| >= AutoSaveThreshold
    ensures markAfterClear == 0
    ensures sent == [first, later]
    ensures s.bank == later && s.lastSavedIndex == |later|
  {
    s := StaleSaveIgnored(first, store, streams, now);
    markAfterClear := s.lastSavedIndex;
    var second := AddAndStartSave(s, later);
    assert second == later[0..] == later;
    assert SaveSucceeded(SaveReturned(None), s.savingConnected) && s.savingGeneration == s.generation;
    s.FinishAutoSaveGuarded(SaveReturned(None), streams);
    sent := [first, second];
  }

  /**
   * An upsert that fails, as written: saveQuestionsToDB reports the error by
   * returning it, so the settlement marks the questions saved while the store
   * is unchanged, and no further auto-save is due.
   */
  method FailedUpsertMarkedSaved(qs: seq<Question>, store: DbService.Store, streams: DbService.StreamsQuery,
                                 error: string)
    returns (s: Session)
    requires |qs| >= AutoSaveThreshold
    ensures s.bank == qs && s.lastSavedIndex == |qs| && s.store == store
    ensures !s.ShouldAutoSave()
  {
    s := StartedSession(qs, store, streams);
    s.FinishAutoSave(SaveReturned(Some(error)), streams);
  }

  /** The same failure with the guarded settlement: nothing is marked saved and the save is due again. */
  method GuardedFailedUpsertKeepsMark(qs: seq<Question>, store: DbService.Store, streams: DbService.StreamsQuery,
                                      error: string)
    returns (s: Session)
    requires |qs| >= AutoSaveThreshold
    ensures s.bank == qs && s.lastSavedIndex == 0 && s.store == store
    ensures s.ShouldAutoSave() && Unsaved(s.bank, s.lastSavedIndex) == qs
  {
    s := StartedSession(qs, store, streams);
    s.FinishAutoSaveGuarded(SaveReturned(Some(error)), streams);
  }
}
