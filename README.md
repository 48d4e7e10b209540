# AutoMCQ question-bank core, modelled in Dafny

AutoMCQ turns raw exam text into a bank of classified questions: multiple-choice (MCQ),
multiple-select (MSQ) and numerical-answer (NAT). It then assembles question papers from
that bank. This project models the sequential core of that pipeline and proves properties
about it:

- **Paper selection** (`AppSelection`). `selectQuestionsForPaper` goes through the configured
  sections in order. For each section it filters the whole pool by kind and shuffles the
  result with Fisher–Yates (`Shuffling`, `ExportService.ShuffleArray`). It then appends a
  prefix of at most `count` questions and records per-kind `{available, requested}`
  statistics.
- **Paper assembly** (`ExportService`). This covers the instruction table and its totals, and
  the single-cursor section walk of the PDF and spreadsheet exports. Numbering is continuous
  across sections. A NAT section gets an answer box and any other kind gets four options. The
  rich-render path falls back to plain text. It also covers the truncating solutions table and
  the empty guard of the zip bundle.
- **Session state** (`AppSession`). A class `Session` holds the chunk queue and the
  append-only bank. The cleaning run walks a snapshot of the queue. Auto-save of the unsaved
  suffix starts at the threshold. The session can load a stream from the store, clear
  everything, and build the stream list offered to the bulk form.
- **Bulk generation** (`AppBulk`). Multi-stream mode isolates errors per stream. Multi-set mode
  validates up front and then runs N selections with numbered file names. The archive is built
  only when files exist.
- **Topic generation** (`GeminiService`). This covers how AI items become questions, the
  in-place shuffle, and how the topic list is chosen. Topics are processed in batches of three,
  and each topic label is rewritten. The progress and found-questions callbacks are recorded
  as a trace of events.
- **Helpers**:
  - store row mappings, the upsert store and distinct streams (`DbService`);
  - the CSV projection (`CsvService`);
  - the syllabus table (`SyllabusData`);
  - the logger class (`LoggerService`);
  - the two configuration forms (`PaperConfigModal`, `BulkPaperModal`);
  - the search filter, the save guard and the message shown after a save (`ResultsTable`);
  - the datatypes of `types.ts` (`Types`).

External effects are parameters:

- randomness is a sequence of draws per shuffle;
- the AI answers, the store's query results and save errors are values;
- so are the confirm dialog, the render oracle, timestamps and generated ids.

Helper modules:

- `Seqs` holds generic sequence lemmas and the `filter(x => x !== y)` removal.
- `Text` models the JavaScript string operations used: `includes`, first-occurrence `replace`,
  `trim`, lower/upper case, `/\s+/g` and `/\n+/g` replacement, `join` and number printing.

Modelling choices:

- Marks and negative marks are `real`, so fractional marks such as 0.33 are kept as entered.
  The source adds them as IEEE doubles (see "## Left out").
- `Math.floor(Math.random() * (i + 1))` is the draw `rand[i] % (i + 1)`. A missing draw counts
  as 0, which is itself a possible outcome of `Math.random`.
- An awaited call is split where the code yields: auto-save is `StartAutoSave` (up to the
  `await`) and `FinishAutoSave` (what runs once the call settles), so a Clear or a Load can be
  placed between the two.

What the code does, and the model with it:

- **No chunk ends in `failed`.** `cleanChunkWithAI` catches every error and returns `[]`
  (services/geminiService.ts:119-122), and `processQueue` marks every handled chunk
  `completed` (App.tsx:134-143). No code path sets `failed` (`AppSession.ProcessQueueNeverFails`).
- **A returned upsert error still counts as saved.** `saveQuestionsToDB` reports an upsert
  error by returning `{error}` (services/dbService.ts:31-34). The awaited call therefore
  completes and `performAutoSave` moves `lastSavedIndex` (App.tsx:69-70); only a thrown error
  leaves it (`Session.FinishAutoSave`). See "## Findings".
- **A save settling after a Clear still moves the mark.** `handleClear` resets
  `lastSavedIndex` to 0 (App.tsx:306-314), but a save in flight then sets it to the bank length
  it captured, which can lie past the end of the new bank; `slice` past the end is empty, so
  the questions added next are partly never saved. See "## Findings".
- **Bulk papers render the configuration as entered.** The bulk loops pass `streamConfig` and
  `setConfig` to the generators unchanged (App.tsx:230-231, 272-273), so the section counts
  are not capped at what was selected. See "## Findings".

## Model

| member | source | states |
|---|---|---|
| `AppSelection.SelectQuestionsForPaper` | App.tsx:160-172 | the loop's result is exactly the section-by-section selection and the per-kind statistics |
| `AppSelection.Selection` | App.tsx:164-170 | the selection holds Σ min(count, available-of-kind) questions over the sections |
| `AppSelection.Block` | App.tsx:165-169 | a section contributes min(count, available) questions, all of its kind |
| `AppSelection.OfKindMultiset` | App.tsx:165 | the kind filter keeps every question of that kind as often as the pool holds it and nothing else |
| `AppSelection.OfKindAppend` | App.tsx:165 | the kind filter keeps the pool order |
| `AppSelection.BlockFromPool` | App.tsx:165-169 | a section never takes a question more often than the pool holds it, so no question appears twice within one section of a duplicate-free pool |
| `AppSelection.SelectionBlockAt` | App.tsx:164-170 | the stretch of the selection for section s is exactly section s's block: blocks appear in section order |
| `AppSelection.SelectionElement` | App.tsx:169 | question j of block s stands at position BlockStart(s)+j of the selection |
| `AppSelection.SelectionKinds` | App.tsx:164-170 | every selected question in section s's stretch has section s's kind |
| `AppSelection.SameQuestionInTwoSections` | App.tsx:165-169 | sections draw from the whole pool: one MCQ and two one-question MCQ sections select it twice |
| `AppSelection.SetStat` | App.tsx:166 | assigning a stats entry overwrites an existing key in place or appends a new key, leaving other kinds unchanged |
| `AppSelection.StatsRecordLastSection` | App.tsx:166 | stats[kind] is {available: pool count of kind, requested: count of the last section of that kind} |
| `AppSelection.StatsAbsent` | App.tsx:166 | a kind no section has gets no stats entry |
| `AppSelection.StatsKeysDistinct` | App.tsx:166 | every kind appears at most once among the stats keys |
| `Shuffling.Pick` | services/exportService.ts:136 | the swap partner for position i lies in 0..i |
| `Shuffling.SwapAt` | services/exportService.ts:137 | a swap exchanges two positions, keeps the rest and the multiset |
| `Shuffling.Swap` | services/exportService.ts:137 | the in-place array swap equals SwapAt on the array's contents |
| `Shuffling.ShuffledIsPermutation` | services/exportService.ts:135-138 | every partial run of the shuffle loop is a permutation and leaves positions from hi on untouched |
| `Shuffling.ShuffleIsPermutation` | services/exportService.ts:133-140 | the shuffle returns a permutation: same length, same multiset |
| `ExportService.ShuffleArray` | services/exportService.ts:133-140 | the down-counting swap loop on a copy computes the Fisher–Yates shuffle, a permutation of the input; the input is a value and is not changed |
| `ExportService.MarksTable` | services/exportService.ts:171-177 | one instruction-table row per section, in order |
| `ExportService.TotalsMatchRows` | services/exportService.ts:171-188 | each row total is count × marks; the totals row is Σcount and Σ(count × marks) of the rows |
| `ExportService.HeaderOf` | services/exportService.ts:164-220 | the first page carries the upper-cased title, the marks table with one row per section, and the totals |
| `ExportService.BodyOf` | services/exportService.ts:250-296 | the rich path is used only for `$`, `\`, `![` or an image URL with a renderer that succeeds; otherwise plain text with newline runs collapsed and trimmed |
| `ExportService.AnswerAreaShape` | services/exportService.ts:299-311 | a NAT section emits only an answer box; every other kind emits exactly four options labelled a) to d) with texts a to d |
| `ExportService.CursorSteps` | services/exportService.ts:226-247 | section s consumes the next min(count, remaining) questions; once the list is exhausted later sections get none |
| `ExportService.Entries` | services/exportService.ts:239-247 | the entries of a cursor stretch are numbered lo+1 .. hi |
| `ExportService.SectionEntries` | services/exportService.ts:239-247 | the inner loop emits up to `count` entries from the cursor, stopping when the list runs out |
| `ExportService.GeneratePaperBody` | services/exportService.ts:226-348 | the section walk with one shared cursor equals the section-by-section definition |
| `ExportService.GeneratePaperPDF` | services/exportService.ts:142-348 | the question paper is the header followed by the walked sections |
| `ExportService.PaperSectionAt` | services/exportService.ts:228-347 | section s is numbered s+1, carries its kind and marks and holds the entries of its cursor range |
| `ExportService.PaperEntryAt` | services/exportService.ts:239-247 | entry j of section s is question lo+j rendered under section s's kind |
| `ExportService.LabelsContinuous` | services/exportService.ts:247 | question labels run 1, 2, … across all sections without restarting |
| `Types.OrDefault` | services/exportService.ts:381 | `s \|\| d` on a string field: the value when it is present and non-empty, the default otherwise; also the `N/A` answer cell, the `Google Search` source and the `General` stream and topic |
| `ExportService.ExplanationCell` | services/exportService.ts:382 | the explanation (default `No explanation provided.`) is cut to 100 characters, `...` added only when it is longer than 100 |
| `ExportService.SolutionsTable` | services/exportService.ts:378-383 | one row per question, in order: idx+1, type, answer cell, explanation cell |
| `ExportService.ExcelRows` | services/exportService.ts:413-440 | the spreadsheet has as many rows as the cursor walk consumes: min(Σcount, number of questions) |
| `ExportService.SectionRows` | services/exportService.ts:417-439 | the inner loop emits up to `count` rows from the cursor |
| `ExportService.GeneratePaperExcel` | services/exportService.ts:410-440 | the row loop equals the cursor-walk definition |
| `ExportService.ExcelRowsFollowCursor` | services/exportService.ts:416-440 | row i is question i beside the type, marks and negative marks of the section whose cursor range holds i |
| `ExportService.ExcelRowAt` | services/exportService.ts:421-436 | the row at a cursor position carries that question and that section |
| `ExportService.CreateZipBundle` | services/exportService.ts:449-464 | an empty file list produces nothing; otherwise one archive named `Bulk_Question_Papers_<date>.zip` with an entry for every file name and no other entry; with distinct names every entry holds its file |
| `ExportService.ZipEntries` | services/exportService.ts:455-456 | the entry names are exactly the files' names |
| `ExportService.ZipKeepsLastOfName` | services/exportService.ts:455-456 | a file no later file shares a name with is stored as given |
| `ExportService.ZipSameNameKeepsLast` | services/exportService.ts:455-456 | two files of one name leave one entry holding the later file |
| `PaperAlignment.CursorWalkMisaligned` | services/exportService.ts:239-247 | as written: one MCQ + one NAT with sections (MCQ,2),(NAT,1) prints the NAT question as Q.2 with options under the MCQ section and leaves the NAT section empty |
| `PaperAlignment.ShortSelection` | App.tsx:164-170 | that pool and configuration select [mcq, nat] |
| `PaperAlignment.DeliveredSections` | services/exportService.ts:239 | the corrected counts: each section's count capped at what the selection delivered for it, kind and marks unchanged |
| `PaperAlignment.DeliveredTotal` | services/exportService.ts:239 | the capped counts sum to the selection's length |
| `PaperAlignment.AlignedCursor` | services/exportService.ts:226-247 | under capped counts the cursor range of section s is exactly block s's stretch |
| `PaperAlignment.AlignedPaperMatchesBlocks` | services/exportService.ts:228-347 | corrected: paper section s holds exactly block s's questions, numbered continuously, all of section s's kind |
| `PaperAlignment.AlignedExcelMatchesBlocks` | services/exportService.ts:416-440 | corrected: spreadsheet row BlockStart(s)+j is question j of block s beside section s's kind and marks |
| `AppSession.MarkStatus` | App.tsx:134 | every chunk with the id gets the new status, all others are unchanged |
| `AppSession.ProcessingThenCompleted` | App.tsx:134-143 | marking processing then completed equals completing outright |
| `AppSession.QueueAfter` | App.tsx:127-147 | the walk keeps the queue's length |
| `AppSession.QueueAfterAt` | App.tsx:127-147 | after the walk, exactly the chunks sharing an id with a snapshot-pending chunk are completed, the rest unchanged |
| `AppSession.ProcessQueueCompletesPending` | App.tsx:127-147 | each snapshot-pending chunk ends completed with its other fields kept; other chunks are untouched |
| `AppSession.ProcessQueueNeverFails` | App.tsx:128-147 | no chunk becomes failed, the failed count cannot grow, nothing stays pending |
| `AppSession.NothingPendingAfterwards` | App.tsx:127-147 | no chunk of the snapshot is pending after the run |
| `AppSession.ExtractedFromPendingChunks` | App.tsx:131-141 | `Extracted`, the questions a run adds: every one comes from a snapshot-pending chunk and carries its source fields |
| `AppSession.NothingPendingNothingExtracted` | App.tsx:131-134 | `Extracted` of a snapshot with no pending chunk is empty: nothing joins the bank |
| `AppSession.AutoSaveDue` | App.tsx:55-60 | the auto-save effect fires iff at least 10 questions are unsaved, none is in flight and the store is connected |
| `AppSession.Unsaved` | App.tsx:66 | the questions to save are the bank after lastSavedIndex; nothing when the mark lies at or past the end |
| `AppSession.AutoSaveBatch` | App.tsx:55-66 | a due auto-save carries at least 10 questions from the end of the bank; after a save, another is due iff 10 more arrive on a connected store |
| `AppSession.EffectiveStreams` | App.tsx:316-320 | the store's streams, preceded by `Current Session (<n> Qs)` exactly when the bank is non-empty |
| `AppSession.SessionEntryRecognised` | App.tsx:205 | the session entry contains `Current Session`, so the bulk generator reads it from the bank |
| `AppSession.SessionStats` | App.tsx:85-90 | the statistics count the queue, processed chunks, bank size and failed chunks, failed ≤ total |
| `AppSession.Session.constructor` | App.tsx:19-51 | a fresh session: empty queue and bank, nothing saved, the store's streams when connected |
| `AppSession.Session.CheckDBConnection` | App.tsx:47-53 | the connection flag takes the client's state; a connected store's streams are loaded again, and otherwise the stream list is kept; the session invariant is kept |
| `AppSession.ReconnectStartsSave` | App.tsx:47-60 | questions collected while no store is connected are not saved; once the settings connect one, the auto-save becomes due and goes in flight with all of them |
| `AppSession.Session.AddChunks` | App.tsx:92-95 | new chunks join the end of the queue; only the queue changes; the session invariant is kept |
| `AppSession.Session.AddDirectMCQs` | App.tsx:97-103 | questions join the bank; the first one's non-empty stream becomes active; the invariant is kept |
| `AppSession.Session.ProcessQueue` | App.tsx:124-151 | over the snapshot, pending chunks are completed, the bank grows by their questions in queue order, processedCount grows by the number of pending chunks, nothing else changes; the invariant is kept |
| `AppSession.Session.HandleChunk` | App.tsx:134-147 | one chunk: completed, its questions appended, counted once |
| `AppSession.Session.StartAutoSave` | App.tsx:55-66 | a save starts iff it is due and something is unsaved; it carries exactly bank[lastSavedIndex..], at least 10 questions, and records the bank length, the session generation it started in and whether a client was found when the save was called |
| `AppSession.Session.FinishAutoSave` | App.tsx:68-77 | as written: a save that returns, even with `{error}`, moves lastSavedIndex to the captured bank length, even after a Clear or Load; a thrown error leaves it; the upsert reaches the store according to the client found when the save was called; streams are reloaded with the connection as it is now |
| `AppSession.DisconnectDuringSave` | services/dbService.ts:6-29 | a store disconnected while the save is in flight still receives every question of the save, which are marked saved; the reloaded streams come from no client |
| `AppSession.Session.FinishAutoSaveGuarded` | App.tsx:68-77 | corrected: the mark moves to the captured length only when the upsert stored the questions and no Clear or Load intervened, success judged by the client found when the save was called; otherwise it stays; the invariant `lastSavedIndex <= \|bank\|` is kept |
| `AppSession.Session.LoadFromDB` | App.tsx:105-122 | non-empty data replaces the bank and marks it saved unless a non-empty bank was not confirmed; empty data changes nothing; the invariant is kept |
| `AppSession.Session.HandleClear` | App.tsx:306-314 | bank, queue, saved mark, processed count and active stream reset; the log holds only `Data cleared`; the invariant is kept |
| `AppSession.LostAutoSaveAfterClear` | App.tsx:62-77 | as written: a save started before a Clear sets the mark to its old length; the next save carries only the questions past it, yet all are marked saved |
| `AppSession.GuardedAutoSaveAfterClear` | App.tsx:62-77 | corrected: after a Clear the mark stays 0 and the next save carries every new question |
| `AppSession.FailedUpsertMarkedSaved` | services/dbService.ts:31-34 | as written: an upsert error leaves the store unchanged but marks the questions saved, and no save is due again |
| `AppSession.GuardedFailedUpsertKeepsMark` | services/dbService.ts:31-34 | corrected: after an upsert error nothing is marked saved and the same questions are due again |
| `AppBulk.MixedSubject` | App.tsx:221 | a stream without the session marker keeps its name as subject |
| `AppBulk.MixedSubjectOfSessionEntry` | App.tsx:221 | the session entry becomes the subject `Mixed Questions` |
| `AppBulk.StreamResults` | App.tsx:201-238 | one outcome per stream, in order, each computed independently |
| `AppBulk.StreamAccounting` | App.tsx:215-235 | each stream yields either one error or two files: files = 2 × (streams − errors) |
| `AppBulk.ResultsAppend` | App.tsx:201-238 | streams are independent: files and errors of a concatenated run are those of each part |
| `AppBulk.StreamOutcome` | App.tsx:202-235 | a stream errs iff its pool is empty or it selects nothing; otherwise both papers carry the selection and the configuration as entered under the stream's subject, named `<name>_QP.pdf` and `<name>_SOL.pdf`, where `<name>` is `Current_Session` for the session entry and otherwise the stream with each white-space run replaced by `_` |
| `AppBulk.StatLineInjective` | App.tsx:225 | a statistics line names its kind, requested and available counts unambiguously |
| `AppBulk.Details` | App.tsx:225 | no entries give an empty text; one entry gives its line |
| `AppBulk.DetailsSnoc` | App.tsx:225 | each further entry adds `, ` and its line, in insertion order |
| `AppBulk.StreamFileNamesCollide` | App.tsx:234-235 | `A B` and `A_B` sanitise to the same name |
| `AppBulk.StreamPapersCollide` | App.tsx:234-235 | streams `A B` and `A_B` write papers of the same file names, so the archive keeps only one of them |
| `AppBulk.SetLetterAlphabet` | App.tsx:268 | `SetLetter`: sets 1..26 are lettered A..Z in order, each distinct |
| `AppBulk.SetSubjectShape` | App.tsx:268 | the subject ends in ` - Set <letter>`; a target without the session marker is kept in front of it |
| `AppBulk.SetSubjectsDistinct` | App.tsx:268 | among the first 26 sets, different sets get different subjects |
| `AppBulk.SetSubjectOfSessionEntry` | App.tsx:268 | the session entry's sets are titled `Mixed (<n> Qs) - Set <letter>` |
| `AppBulk.SetFileNameShape` | App.tsx:275-277 | the name ends in the paper's suffix and has no white space before it |
| `AppBulk.SetsFiles` | App.tsx:266-279 | N sets yield exactly 2N files |
| `AppBulk.SetsFileAt` | App.tsx:266-279 | file k belongs to set k/2+1, question paper first then solutions |
| `AppBulk.SetsFileNameAt` | App.tsx:266-279 | file k is named `<stream>_Set_<i>_QP.pdf` or `_SOL.pdf` and renders set i's selection under subject `… - Set <letter>` |
| `AppBulk.SetFileNamesDistinct` | App.tsx:275-277 | two set file names agree only for the same set and paper kind |
| `AppBulk.SetsFilesDistinct` | App.tsx:266-279 | no two files of a multi-set run share a name |
| `AppBulk.Report` | App.tsx:283-295 | files and errors pass through; an archive iff files exist; no alert iff files exist and nothing failed; `No files generated. Check logs.` when nothing happened |
| `AppBulk.MultiSetRun` | App.tsx:242-281 | an empty pool or test selection aborts with an alert and no files; otherwise the files of sets 1..N, with an archive and no alert when N > 0; never error lines |
| `AppBulk.BulkGenerate` | App.tsx:188-304 | an archive iff files exist; error lines only in multi-stream mode; neither branch gives no files and `No files generated. Check logs.` |
| `AppBulk.BulkGenerateFiles` | App.tsx:188-304 | an archive exists iff files exist and has an entry of every file name; multi-stream gives 2 files per successful stream; multi-set aborts on an empty pool or test selection, otherwise gives 2N distinctly named files, each stored in the archive |
| `AppBulk.GenerateForStream` | App.tsx:201-236 | the loop body for one stream equals its specified outcome |
| `AppBulk.GenerateStreams` | App.tsx:200-238 | the multi-stream loop pushes exactly the files and errors of the streams, in order |
| `AppBulk.GenerateSet` | App.tsx:266-279 | the loop body for set i yields set i's two papers |
| `AppBulk.GenerateSets` | App.tsx:266-279 | the multi-set loop yields the files of sets 1..N in order |
| `AppBulk.HandleBulkGenerate` | App.tsx:188-304 | the whole handler equals the specified bulk outcome |
| `GeminiService.CleanChunkWithAI` | services/geminiService.ts:56-123 | never fails: unparseable text or a failed call give []; else one question per item in order, type defaulting to MCQ, missing strings as '', with the chunk's source fields |
| `GeminiService.SearchAndExtractWebQuestions` | services/geminiService.ts:126-227 | failure gives []; else one WEB question per item, in order, named `AI: <topic>`, citing the grounding page, tagged with stream and topic, its kind defaulting to MCQ and its options, answer, explanation and image defaulting to the empty string |
| `GeminiService.ShuffleInPlace` | services/geminiService.ts:230-238 | the in-place loop computes the Fisher–Yates shuffle of the old contents, a permutation, and returns the same array |
| `GeminiService.ChooseTopics` | services/geminiService.ts:250-280 | non-empty forced topics are shuffled; otherwise planned topics are shuffled, or the three fixed defaults when planning fails |
| `GeminiService.ForcedTopicsPermuted` | services/geminiService.ts:252-255 | forced topics are used as a permutation of themselves |
| `GeminiService.PlanTopics` | services/geminiService.ts:250-278 | the topic choice, shuffling an array copy, equals ChooseTopics; the caller's list is a value and is untouched |
| `GeminiService.Batches` | services/geminiService.ts:283-286 | ceil(n/3) batches |
| `GeminiService.BatchAt` | services/geminiService.ts:285-286 | batch k is topics[3k .. min(3k+3, n)) |
| `GeminiService.BatchCount` | services/geminiService.ts:285 | batch k exists iff 3k < n |
| `GeminiService.BatchesCoverTopics` | services/geminiService.ts:285-307 | the batches cover the topic list exactly once, in order |
| `GeminiService.EnrichTopic` | services/geminiService.ts:294 | the label is the topic with the stream's first occurrence removed and trimmed, or the topic if that is empty |
| `GeminiService.EnrichTopicStripsStream` | services/geminiService.ts:294 | a topic `<stream> <rest>` is labelled `<rest>` |
| `GeminiService.Enriched` | services/geminiService.ts:294 | every question of a topic gets the enriched label, nothing else changes |
| `GeminiService.FoundEventsNonEmpty` | services/geminiService.ts:295-297 | the found-questions callback is never called with an empty list |
| `GeminiService.FoundEventsCarryTopics` | services/geminiService.ts:289-306 | a batch reports exactly its topics' questions, in order |
| `GeminiService.ProcessBatch` | services/geminiService.ts:289-306 | the batch loop emits one found event per topic with questions |
| `GeminiService.WalkBatches` | services/geminiService.ts:285-307 | the batch loop emits `Batch <k+1>: …` before each batch's found events |
| `GeminiService.BatchEventsCarryTopics` | services/geminiService.ts:285-307 | all batches together report the questions of the flattened batches |
| `GeminiService.ExamBankEvents` | services/geminiService.ts:241-310 | a run opens with the announcement and `Processing <n> topics...` and closes with `Generation complete.` |
| `GeminiService.BatchEventsStep` | services/geminiService.ts:285-307 | `BatchEvents` at batch k: its `Batch <k+1>: …` line, its found events, then the later batches |
| `GeminiService.GenerateFullExamBank` | services/geminiService.ts:241-310 | the run's trace is the announcement, `Processing <n> topics...`, the batches, then `Generation complete.` |
| `GeminiService.PlanReportsEveryTopic` | services/geminiService.ts:280-309 | for any topic list, the callbacks receive exactly its topics' questions |
| `GeminiService.ExamBankReportsEveryTopic` | services/geminiService.ts:241-310 | a whole run reports every chosen topic's questions in topic order; no topic skipped or repeated |
| `DbService.ToRow` | services/dbService.ts:15-25 | a row keeps id, type, text, options, answer, explanation and source name; a missing or empty stream/topic becomes `General`; source type, page and image are not stored |
| `DbService.ToRows` | services/dbService.ts:15-25 | one row per question, in order |
| `DbService.RowsMap` | services/dbService.ts:27-29 | the upsert's keys are exactly the rows' ids |
| `DbService.SaveQuestionsToDB` | services/dbService.ts:5-38 | no client: not-configured error and no change; upsert error: `{error}` and no change; else every id stored and other rows kept |
| `DbService.SaveIdempotent` | services/dbService.ts:27-29 | saving the same questions twice leaves the store as saving once |
| `DbService.RowsMapDistinct` | services/dbService.ts:27-29 | with distinct ids each row is stored under its own id |
| `DbService.RowToQuestion` | services/dbService.ts:55-67 | a row reads back with source type DB, page `Database Archive` and no image |
| `DbService.FetchQuestionsByStream` | services/dbService.ts:40-70 | no client or a query error give []; else one question per row, in order |
| `DbService.SaveThenFetch` | services/dbService.ts:15-67 | save then fetch keeps id, type, text, options, answer, explanation and source name, defaults stream/topic, loses the image |
| `DbService.Distinct` | services/dbService.ts:83 | the same values, each once |
| `DbService.DistinctKeepsFirstOccurrenceOrder` | services/dbService.ts:83 | distinct values keep their first-occurrence order |
| `DbService.TruthyValues` | services/dbService.ts:84 | exactly the non-empty stream names are kept |
| `DbService.TruthyValuesAppend` | services/dbService.ts:84 | the filter works element by element: the kept names of a concatenation are concatenated |
| `DbService.TruthyValuesKeepOrder` | services/dbService.ts:84 | on distinct values, kept names appear in the order of their first occurrence |
| `DbService.StreamsInFirstOccurrenceOrder` | services/dbService.ts:83-84 | the distinct non-empty streams come out in the order of their first occurrence in the column |
| `DbService.GetAvailableStreams` | services/dbService.ts:72-85 | no client or an error give []; else exactly the distinct non-empty streams, without repeats, in the order of first occurrence |
| `CsvService.CsvRows` | services/csvService.ts:4-15 | one row per question, in order, carrying id, text, options a–d, source type, name and page |
| `CsvService.CsvRowsAppend` | services/csvService.ts:5-15 | the projection is row by row: the rows of a concatenation are the concatenated rows |
| `CsvService.CsvIgnoresUnexportedFields` | services/csvService.ts:5-15 | type, answer, explanation, stream, topic and image are not exported |
| `CsvService.CsvRowDeterminedByExportedFields` | services/csvService.ts:5-15 | two questions give the same row iff they agree on the exported fields |
| `SyllabusData.GetExamTopics` | services/syllabusData.ts:139-142 | CUSTOM gives []; GATE/UGC_NET give the table entry, or [] when missing |
| `SyllabusData.EveryStreamHasTopics` | services/syllabusData.ts:4-137 | all six streams have non-empty entries under GATE and UGC_NET |
| `SyllabusData.TableSizes` | services/syllabusData.ts:5-134 | GATE sizes 12, 11, 9, 9, 8, 8 and UGC_NET sizes 10, 8, 8, 7, 6, 6 |
| `LoggerService.CreateEntry` | services/loggerService.ts:8-16 | the entry carries the clock's timestamp, the level, source and message, and the serialised meta when given |
| `LoggerService.Notifications` | services/loggerService.ts:53-55 | every current listener is called, in order, with the same list |
| `LoggerService.UnsubscribeUndoesSubscribe` | services/loggerService.ts:46-51 | subscribing a new listener then unsubscribing restores the listener list |
| `Seqs.RemoveAll` | services/loggerService.ts:48-50 | the listener filter drops every occurrence of that listener and keeps every other listener as often as it was subscribed |
| `LoggerService.LoggerService.constructor` | services/loggerService.ts:4-6 | a new logger has no entries and no listeners |
| `LoggerService.LoggerService.NotifyListeners` | services/loggerService.ts:53-55 | each listener receives the current log, in subscription order |
| `LoggerService.LoggerService.Log` | services/loggerService.ts:18-23 | exactly one entry is appended at the end, then every listener is notified with the new list |
| `LoggerService.LoggerService.Info` | services/loggerService.ts:25-27 | logs at level INFO |
| `LoggerService.LoggerService.Warn` | services/loggerService.ts:29-31 | logs at level WARN |
| `LoggerService.LoggerService.Error` | services/loggerService.ts:33-35 | logs at level ERROR |
| `LoggerService.LoggerService.GetLogs` | services/loggerService.ts:37-39 | returns the current log |
| `LoggerService.LoggerService.Clear` | services/loggerService.ts:41-44 | empties the log and notifies every listener with [] |
| `LoggerService.LoggerService.Subscribe` | services/loggerService.ts:46-47 | appends the listener; the log is untouched |
| `LoggerService.LoggerService.Unsubscribe` | services/loggerService.ts:48-50 | the listener list becomes the filtered list, with no occurrence of the listener left; the log is untouched |
| `PaperConfigModal.IsOverLimit` | components/PaperConfigModal.tsx:35-36 | over limit iff Σcount > available |
| `PaperConfigModal.AppendDefaultSection` | components/PaperConfigModal.tsx:38-40 | appends {MCQ, 5, 2, 0} and keeps the existing sections |
| `PaperConfigModal.AddSectionTotal` | components/PaperConfigModal.tsx:35-40 | adding a section adds 5 to the allocation; an over-limit form stays over |
| `PaperConfigModal.RemoveSectionAt` | components/PaperConfigModal.tsx:42-44 | removes only index idx, preserving order; an out-of-range idx changes nothing |
| `PaperConfigModal.RemoveSectionTotal` | components/PaperConfigModal.tsx:35-44 | removing a section subtracts its count from the allocation |
| `PaperConfigModal.WithField` | components/PaperConfigModal.tsx:48 | the update sets exactly the named field |
| `PaperConfigModal.UpdateSectionAt` | components/PaperConfigModal.tsx:46-50 | exactly one field of exactly one section changes |
| `PaperConfigModal.UpdateSectionTotal` | components/PaperConfigModal.tsx:35-50 | a count edit moves the allocation by the difference, other edits leave it |
| `PaperConfigModal.PresetTotals` | components/PaperConfigModal.tsx:64-83 | GATE: 180 min, five sections, 65 questions, 100 marks; NET: 120 min, two MCQ sections without negative marks, 100 questions, 200 marks |
| `PaperConfigModal.PaperConfigForm.constructor` | components/PaperConfigModal.tsx:20-24 | the form starts with the default subject or `General Aptitude`, 60 minutes and one MCQ section of ten |
| `PaperConfigModal.PaperConfigForm.Open` | components/PaperConfigModal.tsx:27-31 | a non-empty default subject replaces the subject |
| `PaperConfigModal.PaperConfigForm.AddSection` | components/PaperConfigModal.tsx:38-40 | the sections become the list with the default section appended |
| `PaperConfigModal.PaperConfigForm.RemoveSection` | components/PaperConfigModal.tsx:42-44 | removes section idx, except the last remaining one |
| `PaperConfigModal.PaperConfigForm.UpdateSection` | components/PaperConfigModal.tsx:46-50 | one field of one section changes |
| `PaperConfigModal.PaperConfigForm.LoadPreset` | components/PaperConfigModal.tsx:64-83 | sets the preset's duration and sections and keeps the subject |
| `PaperConfigModal.PaperConfigForm.HandleGenerate` | components/PaperConfigModal.tsx:52-62 | nothing when the sections ask for more questions than the bank holds at the moment of the click (the size is an argument, as the prop is re-read on every render); else subject, duration and sections unchanged with the format |
| `PaperConfigModal.GenerateAfterBankGrows` | components/PaperConfigModal.tsx:35-36 | the same form is refused while the bank is empty and generates once the bank has grown to twenty questions |
| `BulkPaperModal.Toggle` | components/BulkPaperModal.tsx:37-41 | a selected stream is removed, any other appended; other streams keep their membership |
| `BulkPaperModal.ToggleTwice` | components/BulkPaperModal.tsx:37-41 | toggling an unselected stream twice restores the selection |
| `BulkPaperModal.ToggleKeepsDistinct` | components/BulkPaperModal.tsx:37-41 | toggling keeps a selection free of repeats |
| `BulkPaperModal.BulkPaperForm.constructor` | components/BulkPaperModal.tsx:24-33 | the form starts in multi-stream mode with no selection, five sets, 60 minutes and one MCQ section of ten |
| `BulkPaperModal.BulkPaperForm.SetMode` | components/BulkPaperModal.tsx:101-112 | the mode buttons set the mode and nothing else |
| `BulkPaperModal.BulkPaperForm.SetTargetStream` | components/BulkPaperModal.tsx:161 | the picker sets the target stream and nothing else |
| `BulkPaperModal.BulkPaperForm.SetSetCounts` | components/BulkPaperModal.tsx:176 | the field sets the number of sets and nothing else |
| `BulkPaperModal.BulkPaperForm.SetDuration` | components/BulkPaperModal.tsx:193 | the field sets the duration and nothing else |
| `BulkPaperModal.BulkPaperForm.ToggleStream` | components/BulkPaperModal.tsx:37-41 | the selection becomes its toggle; nothing else changes |
| `BulkPaperModal.BulkPaperForm.SelectAllStreams` | components/BulkPaperModal.tsx:43 | the selection is exactly the streams offered at the moment of the click (an argument, as the prop is re-read on every render); nothing else changes |
| `BulkPaperModal.BulkPaperForm.DeselectAllStreams` | components/BulkPaperModal.tsx:44 | the selection is empty |
| `BulkPaperModal.BulkPaperForm.AddSection` | components/BulkPaperModal.tsx:46 | appends {MCQ, 5, 2, 0}; nothing else changes |
| `BulkPaperModal.BulkPaperForm.RemoveSection` | components/BulkPaperModal.tsx:47 | removes section idx, except the last remaining one |
| `BulkPaperModal.BulkPaperForm.UpdateSection` | components/BulkPaperModal.tsx:48-52 | one field of one section changes |
| `BulkPaperModal.BulkPaperForm.HandleGenerate` | components/BulkPaperModal.tsx:54-75 | no request without streams (multi-stream) or without a target (multi-set); else subject VARIOUS or the target, duration and sections passed through, only the mode's selection fields set |
| `ResultsTable.FilteredMembers` | components/ResultsTable.tsx:17-21 | a question is shown iff it is in the bank and the lower-cased term occurs in its text, source name or present topic |
| `ResultsTable.FilteredAppend` | components/ResultsTable.tsx:17-21 | filtering commutes with concatenation: shown questions keep bank order |
| `ResultsTable.EmptyTermKeepsAll` | components/ResultsTable.tsx:17-21 | an empty term keeps every question |
| `ResultsTable.HandleSaveToDB` | components/ResultsTable.tsx:23-29 | an empty bank saves nothing and shows nothing; otherwise the whole bank is handed to the save, whose outcome (stored, failed or not configured) is kept, and the message shown afterwards is "Saved to Database!" whatever that outcome |
| `ResultsTable.FailedSaveAlertsSuccess` | components/ResultsTable.tsx:26-28 | without a client, or when the upsert fails, the store is unchanged and the result is not a success, yet the success message is shown |
| `ResultsTable.SaveAlert` | components/ResultsTable.tsx:28 | the success message is shown exactly when the save stored the rows |
| `ResultsTable.HandleSaveToDBReported` | components/ResultsTable.tsx:23-29 | as `HandleSaveToDB`, but the success message is shown exactly when a client exists and the upsert succeeded |
| `Types.TotalCountAppend` | types.ts:64-73 | the question count of a section list adds up over concatenation |
| `Text.Trim` | services/geminiService.ts:294 | the result is the stretch of the input right after its leading white space, everything after that stretch is white space, and the result has no white space at either end |
| `Text.ReplaceFirst` | App.tsx:268 | without an occurrence the text is unchanged; otherwise the first occurrence is replaced |
| `Text.ReplaceWhitespaceRuns` | App.tsx:275 | every character of the result is the replacement or a non-white-space character of the input |
| `Text.ReplaceWhitespaceRunsNone` | App.tsx:275 | text without white space is unchanged |
| `Text.ReplaceWhitespaceRunsAppend` | App.tsx:275 | the replacement works piecewise on `a + b` when the seam does not split a white-space run |
| `Text.ReplaceWhitespaceRunsOfRun` | App.tsx:275 | a maximal white-space run between two stretches without white space becomes exactly one replacement, and the other characters keep their order |
| `Text.CollapseNewlines` | services/exportService.ts:292 | no line feed is left |
| `Text.CollapseNewlinesNone` | services/exportService.ts:292 | text without line feeds is unchanged |
| `Text.CollapseNewlinesAppend` | services/exportService.ts:292 | collapsing works piecewise on `a + b` when the seam does not split a run of line feeds |
| `Text.CollapseNewlinesOfRun` | services/exportService.ts:292 | a run of line feeds between two stretches without line feeds becomes exactly one space, and the other characters keep their order |
| `Text.ToUpper` | services/exportService.ts:164 | same length; each lower-case ASCII letter becomes its upper-case letter (code minus 32), every other character is kept |
| `Text.ToLower` | components/ResultsTable.tsx:18-20 | same length; each upper-case ASCII letter becomes its lower-case letter (code plus 32), every other character is kept |
| `Text.NatToStringInjective` | App.tsx:225 | different counts print differently |

## Findings

| source | as written | input that shows it | evidently intended | confidence | as-written member | corrected member |
|---|---|---|---|---|---|---|
| services/exportService.ts:239-247 | the PDF and spreadsheet walks advance the cursor by each section's configured `count`, but the selection (App.tsx:169) delivers only min(count, available) per section | pool = one MCQ and one NAT question, sections (MCQ, 2) then (NAT, 1): the selection is [mcq, nat]; the NAT question is printed as Q.2 with four options under the MCQ section, the NAT section is empty, and the spreadsheet files it under MCQ marks | each section prints exactly the questions selected for it | not executed | `PaperAlignment.CursorWalkMisaligned` | `PaperAlignment.AlignedPaperMatchesBlocks` |
| App.tsx:62-77 | a save in flight during `handleClear` (or a stream load) still sets `lastSavedIndex` to the bank length it captured when it settles | 10 questions added and a save started; Clear; 20 new questions added: the mark is 10, so the next save sends only the last 10, then marks all 20 saved | a save that settles after the bank was replaced leaves the new mark alone | not executed | `AppSession.LostAutoSaveAfterClear` | `AppSession.GuardedAutoSaveAfterClear` |
| services/dbService.ts:31-34 | an upsert error is returned as `{error}`, so the awaited call in `performAutoSave` completes and the questions are marked saved | 10 unsaved questions and an upsert that fails: the store is unchanged, `lastSavedIndex` is 10 and no further save is due | a failed save leaves the questions unsaved so the next trigger retries them | not executed | `AppSession.FailedUpsertMarkedSaved` | `AppSession.GuardedFailedUpsertKeepsMark` |
| components/ResultsTable.tsx:26-28 | `saveQuestionsToDB` returns its error instead of throwing, and the success alert follows the await unconditionally | a bank of one question saved with no client configured: the store is unchanged and the result is the not-configured error, yet "Saved to Database!" is shown | the success message only when the rows were stored, the error otherwise | not executed | `ResultsTable.FailedSaveAlertsSuccess` | `ResultsTable.HandleSaveToDBReported` |

The bulk generator (`AppBulk`) renders the configuration as entered, as the code does, so its
papers carry the misalignment of the first row. `PaperAlignment.AlignedConfig` gives the
corrected counts and `PaperAlignment.AlignedExcelMatchesBlocks` states the same correction for
the spreadsheet. `Session.FinishAutoSaveGuarded` is the corrected settlement of the other two
rows; the session keeps `lastSavedIndex <= |bank|` only under it.

## Left out

- AI requests, prompts and schemas (services/geminiService.ts). Cleaning, web search and
  topic planning are oracle answers: items, unparseable text or a failed call.
- Typesetting and rasterising: jsPDF, autoTable, html2canvas, KaTeX, `processTextToHTML`,
  `renderMathBlockToImage`, `addHeader` and `centerText`. The renderer is an oracle saying
  whether a rich block yields an image.
- Pagination: the `yPos` thresholds depend on floating-point image aspect ratios and on
  `splitTextToSize`.
- XLSX writing, JSZip, Papa.unparse, Blob and anchor downloads, and `logger.downloadLogs`.
  These are foreign libraries and browser I/O.
- The persistence client (services/supabaseClient.ts). The store is a map keyed on `qid`, and
  `isConnected` is a boolean. The `ilike` stream match is part of the query oracle.
- PDF extraction (services/pdfService.ts) and scraping (services/scrapingService.ts), which
  are I/O collectors.
- UI-only components and all JSX: IngestionPanel, ProcessingPanel, SettingsModal and the
  `isLoadingDB`, `isProcessing` and `isBulkGenerating` spinner flags.
- `handleGeneratePaper` (App.tsx:174-186). It only dispatches a selection to the PDF or Excel
  generators, which are modelled.
- Timers: the 500 ms delay between chunks, the 1000 ms solutions delay and the scraper rate
  limit.
- Concurrency. `Promise.all` in a topic batch is a sequential loop over the batch. Un-awaited
  render promises in the bulk path always count as two files per successful stream or set.
  The bulk `catch` blocks around rendering are therefore not modelled.
- Randomness, ids and timestamps. These are parameters: draws, `nat -> string` id
  generators, and the clock string.
- Logging calls inside the services and App handlers. Only `HandleClear` records its log
  effect, because its behaviour depends on the logger.
- `LoggerService.CreateEntry`: `JSON.stringify` of `meta` is not modelled. The entry takes
  the already serialised text, and a falsy `meta` counts as absent.
- `ResultsTable.FilteredMembers`: lower-casing covers only ASCII letters, not full Unicode
  case mapping.
- `AppBulk.SetLetterAlphabet`: stated only for sets 1 to 26. Beyond that,
  `String.fromCharCode` gives other characters, and lone surrogate codes are replaced by U+FFFD.
- `ExportService.TotalsMatchRows`, `ExportService.HeaderOf`: the marks are summed as exact
  reals. The source sums IEEE doubles, whose rounding (0.1 + 0.2) is not modelled.
- `ExportService.HeaderOf`, `Text.ToUpper`, `Text.ToLower`: case mapping covers only the ASCII
  letters. `toUpperCase` also maps other scripts and can lengthen a string (`ß` to `SS`).
- `ExportService.ExplanationCell`: lengths and the 100-character cut count Unicode scalar
  values. JavaScript counts UTF-16 code units, so text beyond the Basic Multilingual Plane is
  cut at a different place.
- `PaperConfigModal.WithField`, `PaperConfigModal.PaperConfigForm.UpdateSection`,
  `BulkPaperModal.BulkPaperForm.UpdateSection`: `Types.Section.count` and the `CountField`
  edit hold a whole non-negative number. `Number(e.target.value)` can also give negative or
  fractional values, or `NaN`.
- `BulkPaperModal.BulkPaperForm.SetSetCounts`, `BulkPaperModal.BulkPaperForm.SetDuration`: the
  fields hold whole numbers. `Number` can also give fractions or `NaN`.
- `AppSession.Session.ProcessQueue`: the run is one step. Its awaits (the AI call and the
  500 ms pause) are not split, so a Clear during a run is not modelled; the source then keeps
  adding the snapshot's questions to the cleared bank.
- `ExportService.CreateZipBundle`: the order of the archive's entries is not modelled. Entries
  are keyed by name, and a later file of the same name replaces the earlier one.
- `GeminiService.WebOracle`: the web oracle answers by topic, so a topic repeated within one
  run gets the same answer each time, where the source makes a new call.
- `LoggerService.LoggerService.GetLogs`, `LoggerService.LoggerService.NotifyListeners`: the
  caller and the listeners get a copy of the log. The source hands out its live array, which
  a caller could change in place; that aliasing is not modelled.
