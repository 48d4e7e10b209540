// The AI-facing service (services/geminiService.ts) with the model calls as
// oracles: what an AI answer is turned into (cleanChunkWithAI,
// searchAndExtractWebQuestions), the in-place shuffle, and the topic-generation
// orchestrator generateFullExamBank, which picks a topic list, walks it in
// batches of three and reports progress and found questions through callbacks.
// The callbacks are recorded as a trace of events, in the order they fire.

module GeminiService {

  import opened Types
  import opened Seqs
  import opened Text
  import opened Shuffling

  // ---------------------------------------------------------------- item mapping

  /** One object of the JSON array the model answers with; absent or null fields are None. */
  datatype AiItem = AiItem(
    kind: Option<QuestionKind>, question: string,
    a: Option<string>, b: Option<string>, c: Option<string>, d: Option<string>,
    answer: Option<string>, explanation: Option<string>, imageUrl: Option<string>)

  /** What a cleaning call comes back with: the parsed items, text that is not JSON, or a failed call. */
  datatype AiResponse = AiItems(items: seq<AiItem>) | Unparseable | CallFailed

  function OptionsOf(item: AiItem): Options {
    Options(OrDefault(item.a, ""), OrDefault(item.b, ""), OrDefault(item.c, ""), OrDefault(item.d, ""))
  }

  /** The question cleanChunkWithAI builds from one item of a chunk. */
  function ChunkItemToQuestion(item: AiItem, chunk: RawChunk, qid: string): Question {
    Question(qid, item.kind.GetOr(MCQ), None, None, item.question, OptionsOf(item),
             Some(OrDefault(item.answer, "")), Some(OrDefault(item.explanation, "")),
             chunk.sourceType, chunk.sourceName, chunk.pageOrUrl, Some(OrDefault(item.imageUrl, "")))
  }

  /**
   * cleanChunkWithAI: never fails; text that does not parse and a failed call
   * both yield no questions, otherwise one question per item, in order, with
   * the defaults of the mapping and the chunk's source fields.
   */
  function CleanChunkWithAI(chunk: RawChunk, response: AiResponse, uuid: nat -> string): (qs: seq<Question>)
    ensures !response.AiItems? ==> qs == []
    ensures response.AiItems? ==> |qs| == |response.items|
    ensures response.AiItems? ==> forall i :: 0 <= i < |qs| ==>
      var item := response.items[i];
      && qs[i].qid == uuid(i) && qs[i].question == item.question
      && qs[i].kind == (if item.kind.Some? then item.kind.value else MCQ)
      && qs[i].options == Options(OrDefault(item.a, ""), OrDefault(item.b, ""), OrDefault(item.c, ""), OrDefault(item.d, ""))
      && qs[i].answer == Some(OrDefault(item.answer, "")) && qs[i].explanation == Some(OrDefault(item.explanation, ""))
      && qs[i].imageUrl == Some(OrDefault(item.imageUrl, ""))
      && qs[i].sourceType == chunk.sourceType && qs[i].sourceName == chunk.sourceName
      && qs[i].pageOrUrl == chunk.pageOrUrl
  {
    match response
    case AiItems(items) => seq(|items|, i requires 0 <= i < |items| => ChunkItemToQuestion(items[i], chunk, uuid(i)))
    case Unparseable => []
    case CallFailed => []
  }

  /** What a web-search call comes back with: items and the uri of the first grounding chunk, if any. */
  datatype WebResponse = WebItems(items: seq<AiItem>, firstGroundingUri: Option<string>) | WebFailed

  function WebItemToQuestion(item: AiItem, topic: string, stream: Option<string>, url: string, qid: string): Question {
    Question(qid, item.kind.GetOr(MCQ), stream, Some(topic), item.question, OptionsOf(item),
             Some(OrDefault(item.answer, "")), Some(OrDefault(item.explanation, "")),
             WEB, "AI: " + topic, url, Some(OrDefault(item.imageUrl, "")))
  }

  /**
   * searchAndExtractWebQuestions: any failure yields no questions; otherwise
   * one WEB question per item, in order, tagged with the stream and topic,
   * named `AI: <topic>` and citing the grounding page.
   */
  function SearchAndExtractWebQuestions(topic: string, stream: Option<string>, response: WebResponse, uuid: nat -> string)
    : (qs: seq<Question>)
    ensures response.WebFailed? ==> qs == []
    ensures response.WebItems? ==> |qs| == |response.items|
    ensures response.WebItems? ==> forall i :: 0 <= i < |qs| ==>
      && qs[i].qid == uuid(i) && qs[i].question == response.items[i].question
      && qs[i].sourceType == WEB && qs[i].sourceName == "AI: " + topic
      && qs[i].pageOrUrl == OrDefault(response.firstGroundingUri, "Google Search")
      && qs[i].stream == stream && qs[i].topic == Some(topic)
      && qs[i].kind == response.items[i].kind.GetOr(MCQ)
      && qs[i].options == OptionsOf(response.items[i])
      && qs[i].answer == Some(OrDefault(response.items[i].answer, ""))
      && qs[i].explanation == Some(OrDefault(response.items[i].explanation, ""))
      && qs[i].imageUrl == Some(OrDefault(response.items[i].imageUrl, ""))
  {
    match response
    case WebItems(items, uri) =>
      seq(|items|, i requires 0 <= i < |items| => WebItemToQuestion(items[i], topic, stream, OrDefault(uri, "Google Search"), uuid(i)))
    case WebFailed => []
  }

  // ---------------------------------------------------------------- shuffle

  /**
   * shuffle: permutes the array in place, counting the index down from the
   * length; the step at index i swaps with an index in 0..i. Returns the
   * same array.
   */
  method ShuffleInPlace<T>(a: array<T>, rand: seq<nat>) returns (r: array<T>)
    modifies a
    ensures r == a
    ensures a[..] == Shuffle(old(a[..]), rand)
    ensures multiset(a[..]) == multiset(old(a[..]))
  {
    var currentIndex := a.Length;
    while currentIndex != 0
      invariant 0 <= currentIndex <= a.Length
      invariant Shuffled(a[..], rand, currentIndex) == Shuffle(old(a[..]), rand)
    {
      var randomIndex := Pick(rand, currentIndex - 1);
      currentIndex := currentIndex - 1;
      ShuffledStep(a[..], rand, currentIndex);
      Swap(a, currentIndex, randomIndex);
    }
    ShuffleIsPermutation(old(a[..]), rand);
    r := a;
  }

  // ---------------------------------------------------------------- topic generation

  /** The answer of the planning call: a list of topics, or a failure (including text that is not JSON). */
  datatype PlanResponse = Planned(topics: seq<string>) | PlanFailed

  /** The three topics used when planning fails. */
  function DefaultTopics(stream: string): seq<string> {
    [stream + " Advanced Concepts", stream + " Complex Calculations", stream + " Application Problems"]
  }

  /** The progress line before the batches, and the topic list itself. */
  datatype TopicPlan = TopicPlan(announcement: string, topics: seq<string>)

  /** The topic list: forced topics when there are any, the planned ones otherwise, the defaults on failure. */
  function ChooseTopics(stream: string, forced: Option<seq<string>>, plan: PlanResponse, rand: seq<nat>): (p: TopicPlan)
    ensures forced.Some? && forced.value != [] ==>
      p.topics == Shuffle(forced.value, rand)
      && p.announcement == "Using standardized syllabus with " + NatToString(|forced.value|) + " topics (Randomized Order)..."
    ensures !(forced.Some? && forced.value != []) ==> p.announcement == "Analyzing syllabus for " + stream + "..."
    ensures !(forced.Some? && forced.value != []) && plan.PlanFailed? ==> p.topics == DefaultTopics(stream)
    ensures !(forced.Some? && forced.value != []) && plan.Planned? ==> p.topics == Shuffle(plan.topics, rand)
  {
    if forced.Some? && forced.value != [] then
      TopicPlan("Using standardized syllabus with " + NatToString(|forced.value|) + " topics (Randomized Order)...",
                Shuffle(forced.value, rand))
    else
      TopicPlan("Analyzing syllabus for " + stream + "...",
                match plan
                case Planned(ts) => Shuffle(ts, rand)
                case PlanFailed => DefaultTopics(stream))
  }

  /** Forced topics are used as a reordering of themselves: none lost, none added. */
  lemma ForcedTopicsPermuted(stream: string, forced: seq<string>, plan: PlanResponse, rand: seq<nat>)
    requires forced != []
    ensures |ChooseTopics(stream, Some(forced), plan, rand).topics| == |forced|
    ensures multiset(ChooseTopics(stream, Some(forced), plan, rand).topics) == multiset(forced)
  {
    ShuffleIsPermutation(forced, rand);
  }

  /** The consecutive batches of at most three topics, in order. */
  function Batches(topics: seq<string>): (bs: seq<seq<string>>)
    ensures |bs| == (|topics| + 2) / 3
    decreases |topics|
  {
    if |topics| <= 3 then (if topics == [] then [] else [topics])
    else [topics[..3]] + Batches(topics[3..])
  }

  /** Batch k holds the topics 3k up to 3k + 3, or up to the end for the last one. */
  lemma {:induction false} BatchAt(topics: seq<string>, k: nat)
    requires k < |Batches(topics)|
    ensures Batches(topics)[k] == topics[3 * k .. Min(3 * k + 3, |topics|)]
    decreases |topics|
  {
    if |topics| <= 3 {
      assert k == 0 && Batches(topics) == [topics];
      assert topics[0..|topics|] == topics;
    } else {
      var rest := topics[3..];
      assert Batches(topics) == [topics[..3]] + Batches(rest);
      if k > 0 {
        var lo, hi := 3 * (k - 1), Min(3 * (k - 1) + 3, |rest|);
        BatchAt(rest, k - 1);
        assert Batches(topics)[k] == Batches(rest)[k - 1] == rest[lo..hi];
        assert lo + 3 == 3 * k && hi + 3 == Min(3 * k + 3, |topics|);
        SliceOfDrop(topics, 3, lo, hi);
      }
    }
  }

  /** Batch k exists exactly when its first topic, at 3k, does. */
  lemma BatchCount(topics: seq<string>, k: nat)
    ensures k < |Batches(topics)| <==> 3 * k < |topics|
    ensures (3 * k) / 3 == k
  {
  }

  /** The batches cover the topic list exactly once, in order. */
  lemma {:induction false} BatchesCoverTopics(topics: seq<string>)
    ensures Flatten(Batches(topics)) == topics
    decreases |topics|
  {
    if |topics| > 3 {
      BatchesCoverTopics(topics[3..]);
      FlattenAppend([topics[..3]], Batches(topics[3..]));
      assert Flatten([topics[..3]]) == Flatten([topics[..3]][..0]) + topics[..3];
      assert topics == topics[..3] + topics[3..];
    } else if topics != [] {
      assert Flatten([topics]) == Flatten([topics][..0]) + topics;
    }
  }

  /** The topic label stored on a generated question: the stream's first occurrence removed and trimmed, else the topic. */
  function EnrichTopic(topic: string, stream: string): (tag: string)
    ensures tag != "" || topic == ""
    ensures Trim(ReplaceFirst(topic, stream, "")) != "" ==> tag == Trim(ReplaceFirst(topic, stream, ""))
    ensures Trim(ReplaceFirst(topic, stream, "")) == "" ==> tag == topic
  {
    var stripped := Trim(ReplaceFirst(topic, stream, ""));
    if stripped != "" then stripped else topic
  }

  /** A topic of the form `<stream> <rest>` is labelled `<rest>`. */
  lemma EnrichTopicStripsStream(stream: string, rest: string)
    requires rest != [] && !IsWhitespace(rest[0]) && !IsWhitespace(rest[|rest| - 1])
    ensures EnrichTopic(stream + " " + rest, stream) == rest
  {
    var topic := stream + " " + rest;
    assert MatchesAt(topic, stream, 0) by { assert topic[..|stream|] == stream; }
    assert IndexOf(topic, stream) == Some(0);
    assert ReplaceFirst(topic, stream, "") == " " + rest by {
      assert topic[|stream|..] == " " + rest;
    }
    var s := " " + rest;
    assert LeadingWhitespace(s[1..]) == 0 by { assert s[1..] == rest; }
    assert TrimStart(s) == rest;
    assert TrimEnd(rest) == rest;
  }

  /** Every question of a topic is relabelled with the enriched topic. */
  function Enriched(qs: seq<Question>, topic: string, stream: string): (r: seq<Question>)
    ensures |r| == |qs|
    ensures forall i :: 0 <= i < |r| ==> r[i] == qs[i].(topic := Some(EnrichTopic(topic, stream)))
  {
    seq(|qs|, i requires 0 <= i < |qs| => qs[i].(topic := Some(EnrichTopic(topic, stream))))
  }

  /** A callback that fired: a progress message, or a non-empty list of found questions. */
  datatype Event = Progress(message: string) | QuestionsFound(questions: seq<Question>)

  /** The oracles of one run: the web answer per topic and the id generator per topic. */
  datatype WebOracle = WebOracle(answer: string -> WebResponse, ids: string -> nat -> string)

  /** What one topic produces: its web questions, enriched. */
  function TopicQuestions(topic: string, stream: string, web: WebOracle): seq<Question> {
    Enriched(SearchAndExtractWebQuestions(topic, Some(stream), web.answer(topic), web.ids(topic)), topic, stream)
  }

  /** What each topic of a run produces. */
  function Producer(stream: string, web: WebOracle): string -> seq<Question> {
    t => TopicQuestions(t, stream, web)
  }

  /** The events of one batch's topics: a found event for each topic that produced questions, in batch order. */
  function FoundEvents(batch: seq<string>, produce: string -> seq<Question>): seq<Event>
  {
    if batch == [] then []
    else
      var qs := produce(batch[|batch| - 1]);
      FoundEvents(batch[..|batch| - 1], produce) + (if qs != [] then [QuestionsFound(qs)] else [])
  }

  /** The found-questions callback is never called with an empty list, and only it is called per topic. */
  lemma {:induction false} FoundEventsNonEmpty(batch: seq<string>, produce: string -> seq<Question>)
    ensures forall e :: e in FoundEvents(batch, produce) ==> e.QuestionsFound? && e.questions != []
    ensures |FoundEvents(batch, produce)| <= |batch|
    decreases |batch|
  {
    if batch != [] {
      FoundEventsNonEmpty(batch[..|batch| - 1], produce);
    }
  }

  /** The progress line announcing batch number k + 1 and its topics. */
  function BatchLine(k: nat, batch: seq<string>): string {
    "Batch " + NatToString(k + 1) + ": " + Join(batch, ", ")
  }

  /** The events of the batches from batch number k + 1 on. */
  function BatchEvents(bs: seq<seq<string>>, k: nat, produce: string -> seq<Question>): seq<Event>
    decreases |bs|
  {
    if bs == [] then []
    else
      [Progress(BatchLine(k, bs[0]))]
      + FoundEvents(bs[0], produce) + BatchEvents(bs[1..], k + 1, produce)
  }

  /** Unfolding the batch events at batch k. */
  lemma BatchEventsStep(bs: seq<seq<string>>, k: nat, produce: string -> seq<Question>)
    requires k < |bs|
    ensures BatchEvents(bs[k..], k, produce)
      == [Progress(BatchLine(k, bs[k]))]
         + FoundEvents(bs[k], produce) + BatchEvents(bs[k + 1..], k + 1, produce)
  {
    assert bs[k..][0] == bs[k] && bs[k..][1..] == bs[k + 1..];
  }

  /** Appending batch k's events to a walk that has covered the batches before k covers batch k too. */
  lemma WalkStep(walked: seq<Event>, found: seq<Event>, bs: seq<seq<string>>, k: nat, produce: string -> seq<Question>)
    requires k < |bs| && found == FoundEvents(bs[k], produce)
    requires walked + BatchEvents(bs[k..], k, produce) == BatchEvents(bs, 0, produce)
    ensures (walked + [Progress(BatchLine(k, bs[k]))] + found) + BatchEvents(bs[k + 1..], k + 1, produce)
      == BatchEvents(bs, 0, produce)
  {
    BatchEventsStep(bs, k, produce);
    assert (walked + [Progress(BatchLine(k, bs[k]))] + found) + BatchEvents(bs[k + 1..], k + 1, produce)
      == walked + ([Progress(BatchLine(k, bs[k]))] + found + BatchEvents(bs[k + 1..], k + 1, produce));
  }

  /** The whole trace of a run. */
  function ExamBankEvents(plan: TopicPlan, stream: string, web: WebOracle): (es: seq<Event>)
    ensures |es| >= 3
    ensures es[0] == Progress(plan.announcement)
    ensures es[1] == Progress("Processing " + NatToString(|plan.topics|) + " topics...")
    ensures es[|es| - 1] == Progress("Generation complete.")
  {
    [Progress(plan.announcement), Progress("Processing " + NatToString(|plan.topics|) + " topics...")]
      + BatchEvents(Batches(plan.topics), 0, Producer(stream, web))
      + [Progress("Generation complete.")]
  }

  /** The topic choice of generateFullExamBank, shuffling an array copy of the list it picks. */
  method PlanTopics(stream: string, forced: Option<seq<string>>, plan: PlanResponse, rand: seq<nat>)
    returns (announcement: string, topics: seq<string>)
    ensures TopicPlan(announcement, topics) == ChooseTopics(stream, forced, plan, rand)
  {
    if forced.Some? && |forced.value| > 0 {
      var copy := new string[|forced.value|](k requires 0 <= k < |forced.value| => forced.value[k]);
      assert copy[..] == forced.value;
      var shuffled := ShuffleInPlace(copy, rand);
      topics := shuffled[..];
      announcement := "Using standardized syllabus with " + NatToString(|topics|) + " topics (Randomized Order)...";
    } else {
      announcement := "Analyzing syllabus for " + stream + "...";
      match plan {
        case Planned(ts) =>
          var arr := new string[|ts|](k requires 0 <= k < |ts| => ts[k]);
          assert arr[..] == ts;
          var shuffled := ShuffleInPlace(arr, rand);
          topics := shuffled[..];
        case PlanFailed =>
          topics := DefaultTopics(stream);
      }
    }
  }

  /**
   * One batch: every topic searched in order, a found event for each that
   * produced questions. `produce` is the per-topic search and relabelling.
   */
  method ProcessBatch(batch: seq<string>, produce: string -> seq<Question>) returns (found: seq<Event>)
    ensures found == FoundEvents(batch, produce)
  {
    found := [];
    var j := 0;
    while j < |batch|
      invariant 0 <= j <= |batch|
      invariant found == FoundEvents(batch[..j], produce)
    {
      var qs := produce(batch[j]);
      assert batch[..j + 1][..j] == batch[..j];
      if |qs| > 0 {
        found := found + [QuestionsFound(qs)];
      }
      j := j + 1;
    }
    assert batch[..j] == batch;
  }

  /** The batch loop: batches of three, in order, each announced with its number and then processed. */
  method WalkBatches(topics: seq<string>, produce: string -> seq<Question>) returns (walked: seq<Event>)
    ensures walked == BatchEvents(Batches(topics), 0, produce)
  {
    ghost var bs := Batches(topics);
    walked := [];
    var i := 0;
    ghost var k := 0;
    while i < |topics|
      invariant i == 3 * k && k <= |bs|
      invariant walked + BatchEvents(bs[k..], k, produce) == BatchEvents(bs, 0, produce)
      decreases |bs| - k
    {
      BatchCount(topics, k);
      var batch := topics[i .. Min(i + 3, |topics|)];
      BatchAt(topics, k);
      assert i / 3 == k && batch == bs[k];
      var found := ProcessBatch(batch, produce);
      WalkStep(walked, found, bs, k, produce);
      walked := walked + [Progress(BatchLine(i / 3, batch))] + found;
      i := i + 3;
      k := k + 1;
    }
    BatchCount(topics, k);
    assert bs[k..] == [];
  }

  /**
   * generateFullExamBank: chooses the topics, then walks them three at a
   * time, announcing each batch and reporting every topic that found
   * questions.
   */
  method GenerateFullExamBank(
    stream: string, forced: Option<seq<string>>, plan: PlanResponse, rand: seq<nat>, web: WebOracle)
    returns (events: seq<Event>)
    ensures events == ExamBankEvents(ChooseTopics(stream, forced, plan, rand), stream, web)
  {
    var announcement, topics := PlanTopics(stream, forced, plan, rand);
    var walked := WalkBatches(topics, Producer(stream, web));
    events := [Progress(announcement), Progress("Processing " + NatToString(|topics|) + " topics...")]
      + walked + [Progress("Generation complete.")];
  }

  // ---------------------------------------------------------------- what the callbacks deliver

  /** Every question handed to the found-questions callback, in the order of the calls. */
  function AllFound(es: seq<Event>): seq<Question> {
    if es == [] then []
    else
      var last := es[|es| - 1];
      AllFound(es[..|es| - 1]) + (if last.QuestionsFound? then last.questions else [])
  }

  lemma {:induction false} AllFoundAppend(xs: seq<Event>, ys: seq<Event>)
    ensures AllFound(xs + ys) == AllFound(xs) + AllFound(ys)
    decreases |ys|
  {
    if ys == [] {
      assert xs + ys == xs;
    } else {
      var zs := xs + ys;
      assert zs[..|zs| - 1] == xs + ys[..|ys| - 1];
      AllFoundAppend(xs, ys[..|ys| - 1]);
    }
  }

  /** What the topics produce, topic after topic, given what each one produces. */
  function Gathered(topics: seq<string>, produce: string -> seq<Question>): seq<Question> {
    if topics == [] then []
    else Gathered(topics[..|topics| - 1], produce) + produce(topics[|topics| - 1])
  }

  lemma {:induction false} GatheredAppend(xs: seq<string>, ys: seq<string>, produce: string -> seq<Question>)
    ensures Gathered(xs + ys, produce) == Gathered(xs, produce) + Gathered(ys, produce)
    decreases |ys|
  {
    if ys == [] {
      assert xs + ys == xs;
    } else {
      var zs := xs + ys;
      assert zs[..|zs| - 1] == xs + ys[..|ys| - 1];
      GatheredAppend(xs, ys[..|ys| - 1], produce);
    }
  }

  /** The questions the topics of a run produce, topic after topic. */
  function TopicsQuestions(topics: seq<string>, stream: string, web: WebOracle): seq<Question> {
    Gathered(topics, Producer(stream, web))
  }

  /** A batch reports exactly its topics' questions: skipping empty results loses nothing. */
  lemma {:induction false} FoundEventsCarryTopics(batch: seq<string>, produce: string -> seq<Question>)
    ensures AllFound(FoundEvents(batch, produce)) == Gathered(batch, produce)
    decreases |batch|
  {
    if batch != [] {
      var init := batch[..|batch| - 1];
      var qs := produce(batch[|batch| - 1]);
      var tail: seq<Event> := if qs != [] then [QuestionsFound(qs)] else [];
      FoundEventsCarryTopics(init, produce);
      AllFoundAppend(FoundEvents(init, produce), tail);
      assert AllFound(tail) == qs by {
        if qs != [] { assert tail[..0] == []; }
      }
    }
  }

  /** A progress event hands no questions over. */
  lemma AllFoundAfterProgress(m: string, es: seq<Event>)
    ensures AllFound([Progress(m)] + es) == AllFound(es)
  {
    AllFoundAppend([Progress(m)], es);
    assert [Progress(m)][..0] == [];
  }

  /** The found questions of the batch events, batch by batch. */
  lemma AllFoundBatchStep(bs: seq<seq<string>>, k: nat, produce: string -> seq<Question>)
    requires bs != []
    ensures AllFound(BatchEvents(bs, k, produce))
      == AllFound(FoundEvents(bs[0], produce)) + AllFound(BatchEvents(bs[1..], k + 1, produce))
  {
    var found := FoundEvents(bs[0], produce);
    var rest := BatchEvents(bs[1..], k + 1, produce);
    assert BatchEvents(bs, k, produce) == [Progress(BatchLine(k, bs[0]))] + (found + rest);
    AllFoundAfterProgress(BatchLine(k, bs[0]), found + rest);
    AllFoundAppend(found, rest);
  }

  lemma {:induction false} BatchEventsCarryTopics(bs: seq<seq<string>>, k: nat, produce: string -> seq<Question>)
    ensures AllFound(BatchEvents(bs, k, produce)) == Gathered(Flatten(bs), produce)
    decreases |bs|
  {
    if bs != [] {
      AllFoundBatchStep(bs, k, produce);
      BatchEventsCarryTopics(bs[1..], k + 1, produce);
      FoundEventsCarryTopics(bs[0], produce);
      FlattenHead(bs);
      GatheredAppend(bs[0], Flatten(bs[1..]), produce);
    }
  }

  /** The progress lines around the batches hand no questions over. */
  lemma AllFoundFramed(a: string, b: string, body: seq<Event>, c: string)
    ensures AllFound([Progress(a), Progress(b)] + body + [Progress(c)]) == AllFound(body)
  {
    var header := [Progress(a), Progress(b)];
    var done := [Progress(c)];
    AllFoundAppend(header + body, done);
    AllFoundAppend(header, body);
    assert AllFound(header) == [] by { assert header[..1][..0] == []; }
    assert AllFound(done) == [] by { assert done[..0] == []; }
  }

  /** Whatever the topic list, the run reports exactly its topics' questions. */
  lemma PlanReportsEveryTopic(p: TopicPlan, stream: string, web: WebOracle)
    ensures AllFound(ExamBankEvents(p, stream, web)) == TopicsQuestions(p.topics, stream, web)
  {
    var produce := Producer(stream, web);
    AllFoundFramed(p.announcement, "Processing " + NatToString(|p.topics|) + " topics...",
                   BatchEvents(Batches(p.topics), 0, produce), "Generation complete.");
    BatchEventsCarryTopics(Batches(p.topics), 0, produce);
    BatchesCoverTopics(p.topics);
  }

  /**
   * Over a whole run, the found-questions callback receives exactly the
   * questions of every chosen topic, in topic order: no topic is skipped
   * and none is searched twice.
   */
  lemma ExamBankReportsEveryTopic(stream: string, forced: Option<seq<string>>, plan: PlanResponse, rand: seq<nat>, web: WebOracle)
    ensures var p := ChooseTopics(stream, forced, plan, rand);
      AllFound(ExamBankEvents(p, stream, web)) == TopicsQuestions(p.topics, stream, web)
  {
    PlanReportsEveryTopic(ChooseTopics(stream, forced, plan, rand), stream, web);
  }
}
