// Paper selection (selectQuestionsForPaper in App.tsx): for every configured
// section, in order, the whole pool is filtered by the section's kind, the
// filtered list is shuffled, and a prefix of at most `count` questions is
// appended to the selection. Per-kind statistics { available, requested } are
// recorded on the way; a later section of the same kind overwrites the entry
// of an earlier one, and the entries keep the order in which their kinds first
// appeared (the insertion order of a JavaScript object).

module AppSelection {

  import opened Types
  import opened Seqs
  import opened Shuffling
  import ExportService

  /** `pool.filter(q => q.type === kind)`: the questions of that kind, in pool order. */
  function OfKind(pool: seq<Question>, kind: QuestionKind): (r: seq<Question>)
    ensures |r| <= |pool|
    ensures forall i :: 0 <= i < |r| ==> r[i].kind == kind
  {
    if pool == [] then []
    else
      var last := pool[|pool| - 1];
      OfKind(pool[..|pool| - 1], kind) + (if last.kind == kind then [last] else [])
  }

  /** The filter keeps every question of the kind as often as the pool holds it, and nothing else. */
  lemma {:induction false} OfKindMultiset(pool: seq<Question>, kind: QuestionKind, q: Question)
    ensures multiset(OfKind(pool, kind))[q] == if q.kind == kind then multiset(pool)[q] else 0
    decreases |pool|
  {
    if pool != [] {
      var init, last := pool[..|pool| - 1], pool[|pool| - 1];
      var kept: seq<Question> := if last.kind == kind then [last] else [];
      assert pool == init + [last];
      assert OfKind(pool, kind) == OfKind(init, kind) + kept;
      assert multiset(OfKind(pool, kind)) == multiset(OfKind(init, kind)) + multiset(kept);
      assert multiset(pool) == multiset(init) + multiset{last};
      OfKindMultiset(init, kind, q);
    }
  }

  /** Filtering distributes over concatenation: the kept questions keep their relative order. */
  lemma {:induction false} OfKindAppend(xs: seq<Question>, ys: seq<Question>, kind: QuestionKind)
    ensures OfKind(xs + ys, kind) == OfKind(xs, kind) + OfKind(ys, kind)
    decreases |ys|
  {
    if ys == [] {
      assert xs + ys == xs;
    } else {
      var zs, init, last := xs + ys, ys[..|ys| - 1], ys[|ys| - 1];
      var kept: seq<Question> := if last.kind == kind then [last] else [];
      assert zs[..|zs| - 1] == xs + init && zs[|zs| - 1] == last;
      assert OfKind(zs, kind) == OfKind(xs + init, kind) + kept;
      assert OfKind(ys, kind) == OfKind(init, kind) + kept;
      OfKindAppend(xs, init, kind);
      AppendAssoc(OfKind(xs, kind), OfKind(init, kind), kept);
    }
  }

  /** The random draws for the shuffle of section s; a missing entry is the empty draw list. */
  function DrawsFor(draws: seq<seq<nat>>, s: nat): seq<nat> {
    if s < |draws| then draws[s] else []
  }

  /** The number of questions a section can deliver: its count, capped by the pool's supply of its kind. */
  function Delivered(pool: seq<Question>, sec: Section): nat {
    Min(sec.count, |OfKind(pool, sec.kind)|)
  }

  /**
   * What section `sec` contributes: a prefix of a shuffle of the pool's
   * questions of its kind, min(count, available) long, all of that kind.
   */
  function Block(pool: seq<Question>, sec: Section, rand: seq<nat>): (b: seq<Question>)
    ensures |b| == Delivered(pool, sec)
    ensures forall i :: 0 <= i < |b| ==> b[i].kind == sec.kind
  {
    var typeQs := OfKind(pool, sec.kind);
    ShuffleIsPermutation(typeQs, rand);
    var sh := Shuffle(typeQs, rand);
    assert forall i :: 0 <= i < |sh| ==> sh[i] in multiset(typeQs);
    sh[..Min(sec.count, |typeQs|)]
  }

  /** The total delivered over a list of sections. */
  function Supply(pool: seq<Question>, sections: seq<Section>): nat {
    if sections == [] then 0
    else Supply(pool, sections[..|sections| - 1]) + Delivered(pool, sections[|sections| - 1])
  }

  /**
   * The selection, section by section: the blocks concatenated in section
   * order, the sum over sections of min(count, available) questions.
   */
  function Selection(pool: seq<Question>, sections: seq<Section>, draws: seq<seq<nat>>): (sel: seq<Question>)
    ensures |sel| == Supply(pool, sections)
  {
    if sections == [] then []
    else
      var init := sections[..|sections| - 1];
      Selection(pool, init, draws) + Block(pool, sections[|sections| - 1], DrawsFor(draws, |init|))
  }

  /** One statistics entry: how many questions of the kind the pool has, and how many were asked for. */
  datatype Stat = Stat(available: nat, requested: nat)

  /** The statistics object as its entries, in insertion order. */
  type Stats = seq<(QuestionKind, Stat)>

  function Keys(stats: Stats): (ks: seq<QuestionKind>)
    ensures |ks| == |stats|
  {
    seq(|stats|, i requires 0 <= i < |stats| => stats[i].0)
  }

  /** The keys of an entry followed by more entries: its key, then theirs. */
  lemma KeysCons(e: (QuestionKind, Stat), rest: Stats)
    ensures Keys([e] + rest) == [e.0] + Keys(rest)
  {
  }

  /** `stats[kind]`: the value of the first entry with that key. */
  function Lookup(stats: Stats, kind: QuestionKind): (r: Option<Stat>)
    ensures r.None? <==> kind !in Keys(stats)
  {
    if stats == [] then None
    else if stats[0].0 == kind then
      assert Keys(stats)[0] == kind;
      Some(stats[0].1)
    else
      assert Keys(stats) == [stats[0].0] + Keys(stats[1..]);
      Lookup(stats[1..], kind)
  }

  /**
   * `stats[kind] = v`: an existing entry is overwritten where it stands, a new
   * key is added at the end.
   */
  function SetStat(stats: Stats, kind: QuestionKind, v: Stat): (r: Stats)
    ensures Lookup(r, kind) == Some(v)
    ensures forall k :: k != kind ==> Lookup(r, k) == Lookup(stats, k)
    ensures kind in Keys(stats) ==> Keys(r) == Keys(stats)
    ensures kind !in Keys(stats) ==> Keys(r) == Keys(stats) + [kind]
  {
    if stats == [] then [(kind, v)]
    else
      KeysCons(stats[0], stats[1..]);
      assert [stats[0]] + stats[1..] == stats;
      if stats[0].0 == kind then
        KeysCons((kind, v), stats[1..]);
        [(kind, v)] + stats[1..]
      else
        var rest := SetStat(stats[1..], kind, v);
        KeysCons(stats[0], rest);
        [stats[0]] + rest
  }

  /** The statistics after the given sections. */
  function StatsOf(pool: seq<Question>, sections: seq<Section>): Stats
  {
    if sections == [] then []
    else
      var last := sections[|sections| - 1];
      SetStat(StatsOf(pool, sections[..|sections| - 1]), last.kind, Stat(|OfKind(pool, last.kind)|, last.count))
  }

  /** Taking one more section appends its block to the selection and records its statistics entry. */
  lemma SelectionStep(pool: seq<Question>, sections: seq<Section>, draws: seq<seq<nat>>, s: nat)
    requires s < |sections|
    ensures Selection(pool, sections[..s + 1], draws) == Selection(pool, sections[..s], draws) + Block(pool, sections[s], DrawsFor(draws, s))
    ensures StatsOf(pool, sections[..s + 1]) ==
      SetStat(StatsOf(pool, sections[..s]), sections[s].kind, Stat(|OfKind(pool, sections[s].kind)|, sections[s].count))
  {
    assert sections[..s + 1][..s] == sections[..s];
  }

  /** A block is the first min(count, available) questions of the shuffled questions of its kind. */
  lemma BlockIsShufflePrefix(pool: seq<Question>, sec: Section, rand: seq<nat>)
    ensures |Shuffle(OfKind(pool, sec.kind), rand)| == |OfKind(pool, sec.kind)|
      && Block(pool, sec, rand) == Shuffle(OfKind(pool, sec.kind), rand)[..Min(sec.count, |OfKind(pool, sec.kind)|)]
  {
    ShuffleIsPermutation(OfKind(pool, sec.kind), rand);
  }

  datatype SelectionResult = SelectionResult(selected: seq<Question>, stats: Stats)

  /** selectQuestionsForPaper: the loop reassigning `selected` and `stats` section by section. */
  method SelectQuestionsForPaper(pool: seq<Question>, config: PaperConfig, draws: seq<seq<nat>>)
    returns (res: SelectionResult)
    ensures res.selected == Selection(pool, config.sections, draws)
    ensures res.stats == StatsOf(pool, config.sections)
  {
    var sections := config.sections;
    var selected: seq<Question> := [];
    var stats: Stats := [];
    var s := 0;
    while s < |sections|
      invariant 0 <= s <= |sections|
      invariant selected == Selection(pool, sections[..s], draws)
      invariant stats == StatsOf(pool, sections[..s])
    {
      SelectionStep(pool, sections, draws, s);
      var section := sections[s];
      var typeQs := OfKind(pool, section.kind);
      stats := SetStat(stats, section.kind, Stat(|typeQs|, section.count));
      var shuffled := ExportService.ShuffleArray(typeQs, DrawsFor(draws, s));
      BlockIsShufflePrefix(pool, section, DrawsFor(draws, s));
      selected := selected + shuffled[..Min(section.count, |shuffled|)];
      s := s + 1;
    }
    assert sections[..s] == sections;
    res := SelectionResult(selected, stats);
  }

  // ---------------------------------------------------------------- properties

  /** No question occurs twice. */
  ghost predicate NoDuplicates(s: seq<Question>) {
    forall q :: multiset(s)[q] <= 1
  }

  /**
   * A block takes each question from the pool no more often than the pool
   * holds it, so a pool without duplicates gives a block without duplicates.
   */
  lemma BlockFromPool(pool: seq<Question>, sec: Section, rand: seq<nat>)
    ensures forall q :: multiset(Block(pool, sec, rand))[q] <= multiset(pool)[q]
    ensures NoDuplicates(pool) ==> NoDuplicates(Block(pool, sec, rand))
  {
    var typeQs := OfKind(pool, sec.kind);
    var sh := Shuffle(typeQs, rand);
    ShuffleIsPermutation(typeQs, rand);
    var n := Min(sec.count, |typeQs|);
    assert sh == sh[..n] + sh[n..];
    assert multiset(sh) == multiset(sh[..n]) + multiset(sh[n..]);
    forall q
      ensures multiset(Block(pool, sec, rand))[q] <= multiset(pool)[q]
    {
      OfKindMultiset(pool, sec.kind, q);
    }
  }

  /** The supply of a prefix of the sections never exceeds the supply of all of them. */
  lemma {:induction false} SupplyPrefix(pool: seq<Question>, sections: seq<Section>, k: nat)
    requires k <= |sections|
    ensures Supply(pool, sections[..k]) <= Supply(pool, sections)
    decreases |sections|
  {
    if k < |sections| {
      var init := sections[..|sections| - 1];
      assert init[..k] == sections[..k];
      SupplyPrefix(pool, init, k);
    } else {
      assert sections[..k] == sections;
    }
  }

  /** Where block s starts and ends in the selection. */
  function BlockStart(pool: seq<Question>, sections: seq<Section>, s: nat): (b: nat)
    requires s < |sections|
    ensures b <= Supply(pool, sections)
  {
    SupplyPrefix(pool, sections, s);
    Supply(pool, sections[..s])
  }

  function BlockEnd(pool: seq<Question>, sections: seq<Section>, s: nat): (e: nat)
    requires s < |sections|
    ensures BlockStart(pool, sections, s) <= e <= Supply(pool, sections)
    ensures e - BlockStart(pool, sections, s) == Delivered(pool, sections[s])
  {
    assert sections[..s + 1][..s] == sections[..s];
    SupplyPrefix(pool, sections, s + 1);
    Supply(pool, sections[..s + 1])
  }

  /** The blocks before the last section lie where they lay in the selection of the sections before it. */
  lemma SelectionBlockInInit(pool: seq<Question>, sections: seq<Section>, draws: seq<seq<nat>>, s: nat)
    requires s + 1 < |sections|
    ensures var init := sections[..|sections| - 1];
      && init[s] == sections[s]
      && Selection(pool, sections, draws)[BlockStart(pool, sections, s)..BlockEnd(pool, sections, s)]
         == Selection(pool, init, draws)[BlockStart(pool, init, s)..BlockEnd(pool, init, s)]
  {
    var init := sections[..|sections| - 1];
    var block := Block(pool, sections[|sections| - 1], DrawsFor(draws, |init|));
    var left := Selection(pool, init, draws);
    PrefixOfPrefix(sections, |init|, s);
    PrefixOfPrefix(sections, |init|, s + 1);
    assert BlockStart(pool, sections, s) == BlockStart(pool, init, s);
    assert BlockEnd(pool, sections, s) == BlockEnd(pool, init, s);
    SliceOfLeft(left, block, BlockStart(pool, init, s), BlockEnd(pool, init, s));
  }

  /** The block of the last section closes the selection. */
  lemma SelectionBlockLast(pool: seq<Question>, sections: seq<Section>, draws: seq<seq<nat>>)
    requires sections != []
    ensures var s := |sections| - 1;
      Selection(pool, sections, draws)[BlockStart(pool, sections, s)..BlockEnd(pool, sections, s)]
      == Block(pool, sections[s], DrawsFor(draws, s))
  {
    var s := |sections| - 1;
    var left := Selection(pool, sections[..s], draws);
    var block := Block(pool, sections[s], DrawsFor(draws, s));
    assert Selection(pool, sections, draws) == left + block;
    assert sections[..s + 1] == sections;
    assert BlockStart(pool, sections, s) == |left| && BlockEnd(pool, sections, s) == |left| + |block|;
    SliceOfRight(left, block);
  }

  /**
   * The blocks appear in section order: the stretch of the selection between
   * the supplies of the sections before s and up to s is exactly block s,
   * drawn with the draws of section s.
   */
  lemma {:induction false} SelectionBlockAt(pool: seq<Question>, sections: seq<Section>, draws: seq<seq<nat>>, s: nat)
    requires s < |sections|
    ensures Selection(pool, sections, draws)[BlockStart(pool, sections, s)..BlockEnd(pool, sections, s)]
            == Block(pool, sections[s], DrawsFor(draws, s))
    decreases |sections|
  {
    if s + 1 < |sections| {
      SelectionBlockAt(pool, sections[..|sections| - 1], draws, s);
      SelectionBlockInInit(pool, sections, draws, s);
    } else {
      SelectionBlockLast(pool, sections, draws);
    }
  }

  /** Question j of block s stands at BlockStart(s) + j in the selection. */
  lemma SelectionElement(pool: seq<Question>, sections: seq<Section>, draws: seq<seq<nat>>, s: nat, j: nat)
    requires s < |sections| && j < Delivered(pool, sections[s])
    ensures BlockStart(pool, sections, s) + j < |Selection(pool, sections, draws)|
    ensures Selection(pool, sections, draws)[BlockStart(pool, sections, s) + j] == Block(pool, sections[s], DrawsFor(draws, s))[j]
  {
    SelectionBlockAt(pool, sections, draws, s);
    var lo, hi := BlockStart(pool, sections, s), BlockEnd(pool, sections, s);
    assert Selection(pool, sections, draws)[lo..hi][j] == Selection(pool, sections, draws)[lo + j];
  }

  /**
   * Every selected question in block s has the kind of section s, and block s
   * holds min(count, available) questions.
   */
  lemma SelectionKinds(pool: seq<Question>, sections: seq<Section>, draws: seq<seq<nat>>, s: nat, i: nat)
    requires s < |sections| && BlockStart(pool, sections, s) <= i < BlockEnd(pool, sections, s)
    ensures i < |Selection(pool, sections, draws)|
    ensures Selection(pool, sections, draws)[i].kind == sections[s].kind
  {
    SelectionBlockAt(pool, sections, draws, s);
    var lo := BlockStart(pool, sections, s);
    assert Selection(pool, sections, draws)[i] == Block(pool, sections[s], DrawsFor(draws, s))[i - lo];
  }

  /**
   * Sections do not exclude one another: a pool of a single MCQ question and
   * two one-question MCQ sections select that question twice.
   */
  lemma SameQuestionInTwoSections(q: Question, marks: real, draws: seq<seq<nat>>)
    requires q.kind == MCQ
    ensures Selection([q], [Section(MCQ, 1, marks, 0.0), Section(MCQ, 1, marks, 0.0)], draws) == [q, q]
  {
    var sec := Section(MCQ, 1, marks, 0.0);
    assert OfKind([q], MCQ) == OfKind([], MCQ) + [q] == [q];
    assert Shuffle([q], DrawsFor(draws, 0)) == [q] && Shuffle([q], DrawsFor(draws, 1)) == [q];
    assert Block([q], sec, DrawsFor(draws, 0)) == [q];
    assert Block([q], sec, DrawsFor(draws, 1)) == [q];
    assert [sec, sec][..1] == [sec] && [sec][..0] == [];
    assert Selection([q], [sec], draws) == [q];
  }

  /** A kind no section has gets no statistics entry. */
  lemma {:induction false} StatsAbsent(pool: seq<Question>, sections: seq<Section>, kind: QuestionKind)
    requires forall i :: 0 <= i < |sections| ==> sections[i].kind != kind
    ensures Lookup(StatsOf(pool, sections), kind) == None
    decreases |sections|
  {
    if sections != [] {
      StatsAbsent(pool, sections[..|sections| - 1], kind);
    }
  }

  /**
   * The entry of a kind some section has: `available` is the pool's count of
   * that kind and `requested` the count of the last section of that kind.
   */
  lemma {:induction false} StatsRecordLastSection(pool: seq<Question>, sections: seq<Section>, kind: QuestionKind, i: nat)
    requires i < |sections| && sections[i].kind == kind
    requires forall j :: i < j < |sections| ==> sections[j].kind != kind
    ensures Lookup(StatsOf(pool, sections), kind) == Some(Stat(|OfKind(pool, kind)|, sections[i].count))
    decreases |sections|
  {
    var init := sections[..|sections| - 1];
    if i < |init| {
      StatsRecordLastSection(pool, init, kind, i);
    }
  }

  /** Every kind appears at most once among the statistics keys, in order of first appearance. */
  lemma {:induction false} StatsKeysDistinct(pool: seq<Question>, sections: seq<Section>)
    ensures forall i, j :: 0 <= i < j < |StatsOf(pool, sections)| ==>
      StatsOf(pool, sections)[i].0 != StatsOf(pool, sections)[j].0
    decreases |sections|
  {
    if sections != [] {
      var init, last := sections[..|sections| - 1], sections[|sections| - 1];
      StatsKeysDistinct(pool, init);
      var before := StatsOf(pool, init);
      var after := StatsOf(pool, sections);
      assert forall i :: 0 <= i < |before| ==> Keys(before)[i] == before[i].0;
      assert forall i :: 0 <= i < |after| ==> Keys(after)[i] == after[i].0;
    }
  }
}
