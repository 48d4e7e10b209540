// How the selection and the paper layout fit together. The selection delivers
// min(count, available) questions per section, but the paper and spreadsheet
// walks advance their cursor by the configured `count` of each section. When a
// section is short of questions, the questions of the following sections slide
// forward into it: a numerical question is printed with four options under a
// choice section, and the section it belongs to comes out short or empty.
//
// The corrected flow renders with every section's count capped at what the
// selection delivered for it; then section s of the paper holds exactly block s
// of the selection.

module PaperAlignment {

  import opened Types
  import opened Seqs
  import opened ExportService
  import opened AppSelection
  import opened Shuffling

  /** The sections of the misalignment example: two MCQ questions, then one NAT question. */
  const ShortSections: seq<Section> := [Section(MCQ, 2, 1.0, 0.0), Section(NAT, 1, 2.0, 0.0)]

  /** A section whose kind the pool holds exactly one question of, asking for at least one, selects that question. */
  lemma SingletonBlock(pool: seq<Question>, sec: Section, rand: seq<nat>, q: Question)
    requires OfKind(pool, sec.kind) == [q] && sec.count >= 1
    ensures Block(pool, sec, rand) == [q]
  {
    assert Shuffle([q], rand) == [q];
  }

  /** With one question of each kind in the pool, the example selects [mcq, nat]. */
  lemma ShortSelection(mcq: Question, nat_: Question, draws: seq<seq<nat>>)
    requires mcq.kind == MCQ && nat_.kind == NAT
    ensures Selection([mcq, nat_], ShortSections, draws) == [mcq, nat_]
  {
    var pool := [mcq, nat_];
    assert pool[..1] == [mcq] && pool[..1][..0] == [];
    assert OfKind([mcq], MCQ) == [mcq] && OfKind([mcq], NAT) == [];
    assert OfKind(pool, MCQ) == [mcq];
    assert OfKind(pool, NAT) == [nat_];
    SingletonBlock(pool, ShortSections[0], DrawsFor(draws, 0), mcq);
    SingletonBlock(pool, ShortSections[1], DrawsFor(draws, 1), nat_);
    var first := ShortSections[..1];
    assert first == [ShortSections[0]] && first[..0] == [];
    assert Selection(pool, first, draws) == [mcq];
  }

  /**
   * The walk as written misplaces questions: with one MCQ and one NAT question
   * in the pool and sections (MCQ, 2) then (NAT, 1), the selection is
   * [mcq, nat]; the paper puts the NAT question as Q.2 under the MCQ section,
   * with four options, leaves the NAT section empty, and the spreadsheet files
   * it under the MCQ section's kind and marks.
   */
  lemma CursorWalkMisaligned(mcq: Question, nat_: Question, draws: seq<seq<nat>>, r: Renderer)
    requires mcq.kind == MCQ && nat_.kind == NAT
    ensures var selected := Selection([mcq, nat_], ShortSections, draws);
      && selected == [mcq, nat_]
      && PaperSections(selected, ShortSections, r)[0].entries
         == [EntryOf(mcq, 1, MCQ, r), EntryOf(nat_, 2, MCQ, r)]
      && AnswerAreaOf(MCQ, nat_, r).Choices?
      && PaperSections(selected, ShortSections, r)[1].entries == []
      && ExcelRows(selected, ShortSections)[1] == ExcelRowOf(nat_, ShortSections[0])
  {
    ShortSelection(mcq, nat_, draws);
    var qs := [mcq, nat_];
    ShortCursor(qs);
    PaperEntryAt(qs, ShortSections, r, 0, 0, 0, mcq, MCQ);
    PaperEntryAt(qs, ShortSections, r, 0, 0, 1, nat_, MCQ);
    PaperSectionAt(qs, ShortSections, r, 1);
    ExcelRowAt(qs, ShortSections, 0, 1, nat_, ShortSections[0]);
  }

  /** For two questions, the MCQ section's cursor range is both of them and the NAT section's is empty. */
  lemma ShortCursor(qs: seq<Question>)
    requires |qs| == 2
    ensures CursorStart(qs, ShortSections, 0) == 0 && CursorEnd(qs, ShortSections, 0) == 2
    ensures CursorStart(qs, ShortSections, 1) == 2 && CursorEnd(qs, ShortSections, 1) == 2
  {
    var a, b := ShortSections[0], ShortSections[1];
    assert ShortSections[..0] == [] && ShortSections[..1] == [a] && ShortSections[..2] == ShortSections;
    assert [a][..0] == [] && ShortSections[..1] == [a];
    assert TotalCount([a]) == 2;
    assert TotalCount(ShortSections) == 3;
  }

  /** The sections with every count capped at what the selection delivers for it. */
  function DeliveredSections(pool: seq<Question>, sections: seq<Section>): (ds: seq<Section>)
    ensures |ds| == |sections|
    ensures forall i :: 0 <= i < |sections| ==>
      ds[i] == Section(sections[i].kind, Delivered(pool, sections[i]), sections[i].marksPerQuestion, sections[i].negativeMarks)
  {
    seq(|sections|, i requires 0 <= i < |sections| =>
      Section(sections[i].kind, Delivered(pool, sections[i]), sections[i].marksPerQuestion, sections[i].negativeMarks))
  }

  /** The capped sections ask for exactly as many questions as the selection holds. */
  lemma {:induction false} DeliveredTotal(pool: seq<Question>, sections: seq<Section>)
    ensures TotalCount(DeliveredSections(pool, sections)) == Supply(pool, sections)
    decreases |sections|
  {
    if sections != [] {
      var init := sections[..|sections| - 1];
      DeliveredTotal(pool, init);
      var ds := DeliveredSections(pool, sections);
      assert ds[..|ds| - 1] == DeliveredSections(pool, init);
    }
  }

  /** Capping commutes with taking a prefix of the sections. */
  lemma DeliveredPrefix(pool: seq<Question>, sections: seq<Section>, k: nat)
    requires k <= |sections|
    ensures DeliveredSections(pool, sections)[..k] == DeliveredSections(pool, sections[..k])
  {
  }

  /** The corrected configuration handed to the renderers: same subject, duration, kinds and marks. */
  function AlignedConfig(pool: seq<Question>, config: PaperConfig): PaperConfig {
    PaperConfig(config.subjectName, config.durationMins, DeliveredSections(pool, config.sections))
  }

  /** Under the capped counts, the cursor stands at the start and end of block s of the selection. */
  lemma AlignedCursor(pool: seq<Question>, secs: seq<Section>, draws: seq<seq<nat>>, s: nat)
    requires s < |secs|
    ensures var selected := Selection(pool, secs, draws);
      && CursorStart(selected, DeliveredSections(pool, secs), s) == BlockStart(pool, secs, s)
      && CursorEnd(selected, DeliveredSections(pool, secs), s) == BlockEnd(pool, secs, s)
  {
    var selected := Selection(pool, secs, draws);
    var ds := DeliveredSections(pool, secs);
    DeliveredPrefix(pool, secs, s);
    DeliveredPrefix(pool, secs, s + 1);
    DeliveredTotal(pool, secs[..s]);
    DeliveredTotal(pool, secs[..s + 1]);
    SupplyPrefix(pool, secs, s);
    SupplyPrefix(pool, secs, s + 1);
    assert CursorStart(selected, ds, s) == Min(TotalCount(ds[..s]), |selected|);
    assert CursorEnd(selected, ds, s) == Min(TotalCount(ds[..s + 1]), |selected|);
  }

  /** Under the capped counts, the cursor range of section s holds question j of block s at BlockStart(s) + j. */
  lemma AlignedRange(pool: seq<Question>, secs: seq<Section>, draws: seq<seq<nat>>, s: nat, j: nat)
    requires s < |secs| && j < Delivered(pool, secs[s])
    ensures var selected := Selection(pool, secs, draws);
      var lo := BlockStart(pool, secs, s);
      && lo == CursorStart(selected, DeliveredSections(pool, secs), s)
      && lo + j < CursorEnd(selected, DeliveredSections(pool, secs), s)
      && CursorEnd(selected, DeliveredSections(pool, secs), s) - lo == Delivered(pool, secs[s])
      && selected[lo + j] == Block(pool, secs[s], DrawsFor(draws, s))[j]
  {
    AlignedCursor(pool, secs, draws, s);
    SelectionElement(pool, secs, draws, s, j);
  }

  /** Entry j of section s under the capped counts is question j of block s. */
  lemma AlignedEntry(pool: seq<Question>, secs: seq<Section>, draws: seq<seq<nat>>, r: Renderer, s: nat, j: nat)
    requires s < |secs| && j < Delivered(pool, secs[s])
    ensures var out := PaperSections(Selection(pool, secs, draws), DeliveredSections(pool, secs), r);
      var lo := BlockStart(pool, secs, s);
      && |out[s].entries| == Delivered(pool, secs[s])
      && out[s].entries[j] == EntryOf(Block(pool, secs[s], DrawsFor(draws, s))[j], lo + j + 1, secs[s].kind, r)
  {
    var ds := DeliveredSections(pool, secs);
    assert ds[s].kind == secs[s].kind;
    AlignedRange(pool, secs, draws, s, j);
    PaperEntryAt(Selection(pool, secs, draws), ds, r, s, BlockStart(pool, secs, s), j,
                 Block(pool, secs[s], DrawsFor(draws, s))[j], secs[s].kind);
  }

  /**
   * With the capped counts, the walk lines up with the selection: section s
   * of the paper holds exactly the questions of block s, numbered on from the
   * blocks before it, under the kind of section s.
   */
  lemma AlignedPaperMatchesBlocks(pool: seq<Question>, config: PaperConfig, draws: seq<seq<nat>>, r: Renderer, s: nat, j: nat)
    requires s < |config.sections|
    requires j < Delivered(pool, config.sections[s])
    ensures var selected := Selection(pool, config.sections, draws);
      var out := PaperSections(selected, AlignedConfig(pool, config).sections, r);
      var block := Block(pool, config.sections[s], DrawsFor(draws, s));
      && |out[s].entries| == Delivered(pool, config.sections[s])
      && out[s].entries[j] == EntryOf(block[j], BlockStart(pool, config.sections, s) + j + 1, config.sections[s].kind, r)
      && block[j].kind == config.sections[s].kind
  {
    AlignedEntry(pool, config.sections, draws, r, s, j);
  }

  /** With the capped counts, spreadsheet row BlockStart(s) + j is question j of block s beside section s's kind and marks. */
  lemma AlignedExcelMatchesBlocks(pool: seq<Question>, config: PaperConfig, draws: seq<seq<nat>>, s: nat, j: nat)
    requires s < |config.sections|
    requires j < Delivered(pool, config.sections[s])
    ensures var selected := Selection(pool, config.sections, draws);
      var sections := AlignedConfig(pool, config).sections;
      var block := Block(pool, config.sections[s], DrawsFor(draws, s));
      && BlockStart(pool, config.sections, s) + j < |ExcelRows(selected, sections)|
      && ExcelRows(selected, sections)[BlockStart(pool, config.sections, s) + j] == ExcelRowOf(block[j], sections[s])
      && sections[s].kind == block[j].kind
  {
    var secs := config.sections;
    var ds := DeliveredSections(pool, secs);
    assert AlignedConfig(pool, config).sections == ds;
    AlignedRange(pool, secs, draws, s, j);
    ExcelRowAt(Selection(pool, secs, draws), ds, s, BlockStart(pool, secs, s) + j,
               Block(pool, secs[s], DrawsFor(draws, s))[j], ds[s]);
  }
}
