// The single-paper configuration form (components/PaperConfigModal.tsx): the
// subject, duration and section list being edited, the over-limit check
// against the questions in the bank, the two presets, and the guard in front of
// paper generation. The section-list edits are shared with the bulk form.

module PaperConfigModal {

  import opened Types
  import ExportService
  import Seqs

  /** The section `addSection` appends: five MCQ questions at two marks, no penalty. */
  const DefaultSection: Section := Section(MCQ, 5, 2.0, 0.0)

  /** The section a new form starts with. */
  const InitialSection: Section := Section(MCQ, 10, 1.0, 0.33)

  /** `totalAllocated > totalAvailableQuestions`. */
  function IsOverLimit(sections: seq<Section>, available: nat): (over: bool)
    ensures over <==> TotalCount(sections) > available
  {
    TotalCount(sections) > available
  }

  /** addSection: the list with the default section appended. */
  function AppendDefaultSection(sections: seq<Section>): (r: seq<Section>)
    ensures |r| == |sections| + 1 && r[..|sections|] == sections && r[|sections|] == DefaultSection
  {
    sections + [DefaultSection]
  }

  /** Adding a section asks for five more questions, so a form over the limit stays over it. */
  lemma AddSectionTotal(sections: seq<Section>, available: nat)
    ensures TotalCount(AppendDefaultSection(sections)) == TotalCount(sections) + 5
    ensures IsOverLimit(sections, available) ==> IsOverLimit(AppendDefaultSection(sections), available)
  {
    TotalCountAppend(sections, [DefaultSection]);
    assert [DefaultSection][..0] == [];
  }

  /** removeSection: `filter((_, i) => i !== idx)`, element by element. */
  function RemoveSectionAt(sections: seq<Section>, idx: int): (r: seq<Section>)
    ensures 0 <= idx < |sections| ==> r == sections[..idx] + sections[idx + 1..]
    ensures !(0 <= idx < |sections|) ==> r == sections
  {
    if sections == [] then []
    else
      var init := sections[..|sections| - 1];
      var last := sections[|sections| - 1];
      var kept := RemoveSectionAt(init, idx);
      assert sections == init + [last];
      if idx == |sections| - 1 then kept else kept + [last]
  }

  /** The allocation of a list split around one section. */
  lemma TotalCountAround(pre: seq<Section>, x: Section, post: seq<Section>)
    ensures TotalCount(pre + [x] + post) == TotalCount(pre) + x.count + TotalCount(post)
  {
    TotalCountAppend(pre + [x], post);
    TotalCountAppend(pre, [x]);
    assert [x][..0] == [];
  }

  /** Removing the section between `pre` and `post` leaves the allocation of `pre + post`. */
  lemma RemoveAroundTotal(sections: seq<Section>, pre: seq<Section>, x: Section, post: seq<Section>)
    requires sections == pre + [x] + post
    ensures TotalCount(RemoveSectionAt(sections, |pre|)) == TotalCount(sections) - x.count
  {
    assert sections[..|pre|] == pre && sections[|pre| + 1..] == post;
    TotalCountAround(pre, x, post);
    TotalCountAppend(pre, post);
  }

  /** Removing a section gives back its questions to the allocation. */
  lemma RemoveSectionTotal(sections: seq<Section>, idx: nat)
    requires idx < |sections|
    ensures TotalCount(RemoveSectionAt(sections, idx)) == TotalCount(sections) - sections[idx].count
  {
    Seqs.SplitAt(sections, idx);
    RemoveAroundTotal(sections, sections[..idx], sections[idx], sections[idx + 1..]);
  }

  /** Which field of a section an edit sets, with its new value. */
  datatype SectionField = KindField(kind: QuestionKind) | CountField(count: nat)
    | MarksField(marks: real) | NegativeField(negative: real)

  /** `{ ...section, [field]: value }`. */
  function WithField(sec: Section, field: SectionField): (r: Section)
    ensures field.KindField? ==> r == sec.(kind := field.kind)
    ensures field.CountField? ==> r == sec.(count := field.count)
    ensures field.MarksField? ==> r == sec.(marksPerQuestion := field.marks)
    ensures field.NegativeField? ==> r == sec.(negativeMarks := field.negative)
  {
    match field
    case KindField(k) => sec.(kind := k)
    case CountField(n) => sec.(count := n)
    case MarksField(m) => sec.(marksPerQuestion := m)
    case NegativeField(n) => sec.(negativeMarks := n)
  }

  /** updateSection: exactly one field of exactly one section changes. */
  function UpdateSectionAt(sections: seq<Section>, idx: nat, field: SectionField): (r: seq<Section>)
    requires idx < |sections|
    ensures |r| == |sections|
    ensures forall j :: 0 <= j < |r| && j != idx ==> r[j] == sections[j]
    ensures r[idx] == WithField(sections[idx], field)
  {
    sections[idx := WithField(sections[idx], field)]
  }

  /** Changing a count moves the allocation by the difference; other edits leave it. */
  lemma UpdateSectionTotal(sections: seq<Section>, idx: nat, field: SectionField)
    requires idx < |sections|
    ensures field.CountField? ==>
      TotalCount(UpdateSectionAt(sections, idx, field)) == TotalCount(sections) - sections[idx].count + field.count
    ensures !field.CountField? ==> TotalCount(UpdateSectionAt(sections, idx, field)) == TotalCount(sections)
  {
    var r := UpdateSectionAt(sections, idx, field);
    var pre := sections[..idx];
    var post := sections[idx + 1..];
    Seqs.SplitAt(sections, idx);
    Seqs.SplitAt(r, idx);
    assert r[..idx] == pre && r[idx + 1..] == post;
    TotalCountAround(pre, sections[idx], post);
    TotalCountAround(pre, r[idx], post);
    assert r[idx].count == if field.CountField? then field.count else sections[idx].count;
  }

  datatype Preset = GatePreset | NetPreset

  /** The GATE approximation: two MCQ blocks, two NAT blocks and one MSQ block. */
  const GateSections: seq<Section> := [
    Section(MCQ, 20, 1.0, 0.33), Section(MCQ, 20, 2.0, 0.66),
    Section(NAT, 10, 1.0, 0.0), Section(NAT, 10, 2.0, 0.0),
    Section(MSQ, 5, 2.0, 0.0)
  ]

  /** The UGC-NET approximation: two MCQ blocks of fifty at two marks, no penalty. */
  const NetSections: seq<Section> := [Section(MCQ, 50, 2.0, 0.0), Section(MCQ, 50, 2.0, 0.0)]

  function PresetDuration(p: Preset): int {
    match p
    case GatePreset => 180
    case NetPreset => 120
  }

  function PresetSections(p: Preset): seq<Section> {
    match p
    case GatePreset => GateSections
    case NetPreset => NetSections
  }

  /** Appending one section adds its count and its marks to the totals. */
  lemma TotalsSnoc(sections: seq<Section>, x: Section)
    ensures TotalCount(sections + [x]) == TotalCount(sections) + x.count
    ensures ExportService.TotalMarks(sections + [x]) == ExportService.TotalMarks(sections) + x.count as real * x.marksPerQuestion
  {
    assert (sections + [x])[..|sections|] == sections;
  }

  /** The totals of a two-section list. */
  lemma TotalsOfTwo(a: Section, b: Section)
    ensures TotalCount([a, b]) == a.count + b.count
    ensures ExportService.TotalMarks([a, b]) == a.count as real * a.marksPerQuestion + b.count as real * b.marksPerQuestion
  {
    TotalsSnoc([], a);
    assert [] + [a] == [a];
    TotalsSnoc([a], b);
    assert [a] + [b] == [a, b];
  }

  /** The totals of a five-section list. */
  lemma TotalsOfFive(a: Section, b: Section, c: Section, d: Section, e: Section)
    ensures TotalCount([a, b, c, d, e]) == a.count + b.count + c.count + d.count + e.count
    ensures ExportService.TotalMarks([a, b, c, d, e]) ==
      a.count as real * a.marksPerQuestion + b.count as real * b.marksPerQuestion
      + c.count as real * c.marksPerQuestion + d.count as real * d.marksPerQuestion
      + e.count as real * e.marksPerQuestion
  {
    TotalsOfTwo(a, b);
    TotalsSnoc([a, b], c);
    assert [a, b] + [c] == [a, b, c];
    TotalsSnoc([a, b, c], d);
    assert [a, b, c] + [d] == [a, b, c, d];
    TotalsSnoc([a, b, c, d], e);
    assert [a, b, c, d] + [e] == [a, b, c, d, e];
  }

  /** The GATE preset asks for 65 questions worth 100 marks; the NET preset for 100 worth 200. */
  lemma PresetTotals()
    ensures PresetDuration(GatePreset) == 180 && |GateSections| == 5
    ensures TotalCount(GateSections) == 65 && ExportService.TotalMarks(GateSections) == 100.0
    ensures PresetDuration(NetPreset) == 120 && |NetSections| == 2
    ensures TotalCount(NetSections) == 100 && ExportService.TotalMarks(NetSections) == 200.0
    ensures forall s :: s in NetSections ==> s.kind == MCQ && s.negativeMarks == 0.0
  {
    var g := GateSections;
    TotalsOfFive(g[0], g[1], g[2], g[3], g[4]);
    assert g == [g[0], g[1], g[2], g[3], g[4]];
    var n := NetSections;
    TotalsOfTwo(n[0], n[1]);
    assert n == [n[0], n[1]];
  }

  /** What handleGenerate hands on: the configuration and the requested format. */
  datatype Format = PDF | EXCEL
  datatype GenerateCall = GenerateCall(config: PaperConfig, format: Format)

  class PaperConfigForm {
    var subject: string
    var duration: int
    var sections: seq<Section>

    /** The remove button is disabled on the last section, so the list is never empty. */
    ghost predicate Valid()
      reads this
    {
      |sections| >= 1
    }

    /** A fresh form: the given subject or General Aptitude, sixty minutes, one MCQ section of ten. */
    constructor(defaultSubject: Option<string>)
      ensures Valid()
      ensures subject == (if Truthy(defaultSubject) then defaultSubject.value else "General Aptitude")
      ensures duration == 60 && sections == [InitialSection]
    {
      subject := if Truthy(defaultSubject) then defaultSubject.value else "General Aptitude";
      duration := 60;
      sections := [InitialSection];
    }

    /** The effect on opening: a non-empty default subject replaces the subject. */
    method Open(defaultSubject: Option<string>)
      modifies this
      ensures subject == (if Truthy(defaultSubject) then defaultSubject.value else old(subject))
      ensures duration == old(duration) && sections == old(sections)
    {
      if Truthy(defaultSubject) {
        subject := defaultSubject.value;
      }
    }

    function TotalAllocated(): (n: nat)
      reads this
      ensures n == TotalCount(sections)
    {
      TotalCount(sections)
    }

    method AddSection()
      requires Valid()
      modifies this
      ensures Valid()
      ensures sections == AppendDefaultSection(old(sections))
      ensures subject == old(subject) && duration == old(duration)
    {
      sections := AppendDefaultSection(sections);
    }

    /** The remove button: does nothing on the last section, otherwise removes section idx. */
    method RemoveSection(idx: int)
      requires Valid()
      modifies this
      ensures Valid()
      ensures |old(sections)| == 1 ==> sections == old(sections)
      ensures |old(sections)| > 1 ==> sections == RemoveSectionAt(old(sections), idx)
      ensures subject == old(subject) && duration == old(duration)
    {
      if |sections| > 1 {
        sections := RemoveSectionAt(sections, idx);
      }
    }

    method UpdateSection(idx: nat, field: SectionField)
      requires Valid() && idx < |sections|
      modifies this
      ensures Valid()
      ensures sections == UpdateSectionAt(old(sections), idx, field)
      ensures subject == old(subject) && duration == old(duration)
    {
      sections := UpdateSectionAt(sections, idx, field);
    }

    /** loadPreset: duration and sections of the preset; the subject is kept. */
    method LoadPreset(p: Preset)
      modifies this
      ensures Valid()
      ensures duration == PresetDuration(p) && sections == PresetSections(p) && subject == old(subject)
    {
      match p {
        case GatePreset =>
          duration := 180;
          sections := GateSections;
        case NetPreset =>
          duration := 120;
          sections := NetSections;
      }
    }

    /**
     * handleGenerate: nothing is generated when the form asks for more
     * questions than the bank holds at the time of the click
     * (`totalAvailableQuestions`, the bank size passed on every render);
     * otherwise the subject, duration and sections are handed on as they
     * stand.
     */
    method HandleGenerate(format: Format, totalAvailable: nat) returns (call: Option<GenerateCall>)
      ensures IsOverLimit(sections, totalAvailable) <==> call.None?
      ensures call.Some? ==> call.value == GenerateCall(PaperConfig(subject, duration, sections), format)
    {
      if IsOverLimit(sections, totalAvailable) {
        call := None;
      } else {
        call := Some(GenerateCall(PaperConfig(subject, duration, sections), format));
      }
    }
  }

  /**
   * The modal stays mounted while the bank grows: the same form, with its
   * initial ten-question section, is refused while the bank is empty and
   * generates once the bank holds twenty questions.
   */
  method GenerateAfterBankGrows() returns (before: Option<GenerateCall>, after: Option<GenerateCall>)
    ensures before.None?
    ensures after == Some(GenerateCall(PaperConfig("General Aptitude", 60, [InitialSection]), Format.PDF))
  {
    var form := new PaperConfigForm(None);
    assert TotalCount([InitialSection]) == 10 by {
      assert [InitialSection][..0] == [];
    }
    before := form.HandleGenerate(Format.PDF, 0);
    after := form.HandleGenerate(Format.PDF, 20);
  }
}
