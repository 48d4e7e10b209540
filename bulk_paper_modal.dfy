// The bulk-generation form (components/BulkPaperModal.tsx): either several
// streams, one paper each, or several sets of one target stream; the stream
// selection, the shared section editing, and the request handed to the
// bulk generator once the form is complete.

module BulkPaperModal {

  import opened Types
  import opened Seqs
  import opened PaperConfigModal

  /** toggleStream: a selected stream is removed, any other is appended. */
  function Toggle(selected: seq<string>, stream: string): (r: seq<string>)
    ensures stream in selected ==> r == RemoveAll(selected, stream)
    ensures stream !in selected ==> r == selected + [stream]
    ensures stream in r <==> stream !in selected
    ensures forall s :: s != stream ==> (s in r <==> s in selected)
  {
    if stream in selected then
      var r := RemoveAll(selected, stream);
      forall s | s != stream
        ensures s in r <==> s in selected
      {
        assert multiset(r)[s] == multiset(selected)[s];
        assert s in r <==> s in multiset(r);
        assert s in selected <==> s in multiset(selected);
      }
      r
    else selected + [stream]
  }

  /** Toggling a stream that was not selected twice restores the selection. */
  lemma ToggleTwice(selected: seq<string>, stream: string)
    requires stream !in selected
    ensures Toggle(Toggle(selected, stream), stream) == selected
  {
    RemoveAllAppend(selected, [stream], stream);
    RemoveAllAbsent(selected, stream);
    assert RemoveAll([stream], stream) == [];
  }

  /** A selection built by toggling never lists a stream twice. */
  lemma ToggleKeepsDistinct(selected: seq<string>, stream: string)
    requires forall i, j :: 0 <= i < j < |selected| ==> selected[i] != selected[j]
    ensures var r := Toggle(selected, stream);
      forall i, j :: 0 <= i < j < |r| ==> r[i] != r[j]
  {
    var r := Toggle(selected, stream);
    if stream in selected {
      forall i, j | 0 <= i < j < |r| ensures r[i] != r[j] {
        assert r[i] != stream;
        assert multiset(r)[r[i]] == multiset(selected)[r[i]];
        if r[i] == r[j] {
          assert multiset(r)[r[i]] >= 2 by {
            assert r == r[..j] + [r[j]] + r[j + 1..];
            assert r[i] in r[..j];
          }
          DistinctCountsOne(selected, r[i]);
        }
      }
    }
  }

  /** In a list without repeats a value occurs at most once. */
  lemma {:induction false} DistinctCountsOne(xs: seq<string>, x: string)
    requires forall i, j :: 0 <= i < j < |xs| ==> xs[i] != xs[j]
    ensures multiset(xs)[x] <= 1
    decreases |xs|
  {
    if xs != [] {
      var init := xs[..|xs| - 1];
      assert xs == init + [xs[|xs| - 1]];
      DistinctCountsOne(init, x);
      assert xs[|xs| - 1] !in init;
    }
  }

  /** What handleGenerate hands to the bulk generator. */
  datatype BulkRequest = BulkRequest(mode: BulkMode, config: PaperConfig, selection: BulkSelection)

  class BulkPaperForm {
    var mode: BulkMode
    var selectedStreams: seq<string>
    var targetStream: string
    var setCounts: int
    var duration: int
    var sections: seq<Section>

    ghost predicate Valid()
      reads this
    {
      |sections| >= 1
    }

    /** A fresh form: several streams, none selected, no target, five sets, sixty minutes, one MCQ section of ten. */
    constructor()
      ensures Valid()
      ensures mode == MultiStream && selectedStreams == [] && targetStream == "" && setCounts == 5
      ensures duration == 60 && sections == [InitialSection]
    {
      mode := MultiStream;
      selectedStreams := [];
      targetStream := "";
      setCounts := 5;
      duration := 60;
      sections := [InitialSection];
    }

    method ToggleStream(stream: string)
      modifies this
      ensures selectedStreams == Toggle(old(selectedStreams), stream)
      ensures mode == old(mode) && targetStream == old(targetStream) && setCounts == old(setCounts)
      ensures duration == old(duration) && sections == old(sections)
    {
      selectedStreams := Toggle(selectedStreams, stream);
    }

    /** Select all: exactly the streams the modal is showing at the time of the click. */
    method SelectAllStreams(availableStreams: seq<string>)
      modifies this
      ensures selectedStreams == availableStreams
      ensures mode == old(mode) && targetStream == old(targetStream) && setCounts == old(setCounts)
      ensures duration == old(duration) && sections == old(sections)
    {
      selectedStreams := availableStreams;
    }

    method DeselectAllStreams()
      modifies this
      ensures selectedStreams == []
      ensures mode == old(mode) && targetStream == old(targetStream) && setCounts == old(setCounts)
      ensures duration == old(duration) && sections == old(sections)
    {
      selectedStreams := [];
    }

    /** The two mode buttons. */
    method SetMode(m: BulkMode)
      modifies this`mode
      ensures mode == m
    {
      mode := m;
    }

    /** The target stream picker of multi-set mode. */
    method SetTargetStream(stream: string)
      modifies this`targetStream
      ensures targetStream == stream
    {
      targetStream := stream;
    }

    /** The number-of-sets field, read as a whole number. */
    method SetSetCounts(n: int)
      modifies this`setCounts
      ensures setCounts == n
    {
      setCounts := n;
    }

    /** The duration field, read as a whole number of minutes. */
    method SetDuration(minutes: int)
      modifies this`duration
      ensures duration == minutes
    {
      duration := minutes;
    }

    method AddSection()
      requires Valid()
      modifies this
      ensures Valid()
      ensures sections == AppendDefaultSection(old(sections))
      ensures mode == old(mode) && selectedStreams == old(selectedStreams) && targetStream == old(targetStream)
      ensures setCounts == old(setCounts) && duration == old(duration)
    {
      sections := AppendDefaultSection(sections);
    }

    /** The remove button: disabled on the last section, otherwise removes section idx. */
    method RemoveSection(idx: int)
      requires Valid()
      modifies this
      ensures Valid()
      ensures |old(sections)| == 1 ==> sections == old(sections)
      ensures |old(sections)| > 1 ==> sections == RemoveSectionAt(old(sections), idx)
      ensures mode == old(mode) && selectedStreams == old(selectedStreams) && targetStream == old(targetStream)
      ensures setCounts == old(setCounts) && duration == old(duration)
    {
      if |sections| > 1 {
        sections := RemoveSectionAt(sections, idx);
      }
    }

    method UpdateSection(idx: nat, field: SectionField)
      requires Valid() && idx < |sections|
      modifies this
      ensures Valid()
      ensures sections == UpdateSectionAt(old(sections), idx, field)
      ensures mode == old(mode) && selectedStreams == old(selectedStreams) && targetStream == old(targetStream)
      ensures setCounts == old(setCounts) && duration == old(duration)
    {
      sections := UpdateSectionAt(sections, idx, field);
    }

    /**
     * handleGenerate: nothing in multi-stream mode without a selected stream
     * or in multi-set mode without a target; otherwise the configuration is
     * named VARIOUS or after the target, and the selection carries only the
     * fields of its mode.
     */
    method HandleGenerate() returns (request: Option<BulkRequest>)
      ensures request.None? <==> (mode == MultiStream && selectedStreams == []) || (mode == MultiSet && targetStream == "")
      ensures request.Some? ==> request.value.mode == mode
      ensures request.Some? ==>
        request.value.config == PaperConfig(if mode == MultiStream then "VARIOUS" else targetStream, duration, sections)
      ensures request.Some? && mode == MultiStream ==> request.value.selection == BulkSelection(Some(selectedStreams), None, None)
      ensures request.Some? && mode == MultiSet ==> request.value.selection == BulkSelection(None, Some(targetStream), Some(setCounts))
    {
      if mode == MultiStream && |selectedStreams| == 0 {
        return None;
      }
      if mode == MultiSet && targetStream == "" {
        return None;
      }
      var config := PaperConfig(if mode == MultiStream then "VARIOUS" else targetStream, duration, sections);
      var selection := BulkSelection(
        if mode == MultiStream then Some(selectedStreams) else None,
        if mode == MultiSet then Some(targetStream) else None,
        if mode == MultiSet then Some(setCounts) else None);
      request := Some(BulkRequest(mode, config, selection));
    }
  }
}
