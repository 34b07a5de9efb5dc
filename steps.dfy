/**
 * The step records of `script.js` (`sequenceData`) and the edits the page
 * makes to them, as functions on the sequence of steps: the initial
 * allocation, a single-step save, a bulk edit and the note/octave rewrite
 * of random generation.
 */
module Steps {
  import opened Wrappers
  import opened Tables
  import opened Pitch

  /** One step `{id, note, octave, waveform, volume}`; the DOM handles the
      source keeps next to them are not modelled. */
  datatype Step = Step(id: int, note: string, octave: int, waveform: string, volume: real)

  /** The record `createPlaybackBlocks` allocates for step i. */
  function DefaultStep(i: int): Step {
    Step(i, "A", 4, "sawtooth", 0.5)
  }

  /** Every step sits at the index its id names. */
  ghost predicate IdsMatch(steps: seq<Step>) {
    forall i :: 0 <= i < |steps| ==> steps[i].id == i
  }

  /** The sixteen default steps. */
  function InitialSequence(): (s: seq<Step>)
    ensures |s| == NumBlocks && IdsMatch(s)
    ensures forall i :: 0 <= i < |s| ==> s[i] == DefaultStep(i)
  {
    seq(NumBlocks, i => DefaultStep(i))
  }

  /** Every initial step plays concert A (MIDI 69, 440 Hz) on a sawtooth at
      half volume, with any consistent note tables that spell pitch class 9
      as "A" (the page's own tables do: `Pitch.ConcertPitch`). */
  lemma InitialSequenceSounds(t: NoteTables, i: int)
    requires Consistent(t) && t.displayNotes[9] == "A"
    requires 0 <= i < NumBlocks
    ensures var s := InitialSequence()[i];
            GetFrequency(t, s.note, s.octave) == Pitched(69)
            && OctaveHz(Pitched(69)) == 440.0 && s.waveform in Waveforms && s.volume == 0.5
  {
    var s := InitialSequence()[i];
    assert s == DefaultStep(i);
    assert Sharpen("A") == "A";
    assert OctaveHz(Pitched(69)) == 440.0;
    assert "sawtooth" in Waveforms by {
      OctavesAndWaveforms();
    }
  }

  /** The fields one edit sets; `None` leaves that field as it is. */
  datatype Changes = Changes(note: Option<string>, octave: Option<int>, waveform: Option<string>, volume: Option<real>)

  /** An edit that names no field (`Object.keys(changes).length === 0`). */
  predicate NoChanges(c: Changes) {
    c.note.None? && c.octave.None? && c.waveform.None? && c.volume.None?
  }

  /** One step with the named fields of `c` written into it. */
  function Apply(s: Step, c: Changes): (r: Step)
    ensures r.id == s.id
    ensures NoChanges(c) ==> r == s
  {
    Step(s.id, c.note.GetOr(s.note), c.octave.GetOr(s.octave), c.waveform.GetOr(s.waveform), c.volume.GetOr(s.volume))
  }

  /** A field-wise statement of `Apply`: a named field takes the new value,
      an unnamed field keeps the old one. */
  lemma ApplyFields(s: Step, c: Changes)
    ensures c.note.Some? ==> Apply(s, c).note == c.note.value
    ensures c.note.None? ==> Apply(s, c).note == s.note
    ensures c.octave.Some? ==> Apply(s, c).octave == c.octave.value
    ensures c.octave.None? ==> Apply(s, c).octave == s.octave
    ensures c.waveform.Some? ==> Apply(s, c).waveform == c.waveform.value
    ensures c.waveform.None? ==> Apply(s, c).waveform == s.waveform
    ensures c.volume.Some? ==> Apply(s, c).volume == c.volume.value
    ensures c.volume.None? ==> Apply(s, c).volume == s.volume
  {
  }

  /** Writing the same changes twice is writing them once. */
  lemma ApplyIdempotent(s: Step, c: Changes)
    ensures Apply(Apply(s, c), c) == Apply(s, c)
  {
  }

  /** `applyBulkChanges`: every step gets the changes; no changes, no edit. */
  function BulkEdit(steps: seq<Step>, c: Changes): (r: seq<Step>)
    ensures |r| == |steps|
    ensures NoChanges(c) ==> r == steps
  {
    if NoChanges(c) then steps
    else seq(|steps|, i requires 0 <= i < |steps| => Apply(steps[i], c))
  }

  /** After a bulk edit every step holds the value the edit names for each
      named field, and keeps its id and every field the edit does not name. */
  lemma BulkEditUniform(steps: seq<Step>, c: Changes, i: int)
    requires 0 <= i < |steps|
    ensures var r := BulkEdit(steps, c);
            && r[i].id == steps[i].id
            && (c.note.Some? ==> r[i].note == c.note.value) && (c.note.None? ==> r[i].note == steps[i].note)
            && (c.octave.Some? ==> r[i].octave == c.octave.value) && (c.octave.None? ==> r[i].octave == steps[i].octave)
            && (c.waveform.Some? ==> r[i].waveform == c.waveform.value) && (c.waveform.None? ==> r[i].waveform == steps[i].waveform)
            && (c.volume.Some? ==> r[i].volume == c.volume.value) && (c.volume.None? ==> r[i].volume == steps[i].volume)
  {
  }

  /** Applying a bulk edit again changes nothing. */
  lemma BulkEditIdempotent(steps: seq<Step>, c: Changes)
    ensures BulkEdit(BulkEdit(steps, c), c) == BulkEdit(steps, c)
  {
    if !NoChanges(c) {
      var once := BulkEdit(steps, c);
      forall i | 0 <= i < |steps|
        ensures BulkEdit(once, c)[i] == once[i]
      {
        ApplyIdempotent(steps[i], c);
      }
    }
  }

  /** What the single-step editor has selected: a button per field (or
      none) and the volume slider's integer percentage. */
  datatype Selection = Selection(note: Option<string>, octave: Option<int>, waveform: Option<string>, volumePercent: int)

  /** The changes `saveSingleStepChanges` writes: the selected buttons, and
      the slider's volume always. */
  function SaveChanges(sel: Selection): (c: Changes)
    ensures c.volume == Some(sel.volumePercent as real / 100.0)
    ensures !NoChanges(c)
  {
    Changes(sel.note, sel.octave, sel.waveform, Some(sel.volumePercent as real / 100.0))
  }

  /** `saveSingleStepChanges` for the step being edited (`None` when no step
      is): that step alone takes the saved values. */
  function SaveStep(steps: seq<Step>, editing: Option<nat>, sel: Selection): (r: seq<Step>)
    requires editing.Some? ==> editing.value < |steps|
    ensures |r| == |steps|
    ensures editing.None? ==> r == steps
    ensures forall j :: 0 <= j < |steps| && editing != Some(j) ==> r[j] == steps[j]
  {
    if editing.None? then steps else steps[editing.value := Apply(steps[editing.value], SaveChanges(sel))]
  }

  /** The editor opens on a step with its own values selected and its volume
      on the slider; saving that unchanged selection leaves the sequence as
      it was whenever the volume is a whole percentage. */
  lemma SaveUnchangedIsNoOp(steps: seq<Step>, id: nat, percent: int)
    requires id < |steps| && percent as real / 100.0 == steps[id].volume
    ensures var s := steps[id];
            SaveStep(steps, Some(id), Selection(Some(s.note), Some(s.octave), Some(s.waveform), percent)) == steps
  {
  }

  /** Saving keeps the old value of a field with no selected button and
      takes the selected one otherwise. */
  lemma SaveStepFields(steps: seq<Step>, id: nat, sel: Selection)
    requires id < |steps|
    ensures var r := SaveStep(steps, Some(id), sel)[id];
            && r.id == steps[id].id
            && r.note == sel.note.GetOr(steps[id].note)
            && r.octave == sel.octave.GetOr(steps[id].octave)
            && r.waveform == sel.waveform.GetOr(steps[id].waveform)
            && r.volume == sel.volumePercent as real / 100.0
  {
  }

  /** A step given a drawn note: note and octave replaced, the rest kept. */
  function Reroll(s: Step, n: NoteChoice): (r: Step)
    ensures r.note == n.note && r.octave == n.octave
    ensures r.id == s.id && r.waveform == s.waveform && r.volume == s.volume
  {
    s.(note := n.note, octave := n.octave)
  }

  /** The fill loop of `executeRandomGeneration`: step i takes the i-th
      drawn note for every i below the number drawn; later steps stay. */
  function RandomFill(steps: seq<Step>, picks: seq<NoteChoice>): (r: seq<Step>)
    requires |picks| <= |steps|
    ensures |r| == |steps|
    ensures forall i :: 0 <= i < |picks| ==> r[i] == Reroll(steps[i], picks[i])
    ensures forall i :: |picks| <= i < |steps| ==> r[i] == steps[i]
  {
    seq(|steps|, i requires 0 <= i < |steps| => if i < |picks| then Reroll(steps[i], picks[i]) else steps[i])
  }

  /** None of the edits moves a step or changes its id. */
  lemma EditsKeepIds(steps: seq<Step>, c: Changes, editing: Option<nat>, sel: Selection, picks: seq<NoteChoice>)
    requires IdsMatch(steps)
    requires editing.Some? ==> editing.value < |steps|
    requires |picks| <= |steps|
    ensures IdsMatch(BulkEdit(steps, c))
    ensures IdsMatch(SaveStep(steps, editing, sel))
    ensures IdsMatch(RandomFill(steps, picks))
  {
  }
}
