/**
 * The page state of `script.js` (the closure variables declared at
 * script.js:75-83 and the value of the bpm input) and the handlers that
 * change it, as a class whose methods change its fields in place.
 */
module Sequencer {
  import opened Wrappers
  import opened Tables
  import opened Pitch
  import opened Steps
  import opened Generation
  import opened Voices
  import opened Transport
  import Tempo

  /** An id `setTimeout` hands out; browsers never hand out 0, so every id
      is truthy and `stopAllSounds` clears whatever is stored. */
  type TimerId = x: int | x > 0 witness 1

  /** The registry without the entry `handle` names: the filter the
      self-removal timer of `playSound` runs. */
  function Without(voices: seq<Voice>, handle: nat): (r: seq<Voice>)
    ensures forall v :: v in r <==> v in voices && v.handle != handle
    ensures |r| <= |voices|
  {
    if voices == [] then []
    else if voices[0].handle == handle then Without(voices[1..], handle)
    else [voices[0]] + Without(voices[1..], handle)
  }

  /** Registry handles in the order the voices were started: each handle at
      most once. */
  ghost predicate Rising(voices: seq<Voice>) {
    forall i, j :: 0 <= i < j < |voices| ==> voices[i].handle < voices[j].handle
  }

  /** Rising handles, all below the next handle to be given out. */
  ghost predicate HandlesRising(voices: seq<Voice>, next: nat) {
    Rising(voices) && forall v :: v in voices ==> v.handle < next
  }

  /** The filter keeps the registry in start order. */
  lemma {:induction false} WithoutRising(voices: seq<Voice>, handle: nat)
    requires Rising(voices)
    ensures Rising(Without(voices, handle))
    decreases |voices|
  {
    if voices != [] {
      var tail := voices[1..];
      WithoutRising(tail, handle);
      var rest := Without(tail, handle);
      if voices[0].handle != handle {
        forall j | 0 <= j < |rest| ensures voices[0].handle < rest[j].handle {
          assert rest[j] in tail;
        }
        var r := [voices[0]] + rest;
        forall i, j | 0 <= i < j < |r| ensures r[i].handle < r[j].handle {
          assert r[j] == rest[j - 1];
          if i > 0 { assert r[i] == rest[i - 1]; }
        }
      }
    }
  }

  /** A handle that is not registered: the filter changes nothing. */
  lemma {:induction false} WithoutAbsent(voices: seq<Voice>, handle: nat)
    requires forall i :: 0 <= i < |voices| ==> voices[i].handle != handle
    ensures Without(voices, handle) == voices
    decreases |voices|
  {
    if voices != [] {
      var tail := voices[1..];
      assert forall i :: 0 <= i < |tail| ==> tail[i] == voices[i + 1];
      WithoutAbsent(tail, handle);
      assert voices == [voices[0]] + tail;
    }
  }

  /** In a registry of distinct handles, the filter drops exactly the one
      entry the handle names. */
  lemma {:induction false} WithoutPresent(voices: seq<Voice>, handle: nat, k: int)
    requires Rising(voices) && 0 <= k < |voices| && voices[k].handle == handle
    ensures |Without(voices, handle)| == |voices| - 1
    decreases |voices|
  {
    var tail := voices[1..];
    if k == 0 {
      forall i | 0 <= i < |tail| ensures tail[i].handle != handle {
        assert tail[i] == voices[i + 1];
      }
      WithoutAbsent(tail, handle);
    } else {
      assert tail[k - 1] == voices[k];
      WithoutPresent(tail, handle, k - 1);
    }
  }

  class Sequencer {
    /** The note tables the page reads (`Notes`). */
    const notes: NoteTables
    /** The chord table the page reads (`ChordTypes`). */
    const chords: map<string, seq<int>>

    /** The sixteen steps. */
    var sequenceData: seq<Step>
    /** The next step the transport plays. */
    var currentStep: int
    var isPlaying: bool
    var isLooping: bool
    /** The pending `scheduleNextStep` timer, if any. */
    var sequenceTimeoutId: Option<TimerId>
    /** The voices still registered as sounding. */
    var activeOscillators: seq<Voice>
    /** The step the single-step editor is open on. */
    var currentlyEditingStepId: Option<nat>
    /** How many steps a run plays. */
    var currentSequenceMax: int
    /** Beats per step. */
    var currentNoteDuration: real
    /** The bpm input's value, as its two handlers leave it. */
    var bpm: int
    /** Registry entries started so far: the next voice's identity. */
    var voicesCreated: nat

    ghost predicate Valid()
      reads this
    {
      && Consistent(notes)
      && |sequenceData| == NumBlocks && IdsMatch(sequenceData)
      && 0 <= currentStep <= NumBlocks
      && 1 <= currentSequenceMax <= NumBlocks
      && currentNoteDuration in NoteDurations
      && Tempo.MinBpm <= bpm <= Tempo.MaxBpm
      && (currentlyEditingStepId.Some? ==> currentlyEditingStepId.value < NumBlocks)
      && (!isPlaying ==> currentStep == 0 && !isLooping && sequenceTimeoutId.None?)
      && HandlesRising(activeOscillators, voicesCreated)
    }

    /** The transport part of the state. */
    function State(): TransportState
      reads this
    {
      TransportState(currentStep, isPlaying, isLooping)
    }

    /** The page as it loads: sixteen default steps, stopped, nothing
      sounding, sixteen steps per run of one beat each. The bpm input starts
      at `initialBpm`, the value the page markup gives it. */
    constructor (initialBpm: int)
      requires Tempo.MinBpm <= initialBpm <= Tempo.MaxBpm
      ensures Valid() && notes == Notes && chords == ChordTypes
      ensures sequenceData == InitialSequence()
      ensures State() == Stopped && sequenceTimeoutId.None? && activeOscillators == []
      ensures currentlyEditingStepId.None? && currentSequenceMax == NumBlocks
      ensures currentNoteDuration == 1.0 && bpm == initialBpm
    {
      notes := Notes;
      chords := ChordTypes;
      sequenceData := [];
      currentStep := 0;
      isPlaying := false;
      isLooping := false;
      sequenceTimeoutId := None;
      activeOscillators := [];
      currentlyEditingStepId := None;
      currentSequenceMax := NumBlocks;
      currentNoteDuration := 1.0;
      bpm := initialBpm;
      voicesCreated := 0;
      new;
      NotesConsistent();
      CreatePlaybackBlocks();
    }

    /** `createPlaybackBlocks`: a fresh list of sixteen default steps. */
    method CreatePlaybackBlocks()
      modifies this
      ensures sequenceData == InitialSequence()
      ensures State() == old(State()) && sequenceTimeoutId == old(sequenceTimeoutId)
      ensures activeOscillators == old(activeOscillators) && voicesCreated == old(voicesCreated)
      ensures currentlyEditingStepId == old(currentlyEditingStepId) && currentSequenceMax == old(currentSequenceMax)
      ensures currentNoteDuration == old(currentNoteDuration) && bpm == old(bpm)
    {
      var blocks := [];
      var i := 0;
      while i < NumBlocks
        invariant 0 <= i <= NumBlocks
        invariant blocks == InitialSequence()[..i]
      {
        blocks := blocks + [Step(i, "A", 4, "sawtooth", 0.5)];
        i := i + 1;
      }
      sequenceData := blocks;
    }

    /** A sequence-length button (values 1..16). */
    method SetSequenceMax(n: int)
      requires Valid() && 1 <= n <= NumBlocks
      modifies this
      ensures Valid() && currentSequenceMax == n
      ensures sequenceData == old(sequenceData) && State() == old(State()) && sequenceTimeoutId == old(sequenceTimeoutId)
      ensures activeOscillators == old(activeOscillators) && voicesCreated == old(voicesCreated)
      ensures currentlyEditingStepId == old(currentlyEditingStepId)
      ensures currentNoteDuration == old(currentNoteDuration) && bpm == old(bpm)
    {
      currentSequenceMax := n;
    }

    /** A note-duration button (values from the duration table). */
    method SetNoteDuration(d: real)
      requires Valid() && d in NoteDurations
      modifies this
      ensures Valid() && currentNoteDuration == d
      ensures sequenceData == old(sequenceData) && State() == old(State()) && sequenceTimeoutId == old(sequenceTimeoutId)
      ensures activeOscillators == old(activeOscillators) && voicesCreated == old(voicesCreated)
      ensures currentlyEditingStepId == old(currentlyEditingStepId)
      ensures currentSequenceMax == old(currentSequenceMax) && bpm == old(bpm)
    {
      currentNoteDuration := d;
    }

    /** A bpm +/- button: `adjustBpm(step)` with the input's bounds 20 and
      300. */
    method AdjustBpm(step: int)
      requires Valid()
      modifies this
      ensures Valid() && bpm == Tempo.AdjustBpm(Some(old(bpm)), step, Tempo.MinBpm, Tempo.MaxBpm)
      ensures sequenceData == old(sequenceData) && State() == old(State()) && sequenceTimeoutId == old(sequenceTimeoutId)
      ensures activeOscillators == old(activeOscillators) && voicesCreated == old(voicesCreated)
      ensures currentlyEditingStepId == old(currentlyEditingStepId)
      ensures currentSequenceMax == old(currentSequenceMax) && currentNoteDuration == old(currentNoteDuration)
    {
      bpm := Tempo.AdjustBpm(Some(bpm), step, Tempo.MinBpm, Tempo.MaxBpm);
    }

    /** The bpm input's `change` event on typed text that parses to `raw`
      (`None` when it does not). */
    method CommitBpm(raw: Option<int>)
      requires Valid()
      modifies this
      ensures Valid() && bpm == Tempo.CommitBpm(raw)
      ensures sequenceData == old(sequenceData) && State() == old(State()) && sequenceTimeoutId == old(sequenceTimeoutId)
      ensures activeOscillators == old(activeOscillators) && voicesCreated == old(voicesCreated)
      ensures currentlyEditingStepId == old(currentlyEditingStepId)
      ensures currentSequenceMax == old(currentSequenceMax) && currentNoteDuration == old(currentNoteDuration)
    {
      bpm := Tempo.CommitBpm(raw);
    }

    /** `openEditModal(id)`: the editor opens on step `id`. */
    method OpenEditModal(id: nat)
      requires Valid() && id < NumBlocks
      modifies this
      ensures Valid() && currentlyEditingStepId == Some(id)
      ensures sequenceData == old(sequenceData) && State() == old(State()) && sequenceTimeoutId == old(sequenceTimeoutId)
      ensures activeOscillators == old(activeOscillators) && voicesCreated == old(voicesCreated)
      ensures currentSequenceMax == old(currentSequenceMax) && currentNoteDuration == old(currentNoteDuration) && bpm == old(bpm)
    {
      currentlyEditingStepId := Some(id);
    }

    /** `closeEditModal`: no step is being edited. */
    method CloseEditModal()
      requires Valid()
      modifies this
      ensures Valid() && currentlyEditingStepId.None?
      ensures sequenceData == old(sequenceData) && State() == old(State()) && sequenceTimeoutId == old(sequenceTimeoutId)
      ensures activeOscillators == old(activeOscillators) && voicesCreated == old(voicesCreated)
      ensures currentSequenceMax == old(currentSequenceMax) && currentNoteDuration == old(currentNoteDuration) && bpm == old(bpm)
    {
      currentlyEditingStepId := None;
    }

    /** `saveSingleStepChanges`: with the editor open, the edited step takes
      the selection and the editor closes; with no step open, nothing
      happens. */
    method SaveSingleStepChanges(sel: Selection)
      requires Valid()
      modifies this
      ensures Valid() && currentlyEditingStepId.None?
      ensures sequenceData == SaveStep(old(sequenceData), old(currentlyEditingStepId), sel)
      ensures State() == old(State()) && sequenceTimeoutId == old(sequenceTimeoutId)
      ensures activeOscillators == old(activeOscillators) && voicesCreated == old(voicesCreated)
      ensures currentSequenceMax == old(currentSequenceMax) && currentNoteDuration == old(currentNoteDuration) && bpm == old(bpm)
    {
      if currentlyEditingStepId.None? {
        return;
      }
      var id := currentlyEditingStepId.value;
      var s := sequenceData[id];
      sequenceData := sequenceData[id := Step(s.id, sel.note.GetOr(s.note), sel.octave.GetOr(s.octave),
                                              sel.waveform.GetOr(s.waveform), sel.volumePercent as real / 100.0)];
      CloseEditModal();
    }

    /** `applyBulkChanges`: each field the dialog names is written into all
      sixteen steps, one step at a time; an empty dialog changes nothing. */
    method ApplyBulkChanges(c: Changes)
      requires Valid()
      modifies this
      ensures Valid() && sequenceData == BulkEdit(old(sequenceData), c)
      ensures State() == old(State()) && sequenceTimeoutId == old(sequenceTimeoutId)
      ensures activeOscillators == old(activeOscillators) && voicesCreated == old(voicesCreated)
      ensures currentlyEditingStepId == old(currentlyEditingStepId)
      ensures currentSequenceMax == old(currentSequenceMax) && currentNoteDuration == old(currentNoteDuration) && bpm == old(bpm)
    {
      if NoChanges(c) {
        return;
      }
      var data := sequenceData;
      var i := 0;
      while i < NumBlocks
        invariant 0 <= i <= NumBlocks && |data| == NumBlocks
        invariant forall k :: 0 <= k < i ==> data[k] == Apply(sequenceData[k], c)
        invariant forall k :: i <= k < NumBlocks ==> data[k] == sequenceData[k]
      {
        var s := data[i];
        if c.note.Some? { s := s.(note := c.note.value); }
        if c.octave.Some? { s := s.(octave := c.octave.value); }
        if c.waveform.Some? { s := s.(waveform := c.waveform.value); }
        if c.volume.Some? { s := s.(volume := c.volume.value); }
        data := data[i := s];
        i := i + 1;
      }
      assert data == BulkEdit(sequenceData, c);
      sequenceData := data;
    }

    /** `executeRandomGeneration`: the dialog's checks, the chord pool, and
      the note/octave rewrite of the first `stepsToGen` steps with notes
      drawn by `randoms` (the values `Math.random` returns, in order). */
    method ExecuteRandomGeneration(req: Request, randoms: seq<real>) returns (outcome: Outcome)
      requires Valid() && UnitInterval(randoms)
      requires req.stepsToGen.Some? ==> 1 <= req.stepsToGen.value <= NumBlocks && req.stepsToGen.value <= |randoms|
      modifies this
      ensures Valid()
      ensures var g := Generate(notes, chords, req, randoms, old(sequenceData), old(currentSequenceMax));
              outcome == g.outcome && sequenceData == g.steps && currentSequenceMax == g.sequenceMax
      ensures State() == old(State()) && sequenceTimeoutId == old(sequenceTimeoutId)
      ensures activeOscillators == old(activeOscillators) && voicesCreated == old(voicesCreated)
      ensures currentlyEditingStepId == old(currentlyEditingStepId)
      ensures currentNoteDuration == old(currentNoteDuration) && bpm == old(bpm)
    {
      if req.rootNote.None? || req.octaveMin.None? || req.octaveMax.None? || req.stepsToGen.None? {
        return MissingSelection;
      }
      var octaveMin := req.octaveMin.value;
      var octaveMax := req.octaveMax.value;
      var stepsToGen := req.stepsToGen.value;
      if octaveMin > octaveMax {
        return OctaveRangeInverted;
      }
      if req.rootNote.value !in notes.noteOffsets {
        return UnknownRoot;
      }
      var rootNoteOffset := notes.noteOffsets[req.rootNote.value];
      if req.chordKey !in chords {
        return UnknownChord;
      }
      var intervals := chords[req.chordKey];
      var pool := BuildPool(notes, rootNoteOffset, intervals, octaveMin, octaveMax);
      if |pool| == 0 {
        return EmptyPool;
      }
      ghost var picks := Draw(pool, randoms[..stepsToGen]);
      var data := sequenceData;
      var i := 0;
      while i < stepsToGen
        invariant 0 <= i <= stepsToGen && |data| == NumBlocks
        invariant forall k :: 0 <= k < i ==> data[k] == Reroll(sequenceData[k], picks[k])
        invariant forall k :: i <= k < NumBlocks ==> data[k] == sequenceData[k]
      {
        var randomIndex := RandomIndex(randoms[i], |pool|);
        var randomNoteData := pool[randomIndex];
        data := data[i := data[i].(note := randomNoteData.note, octave := randomNoteData.octave)];
        i := i + 1;
      }
      assert data == RandomFill(sequenceData, picks);
      sequenceData := data;
      currentSequenceMax := stepsToGen;
      return Ready(pool);
    }

    /** `playSound(data, duration, startTime)` at audio time `now`: a muted
      step or an unknown note starts nothing; anything else starts one voice,
      adds it to the registry, and arms the timer that removes it again
      `retireMs` milliseconds later. */
    method PlaySound(data: Step, duration: real, startTime: real, now: real) returns (active: Option<Voice>, retireMs: Option<real>)
      requires Valid()
      modifies this
      ensures Valid()
      ensures active == VoiceFor(notes, data, duration, startTime, old(voicesCreated))
      ensures active.None? ==> retireMs.None?
      ensures active.Some? ==> retireMs == Some(RetireDelayMs(now, startTime, duration))
      ensures active.None? ==> activeOscillators == old(activeOscillators) && voicesCreated == old(voicesCreated)
      ensures active.Some? ==> activeOscillators == old(activeOscillators) + [active.value] && voicesCreated == old(voicesCreated) + 1
      ensures sequenceData == old(sequenceData) && State() == old(State()) && sequenceTimeoutId == old(sequenceTimeoutId)
      ensures currentlyEditingStepId == old(currentlyEditingStepId)
      ensures currentSequenceMax == old(currentSequenceMax) && currentNoteDuration == old(currentNoteDuration) && bpm == old(bpm)
    {
      if data.volume == 0.0 {
        return None, None;
      }
      var freq := GetFrequency(notes, data.note, data.octave);
      if freq == Silent {
        return None, None;
      }
      var voice := Voice(voicesCreated, data.id, data.waveform, freq, data.volume, EnvelopeFor(startTime, duration));
      activeOscillators := activeOscillators + [voice];
      voicesCreated := voicesCreated + 1;
      return Some(voice), Some(RetireDelayMs(now, startTime, duration));
    }

    /** The self-removal timer of a voice: its entry leaves the registry. */
    method RetireVoice(handle: nat)
      requires Valid()
      modifies this
      ensures Valid() && activeOscillators == Without(old(activeOscillators), handle)
      ensures sequenceData == old(sequenceData) && State() == old(State()) && sequenceTimeoutId == old(sequenceTimeoutId)
      ensures voicesCreated == old(voicesCreated) && currentlyEditingStepId == old(currentlyEditingStepId)
      ensures currentSequenceMax == old(currentSequenceMax) && currentNoteDuration == old(currentNoteDuration) && bpm == old(bpm)
    {
      WithoutRising(activeOscillators, handle);
      activeOscillators := Without(activeOscillators, handle);
    }

    /** `playTestFromSingleEditModal`: with the editor open, a half-second
      test note of the edited step with the current selection, starting
      now; with no step open, nothing. The steps are left as they are. */
    method PlayTest(sel: Selection, now: real) returns (active: Option<Voice>)
      requires Valid()
      modifies this
      ensures Valid()
      ensures old(currentlyEditingStepId).None? ==> active.None? && activeOscillators == old(activeOscillators)
      ensures old(currentlyEditingStepId).Some? ==>
                var id := old(currentlyEditingStepId).value;
                active == VoiceFor(notes, Apply(old(sequenceData)[id], SaveChanges(sel)), 0.5, now, old(voicesCreated))
      ensures active.Some? ==> activeOscillators == old(activeOscillators) + [active.value] && voicesCreated == old(voicesCreated) + 1
      ensures active.None? ==> activeOscillators == old(activeOscillators) && voicesCreated == old(voicesCreated)
      ensures sequenceData == old(sequenceData) && State() == old(State()) && sequenceTimeoutId == old(sequenceTimeoutId)
      ensures currentlyEditingStepId == old(currentlyEditingStepId)
      ensures currentSequenceMax == old(currentSequenceMax) && currentNoteDuration == old(currentNoteDuration) && bpm == old(bpm)
    {
      if currentlyEditingStepId.None? {
        return None;
      }
      var id := currentlyEditingStepId.value;
      var s := sequenceData[id];
      var testData := Step(id, sel.note.GetOr(s.note), sel.octave.GetOr(s.octave), sel.waveform.GetOr(s.waveform),
                           sel.volumePercent as real / 100.0);
      var retireMs;
      active, retireMs := PlaySound(testData, 0.5, now, now);
    }

    /** `stopAllSounds`: whatever the state, the transport is stopped and
      rewound, the pending timer (returned) is cleared, and every registered
      voice (returned) is faded out and leaves the registry. */
    method StopAllSounds() returns (cleared: Option<TimerId>, faded: seq<Voice>)
      requires Valid()
      modifies this
      ensures Valid()
      ensures State() == Stopped && sequenceTimeoutId.None? && activeOscillators == []
      ensures cleared == old(sequenceTimeoutId) && faded == old(activeOscillators)
      ensures sequenceData == old(sequenceData) && voicesCreated == old(voicesCreated)
      ensures currentlyEditingStepId == old(currentlyEditingStepId)
      ensures currentSequenceMax == old(currentSequenceMax) && currentNoteDuration == old(currentNoteDuration) && bpm == old(bpm)
    {
      isPlaying := false;
      isLooping := false;
      cleared := sequenceTimeoutId;
      sequenceTimeoutId := None;
      faded := activeOscillators;
      activeOscillators := [];
      currentStep := 0;
    }

    /** One firing of `scheduleNextStep` at audio time `now`; `timerId` is
      the id the re-armed timer gets. The transport moves as `TickSpec`
      says; a step that plays is played for one step length from `now`,
      and the timer is re-armed to fire that many milliseconds later. */
    method Tick(now: real, timerId: TimerId) returns (played: Option<int>, delayMs: Option<real>,
                                                      cleared: Option<TimerId>, faded: seq<Voice>)
      requires Valid()
      modifies this
      ensures Valid()
      ensures var r := TickSpec(old(State()), old(currentSequenceMax));
              && State() == r.next && played == r.played
              && (r.stopped ==> activeOscillators == [] && sequenceTimeoutId.None? && delayMs.None?
                                && cleared == old(sequenceTimeoutId) && faded == old(activeOscillators))
              && (!r.stopped ==> cleared.None? && faded == [])
      ensures played.Some? ==>
                && played.value < currentSequenceMax <= NumBlocks
                && sequenceTimeoutId == Some(timerId)
                && delayMs == Some(Tempo.StepSeconds(bpm, currentNoteDuration) * 1000.0)
                && var v := VoiceFor(notes, sequenceData[played.value], Tempo.StepSeconds(bpm, currentNoteDuration), now, old(voicesCreated));
                   && activeOscillators == old(activeOscillators) + (if v.Some? then [v.value] else [])
                   && voicesCreated == old(voicesCreated) + (if v.Some? then 1 else 0)
      ensures played.None? ==> voicesCreated == old(voicesCreated)
      ensures !old(isPlaying) ==> played.None? && delayMs.None? && sequenceTimeoutId == old(sequenceTimeoutId)
                                  && activeOscillators == old(activeOscillators)
      ensures sequenceData == old(sequenceData) && currentlyEditingStepId == old(currentlyEditingStepId)
      ensures currentSequenceMax == old(currentSequenceMax) && currentNoteDuration == old(currentNoteDuration) && bpm == old(bpm)
    {
      if !isPlaying {
        return None, None, None, [];
      }
      if currentStep >= currentSequenceMax {
        if isLooping {
          currentStep := 0;
        } else {
          cleared, faded := StopAllSounds();
          return None, None, cleared, faded;
        }
      }
      cleared, faded := None, [];
      var data := sequenceData[currentStep];
      var stepDurSec := Tempo.StepSeconds(bpm, currentNoteDuration);
      var active, retireMs := PlaySound(data, stepDurSec, now, now);
      played := Some(currentStep);
      currentStep := currentStep + 1;
      sequenceTimeoutId := Some(timerId);
      delayMs := Some(stepDurSec * 1000.0);
    }

    /** `handlePlay(loop)` at audio time `now`: a running transport is
      stopped first (its timer, returned, is cleared and its voices,
      returned, fade out), then a run starts from step 0 and its first tick
      fires at once, playing step 0. */
    method HandlePlay(loop: bool, now: real, timerId: TimerId)
      returns (played: Option<int>, delayMs: Option<real>, cleared: Option<TimerId>, faded: seq<Voice>)
      requires Valid()
      modifies this
      ensures Valid()
      ensures var r := TickSpec(Started(loop), old(currentSequenceMax));
              State() == r.next && played == r.played
      ensures played == Some(0) && sequenceTimeoutId == Some(timerId)
      ensures delayMs == Some(Tempo.StepSeconds(old(bpm), old(currentNoteDuration)) * 1000.0)
      ensures old(isPlaying) ==> cleared == old(sequenceTimeoutId) && faded == old(activeOscillators)
      ensures !old(isPlaying) ==> cleared.None? && faded == []
      ensures var v := VoiceFor(notes, old(sequenceData)[0], Tempo.StepSeconds(old(bpm), old(currentNoteDuration)), now, old(voicesCreated));
              && activeOscillators == (if old(isPlaying) then [] else old(activeOscillators)) + (if v.Some? then [v.value] else [])
              && voicesCreated == old(voicesCreated) + (if v.Some? then 1 else 0)
      ensures sequenceData == old(sequenceData) && currentlyEditingStepId == old(currentlyEditingStepId)
      ensures currentSequenceMax == old(currentSequenceMax) && currentNoteDuration == old(currentNoteDuration) && bpm == old(bpm)
    {
      cleared, faded := None, [];
      if isPlaying {
        cleared, faded := StopAllSounds();
      }
      isPlaying := true;
      isLooping := loop;
      currentStep := 0;
      ghost var registry := activeOscillators;
      assert registry == if old(isPlaying) then [] else old(activeOscillators);
      assert voicesCreated == old(voicesCreated) && sequenceData == old(sequenceData);
      var tickCleared, tickFaded;
      played, delayMs, tickCleared, tickFaded := Tick(now, timerId);
      assert played == Some(0);
    }
  }
}
