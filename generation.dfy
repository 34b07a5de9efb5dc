/**
 * `executeRandomGeneration` of `script.js` as a function: the checks on the
 * dialog's selection, the chord pool, the draw with `Math.random`, and the
 * rewrite of the first steps.
 */
module Generation {
  import opened Wrappers
  import opened Tables
  import opened Pitch
  import opened Steps

  /** The dialog's selection: the active root, octave and step-count buttons
      (`None` when a group has no active button, each parsed with
      `parseInt`) and the chord select's value. */
  datatype Request = Request(rootNote: Option<string>, chordKey: string, octaveMin: Option<int>, octaveMax: Option<int>,
                             stepsToGen: Option<int>)

  /** How the checks end: one alert per failed check, in the order the source
      makes them, or a non-empty pool to draw from. */
  datatype Outcome = MissingSelection | OctaveRangeInverted | UnknownRoot | UnknownChord | EmptyPool
                   | Ready(pool: seq<NoteChoice>)

  /** The checks and the chord expansion, up to the draw. */
  function Validate(t: NoteTables, chords: map<string, seq<int>>, req: Request): (o: Outcome)
    ensures o.Ready? <==>
              && req.rootNote.Some? && req.octaveMin.Some? && req.octaveMax.Some? && req.stepsToGen.Some?
              && req.octaveMin.value <= req.octaveMax.value
              && req.rootNote.value in t.noteOffsets && req.chordKey in chords
              && ChordPool(t, t.noteOffsets[req.rootNote.value], chords[req.chordKey], req.octaveMin.value, req.octaveMax.value) != []
    ensures o.Ready? ==> o.pool == ChordPool(t, t.noteOffsets[req.rootNote.value], chords[req.chordKey],
                                             req.octaveMin.value, req.octaveMax.value)
  {
    if req.rootNote.None? || req.octaveMin.None? || req.octaveMax.None? || req.stepsToGen.None? then MissingSelection
    else if req.octaveMin.value > req.octaveMax.value then OctaveRangeInverted
    else if req.rootNote.value !in t.noteOffsets then UnknownRoot
    else if req.chordKey !in chords then UnknownChord
    else
      var pool := ChordPool(t, t.noteOffsets[req.rootNote.value], chords[req.chordKey], req.octaveMin.value, req.octaveMax.value);
      if pool == [] then EmptyPool else Ready(pool)
  }

  /** Values `Math.random` can return. */
  ghost predicate UnitInterval(randoms: seq<real>) {
    forall i :: 0 <= i < |randoms| ==> 0.0 <= randoms[i] < 1.0
  }

  /** `Math.floor(r * n)`: an index into a list of n entries. */
  function RandomIndex(r: real, n: int): (k: int)
    requires 0.0 <= r < 1.0 && n > 0
    ensures 0 <= k < n
  {
    assert r * n as real < n as real by {
      assert (1.0 - r) * n as real > 0.0;
    }
    (r * n as real).Floor
  }

  /** The notes drawn from the pool, one per random value. */
  function Draw(pool: seq<NoteChoice>, randoms: seq<real>): (picks: seq<NoteChoice>)
    requires pool != [] && UnitInterval(randoms)
    ensures |picks| == |randoms|
    ensures forall i :: 0 <= i < |picks| ==> picks[i] in pool
  {
    seq(|randoms|, i requires 0 <= i < |randoms| => pool[RandomIndex(randoms[i], |pool|)])
  }

  /** The state random generation leaves: the steps and `currentSequenceMax`. */
  datatype Generated = Generated(outcome: Outcome, steps: seq<Step>, sequenceMax: int)

  /** Random generation on steps `steps` with sequence length `sequenceMax`.
      `randoms` are the values `Math.random` returns, in call order. A failed
      check changes nothing; otherwise the first `stepsToGen` steps take
      drawn chord notes in place of their note and octave, and the sequence
      length becomes `stepsToGen`. */
  function Generate(t: NoteTables, chords: map<string, seq<int>>, req: Request, randoms: seq<real>,
                    steps: seq<Step>, sequenceMax: int): (r: Generated)
    requires UnitInterval(randoms)
    requires req.stepsToGen.Some? ==> 0 <= req.stepsToGen.value <= |steps| && req.stepsToGen.value <= |randoms|
    ensures r.outcome == Validate(t, chords, req)
    ensures !r.outcome.Ready? ==> r.steps == steps && r.sequenceMax == sequenceMax
    ensures r.outcome.Ready? ==>
              && r.sequenceMax == req.stepsToGen.value
              && |r.steps| == |steps|
              && (forall i :: 0 <= i < req.stepsToGen.value ==>
                    && NoteChoice(r.steps[i].note, r.steps[i].octave) in r.outcome.pool
                    && r.steps[i].id == steps[i].id
                    && r.steps[i].waveform == steps[i].waveform
                    && r.steps[i].volume == steps[i].volume)
              && (forall i :: req.stepsToGen.value <= i < |steps| ==> r.steps[i] == steps[i])
  {
    var o := Validate(t, chords, req);
    if !o.Ready? then Generated(o, steps, sequenceMax)
    else
      var n := req.stepsToGen.value;
      var picks := Draw(o.pool, randoms[..n]);
      Generated(o, RandomFill(steps, picks), n)
  }

  /** Every note random generation writes belongs to the chord: its pitch
      class is the root plus one of the chord's intervals, and its octave
      lies in 1..9 and between `octaveMin` and one above `octaveMax` (a chord
      tone above the octave's last B falls into the next octave). */
  lemma GeneratedNotesInChord(t: NoteTables, chords: map<string, seq<int>>, req: Request, randoms: seq<real>,
                              steps: seq<Step>, sequenceMax: int, i: int)
    requires Consistent(t)
    requires UnitInterval(randoms)
    requires req.stepsToGen.Some? ==> 0 <= req.stepsToGen.value <= |steps| && req.stepsToGen.value <= |randoms|
    requires Validate(t, chords, req).Ready?
    requires forall k :: 0 <= k < |chords[req.chordKey]| ==> 0 <= chords[req.chordKey][k] < 12
    requires 0 <= i < req.stepsToGen.value
    ensures var s := Generate(t, chords, req, randoms, steps, sequenceMax).steps[i];
            var root := t.noteOffsets[req.rootNote.value];
            var intervals := chords[req.chordKey];
            && s.note in t.noteOffsets
            && (exists k :: 0 <= k < |intervals| && t.noteOffsets[s.note] == (root + intervals[k]) % 12)
            && 1 <= s.octave <= 9
            && req.octaveMin.value <= s.octave <= req.octaveMax.value + 1
            && GetFrequency(t, s.note, s.octave).Pitched?
  {
    var r := Generate(t, chords, req, randoms, steps, sequenceMax);
    var s := r.steps[i];
    var root := t.noteOffsets[req.rootNote.value];
    var intervals := chords[req.chordKey];
    var e := NoteChoice(s.note, s.octave);
    ChordPoolMembership(t, root, intervals, req.octaveMin.value, req.octaveMax.value, e);
    ChordPoolPlayable(t, root, intervals, req.octaveMin.value, req.octaveMax.value);
    var oct, k :| req.octaveMin.value <= oct <= req.octaveMax.value && 0 <= k < |intervals|
                  && 1 <= ChordMidi(root, intervals[k], oct) / 12 - 1 <= 9
                  && e == NoteChoice(t.displayNotes[(root + intervals[k]) % 12], ChordMidi(root, intervals[k], oct) / 12 - 1);
    var pc := (root + intervals[k]) % 12;
    assert t.noteOffsets[s.note] == pc;
    assert 0 <= root + intervals[k] < 24;
    assert ChordMidi(root, intervals[k], oct) == (oct + 1) * 12 + (root + intervals[k]);
  }

  /** The pool of a chord whose intervals start at 0 holds the root itself
      in the lowest octave, whenever that octave is one of 1..9. */
  lemma PoolHoldsRoot(t: NoteTables, rootOffset: int, intervals: seq<int>, octaveMin: int, octaveMax: int)
    requires Consistent(t) && 0 <= rootOffset < 12
    requires |intervals| > 0 && intervals[0] == 0
    requires 1 <= octaveMin <= 9 && octaveMin <= octaveMax
    ensures NoteChoice(t.displayNotes[rootOffset], octaveMin) in ChordPool(t, rootOffset, intervals, octaveMin, octaveMax)
  {
    var e := NoteChoice(t.displayNotes[rootOffset], octaveMin);
    assert ChordMidi(rootOffset, intervals[0], octaveMin) == (octaveMin + 1) * 12 + rootOffset;
    ChordPoolMembership(t, rootOffset, intervals, octaveMin, octaveMax, e);
  }

  /** With the page's own tables, a root and chord from them and a lowest
      octave among the octave buttons (1..9), the pool is never empty: the
      empty-pool alert cannot fire from the dialog's own choices. */
  lemma PoolNonEmptyInRange(rootNote: string, chordKey: string, octaveMin: int, octaveMax: int)
    requires rootNote in NoteOffsets && chordKey in ChordTypes
    requires 1 <= octaveMin <= 9 && octaveMin <= octaveMax
    ensures ChordPool(Notes, NoteOffsets[rootNote], ChordTypes[chordKey], octaveMin, octaveMax) != []
  {
    NotesConsistent();
    ChordTypesWellFormed();
    NoteOffsetsArePitchClasses();
    PoolHoldsRoot(Notes, NoteOffsets[rootNote], ChordTypes[chordKey], octaveMin, octaveMax);
  }
}
