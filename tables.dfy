/**
 * The lookup tables of the sequencer: note spellings and their pitch-class
 * offsets, the octave range, the oscillator waveforms, the selectable note
 * durations and the chord interval sets. Both `public/js/constants.js` and the
 * top of `script.js` declare the same literals; they are defined once here.
 */
module Tables {

  /** The sharp and flat signs used in note names (U+266F, U+266D). */
  const Sharp: char := '♯'
  const Flat: char := '♭'

  /** Number of steps in a sequence (`numBlocks`). */
  const NumBlocks: nat := 16

  /** The `noteOffsets` object: note name to pitch-class offset, sharps and
      flats both spelled. */
  const NoteOffsets: map<string, int> := map[
    "C" := 0, "C♯" := 1, "D♭" := 1, "D" := 2, "D♯" := 3, "E♭" := 3, "E" := 4,
    "F" := 5, "F♯" := 6, "G♭" := 6, "G" := 7, "G♯" := 8, "A♭" := 8, "A" := 9,
    "A♯" := 10, "B♭" := 10, "B" := 11]

  /** The keys of `noteOffsets` in the order its literal lists them, which is
      the order `Object.keys` enumerates them in. */
  const NoteOffsetKeys: seq<string> := [
    "C", "C♯", "D♭", "D", "D♯", "E♭", "E", "F", "F♯", "G♭", "G", "G♯", "A♭",
    "A", "A♯", "B♭", "B"]

  /** The twelve pitch classes as shown in the editors, sharps only. */
  const DisplayNotes: seq<string> := [
    "C", "C♯", "D", "D♯", "E", "F", "F♯", "G", "G♯", "A", "A♯", "B"]

  const Octaves: seq<int> := [1, 2, 3, 4, 5, 6, 7, 8, 9]

  /** Oscillator waveform keys and their on-screen labels. */
  const Waveforms: map<string, string> := map[
    "sine" := "正弦波", "square" := "矩形波", "sawtooth" := "ノコギリ波", "triangle" := "三角波"]

  /** Selectable note durations, in beats (sixteenth … whole note). */
  const NoteDurations: seq<real> := [0.25, 1.0 / 3.0, 0.5, 2.0 / 3.0, 1.0, 2.0, 4.0]

  /** Chord (and scale) interval sets, in semitones above the root. */
  const ChordTypes: map<string, seq<int>> := map[
    "major" := [0, 4, 7],
    "minor" := [0, 3, 7],
    "dominant7th" := [0, 4, 7, 10],
    "major7th" := [0, 4, 7, 11],
    "minor7th" := [0, 3, 7, 10],
    "diminished" := [0, 3, 6],
    "augmented" := [0, 4, 8],
    "sus4" := [0, 5, 7],
    "majorPentatonic" := [0, 2, 4, 7, 9],
    "minorPentatonic" := [0, 3, 5, 7, 10]]

  /** The three note tables the pitch functions read, bundled so that those
      functions can be stated over any tables with the properties below. */
  datatype NoteTables = NoteTables(noteOffsets: map<string, int>, noteOffsetKeys: seq<string>, displayNotes: seq<string>)

  const Notes: NoteTables := NoteTables(NoteOffsets, NoteOffsetKeys, DisplayNotes)

  /** What the pitch lookups rely on: the display names are the sharp
      spellings of pitch classes 0..11 in order, every offset is a pitch
      class, and the key list only lists keys. */
  ghost predicate Consistent(t: NoteTables) {
    && |t.displayNotes| == 12
    && (forall i :: 0 <= i < 12 ==> t.displayNotes[i] in t.noteOffsets && t.noteOffsets[t.displayNotes[i]] == i)
    && (forall i :: 0 <= i < 12 ==> Flat !in t.displayNotes[i] && '#' !in t.displayNotes[i])
    && (forall n :: n in t.noteOffsets ==> 0 <= t.noteOffsets[n] < 12)
    && (forall i :: 0 <= i < |t.noteOffsetKeys| ==> t.noteOffsetKeys[i] in t.noteOffsets)
  }

  lemma NotesConsistent()
    ensures Consistent(Notes)
  {
    DisplayNotesAreSharpSpellings();
    NoteOffsetsArePitchClasses();
  }

  /** An interval list the chord expansion can rely on: it starts at the root,
      rises strictly and stays inside one octave. */
  ghost predicate WellFormedIntervals(intervals: seq<int>) {
    && |intervals| > 0
    && intervals[0] == 0
    && (forall i, j :: 0 <= i < j < |intervals| ==> intervals[i] < intervals[j])
    && (forall i :: 0 <= i < |intervals| ==> 0 <= intervals[i] < 12)
  }

  /** The twelve display names are exactly the sharp spellings of pitch
      classes 0..11, in order. */
  lemma DisplayNotesAreSharpSpellings()
    ensures |DisplayNotes| == 12
    ensures forall i :: 0 <= i < 12 ==> Flat !in DisplayNotes[i] && '#' !in DisplayNotes[i]
    ensures forall i :: 0 <= i < 12 ==> DisplayNotes[i] in NoteOffsets && NoteOffsets[DisplayNotes[i]] == i
  {
  }

  /** Every offset is a pitch class, and the key list names every key once. */
  lemma NoteOffsetsArePitchClasses()
    ensures forall n :: n in NoteOffsets ==> 0 <= NoteOffsets[n] < 12
    ensures forall i :: 0 <= i < |NoteOffsetKeys| ==> NoteOffsetKeys[i] in NoteOffsets
    ensures forall n :: n in NoteOffsets ==> n in NoteOffsetKeys
  {
  }

  /** Each flat spelling has the offset of its sharp partner. */
  lemma FlatsMatchSharps()
    ensures NoteOffsets["C♯"] == NoteOffsets["D♭"] == 1
    ensures NoteOffsets["D♯"] == NoteOffsets["E♭"] == 3
    ensures NoteOffsets["F♯"] == NoteOffsets["G♭"] == 6
    ensures NoteOffsets["G♯"] == NoteOffsets["A♭"] == 8
    ensures NoteOffsets["A♯"] == NoteOffsets["B♭"] == 10
  {
  }

  lemma OctavesAndWaveforms()
    ensures forall o :: o in Octaves <==> 1 <= o <= 9
    ensures Waveforms.Keys == {"sine", "square", "sawtooth", "triangle"}
  {
  }

  lemma NoteDurationsAscend()
    ensures NoteDurations[0] > 0.0
    ensures forall i, j :: 0 <= i < j < |NoteDurations| ==> NoteDurations[i] < NoteDurations[j]
  {
  }

  lemma ChordTypesWellFormed()
    ensures forall k :: k in ChordTypes ==> WellFormedIntervals(ChordTypes[k])
  {
  }
}
