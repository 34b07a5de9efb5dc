/**
 * Pitch arithmetic of `script.js`: note name and octave to a frequency
 * (`getFrequency`), the canonical spelling of a pitch class, and the chord
 * pool that random generation draws from.
 */
module Pitch {
  import opened Wrappers
  import opened Tables

  /** A frequency as `getFrequency` returns it. `Silent` is the sentinel 0
      returned for an unknown note name; `Pitched(m)` is the equal-tempered
      frequency 440 * 2^((m - 69) / 12) Hz of MIDI note m. */
  datatype Frequency = Silent | Pitched(midi: int)

  /** `name.replace('#', '♯')`: only the first '#' becomes a sharp sign. */
  function Sharpen(name: string): (r: string)
    ensures |r| == |name|
    ensures '#' !in name ==> r == name
    ensures forall i :: 0 <= i < |name| && name[i] != '#' ==> r[i] == name[i]
    ensures forall i :: 0 <= i < |name| && name[i] == '#' ==> r[i] == if '#' in name[..i] then '#' else Sharp
  {
    if name == [] then []
    else if name[0] == '#' then [Sharp] + name[1..]
    else [name[0]] + Sharpen(name[1..])
  }

  /** `getFrequency(noteName, octave)` over note tables `t`: MIDI note
      (octave + 1) * 12 + offset, or the sentinel for a name that is not in
      the offset table. The MIDI number decodes back to the octave and the
      offset. */
  function GetFrequency(t: NoteTables, noteName: string, octave: int): (f: Frequency)
    requires Consistent(t)
    ensures f.Silent? <==> Sharpen(noteName) !in t.noteOffsets
    ensures f.Pitched? ==> f.midi / 12 == octave + 1 && f.midi % 12 == t.noteOffsets[Sharpen(noteName)]
  {
    var key := Sharpen(noteName);
    if key !in t.noteOffsets then Silent
    else Pitched((octave + 1) * 12 + t.noteOffsets[key])
  }

  /** 2 to an integer power, as an exact rational. */
  function Pow2(k: int): (r: real)
    ensures r > 0.0
    decreases if k < 0 then -k else k
  {
    if k == 0 then 1.0
    else if k > 0 then 2.0 * Pow2(k - 1)
    else Pow2(k + 1) / 2.0
  }

  /** The frequency in Hz of a pitch a whole number of octaves away from A4,
      where 440 * 2^((m - 69) / 12) is an exact rational. */
  function OctaveHz(f: Frequency): (hz: real)
    requires f.Pitched? && (f.midi - 69) % 12 == 0
    ensures hz > 0.0
  {
    440.0 * Pow2((f.midi - 69) / 12)
  }

  lemma Pow2Succ(k: int)
    ensures Pow2(k + 1) == 2.0 * Pow2(k)
  {
    if k < 0 {
      assert Pow2(k) == Pow2(k + 1) / 2.0;
    }
  }

  /** A4 is the 440 Hz reference and A5 is exactly one octave above it. */
  lemma ConcertPitch()
    ensures Consistent(Notes)
    ensures GetFrequency(Notes, "A", 4) == Pitched(69)
    ensures OctaveHz(GetFrequency(Notes, "A", 4)) == 440.0
    ensures OctaveHz(GetFrequency(Notes, "A", 5)) == 880.0
    ensures OctaveHz(GetFrequency(Notes, "A", 3)) == 220.0
  {
    NotesConsistent();
    assert Sharpen("A") == "A";
    assert Pow2(1) == 2.0 * Pow2(0);
    assert Pow2(-1) == Pow2(0) / 2.0;
  }

  /** One octave up is twelve MIDI notes up, and doubles the frequency. */
  lemma OctaveUp(t: NoteTables, noteName: string, octave: int)
    requires Consistent(t) && GetFrequency(t, noteName, octave).Pitched?
    ensures GetFrequency(t, noteName, octave + 1) == Pitched(GetFrequency(t, noteName, octave).midi + 12)
  {
  }

  lemma OctaveUpDoubles(m: int)
    requires (m - 69) % 12 == 0
    ensures OctaveHz(Pitched(m + 12)) == 2.0 * OctaveHz(Pitched(m))
  {
    assert (m + 12 - 69) / 12 == (m - 69) / 12 + 1;
    Pow2Succ((m - 69) / 12);
  }

  /** `replace` on the spellings `SpellingsAgree` compares. */
  lemma SharpenSamples()
    ensures Sharpen("C#") == "C♯" && Sharpen("C♯") == "C♯" && Sharpen("D♭") == "D♭" && Sharpen("H") == "H"
  {
    assert Sharpen("#") == [Sharp];
  }

  /** '#' typed in place of '♯' and a flat spelling both reach the same pitch. */
  lemma SpellingsAgree(octave: int)
    ensures Consistent(Notes)
    ensures GetFrequency(Notes, "C#", octave) == GetFrequency(Notes, "C♯", octave) == GetFrequency(Notes, "D♭", octave)
    ensures GetFrequency(Notes, "H", octave) == Silent
  {
    NotesConsistent();
    SharpenSamples();
    FlatsMatchSharps();
    assert "H" !in NoteOffsets;
  }

  // ---------------------------------------------------------------------------
  // Canonical note names

  /** A non-zero multiple of y is at least y away from zero. */
  lemma MultipleBounds(y: int, d: int)
    requires y > 0
    ensures d >= 1 ==> y * d >= y
    ensures d <= -1 ==> y * d <= -y
  {
    if d >= 1 {
      assert y * d == y + y * (d - 1);
    } else if d <= -1 {
      assert y * d == -y - y * (-d - 1);
    }
  }

  /** A multiple of y leaves no remainder. */
  lemma MultipleHasNoRemainder(y: int, k: int)
    requires y > 0
    ensures (y * k) % y == 0
  {
    var q, m := (y * k) / y, (y * k) % y;
    assert y * (k - q) == m by {
      assert y * k == y * q + m;
      assert y * (k - q) == y * k - y * q;
    }
    MultipleBounds(y, k - q);
    assert k - q == 0;
  }

  /** `x % y` of JavaScript, whose sign follows the dividend: it differs from
      x by a multiple of y and lies strictly between -y and y on the
      dividend's side of zero. */
  function JsRem(x: int, y: int): (r: int)
    requires y > 0
    ensures x >= 0 ==> r == x % y
    ensures x < 0 ==> -y < r <= 0
    ensures (x - r) % y == 0
  {
    var a := if x >= 0 then x else -x;
    var q := a / y;
    var m := a % y;
    var r := if x >= 0 then m else -m;
    assert x - r == y * (if x >= 0 then q else -q) by {
      assert a == y * q + m;
      assert y * -q == -(y * q);
    }
    MultipleHasNoRemainder(y, if x >= 0 then q else -q);
    r
  }

  /** `names.find(p)`: the first name satisfying `p`, if any. */
  function Find(names: seq<string>, p: string -> bool): (r: Option<string>)
    ensures r.None? <==> forall i :: 0 <= i < |names| ==> !p(names[i])
    ensures r.Some? ==> r.value in names && p(r.value)
  {
    if names == [] then None
    else if p(names[0]) then Some(names[0])
    else Find(names[1..], p)
  }

  /** What `find` returns is the first match: every earlier name fails `p`. */
  lemma {:induction false} FindIsFirst(names: seq<string>, p: string -> bool, i: int)
    requires 0 <= i < |names| && p(names[i])
    ensures Find(names, p).Some?
    ensures exists k :: 0 <= k <= i && names[k] == Find(names, p).value
                        && forall j :: 0 <= j < k ==> !p(names[j])
  {
    if !p(names[0]) {
      FindIsFirst(names[1..], p, i - 1);
      var k :| 0 <= k <= i - 1 && names[1..][k] == Find(names[1..], p).value
               && forall j :: 0 <= j < k ==> !p(names[1..][j]);
      assert names[k + 1] == names[1..][k];
      forall j | 0 <= j < k + 1 ensures !p(names[j]) {
        if j > 0 { assert names[j] == names[1..][j - 1]; }
      }
    } else {
      assert names[0] == Find(names, p).value;
    }
  }

  /** The note name the chord expansion gives pitch class `noteIndex`: the
      first display name with that offset and no flat sign, else the first
      offset-table key with that offset, else `displayNotes[noteIndex]`
      (undefined, here `None`, outside 0..11). */
  function CanonicalName(t: NoteTables, noteIndex: int): Option<string> {
    var nonFlat := Find(t.displayNotes, n => n in t.noteOffsets && t.noteOffsets[n] == noteIndex && Flat !in n);
    if nonFlat.Some? then nonFlat
    else
      var anyKey := Find(t.noteOffsetKeys, n => n in t.noteOffsets && t.noteOffsets[n] == noteIndex);
      if anyKey.Some? then anyKey
      else if 0 <= noteIndex < |t.displayNotes| then Some(t.displayNotes[noteIndex])
      else None
  }

  /** The search always lands on the display spelling: pitch class i is
      named `displayNotes[i]`, and nothing outside 0..11 has a name. */
  lemma CanonicalNameIsDisplayName(t: NoteTables, noteIndex: int)
    requires Consistent(t)
    ensures CanonicalName(t, noteIndex) == if 0 <= noteIndex < 12 then Some(t.displayNotes[noteIndex]) else None
  {
    var p := n => n in t.noteOffsets && t.noteOffsets[n] == noteIndex && Flat !in n;
    var r := Find(t.displayNotes, p);
    if 0 <= noteIndex < 12 {
      assert p(t.displayNotes[noteIndex]);
      FindIsFirst(t.displayNotes, p, noteIndex);
      var k :| 0 <= k <= noteIndex && t.displayNotes[k] == r.value
               && forall j :: 0 <= j < k ==> !p(t.displayNotes[j]);
      assert p(t.displayNotes[k]);
      assert k == noteIndex;
    } else {
      var q := n => n in t.noteOffsets && t.noteOffsets[n] == noteIndex;
      assert Find(t.noteOffsetKeys, q).None?;
    }
  }

  // ---------------------------------------------------------------------------
  // The chord pool of random generation

  /** A note/octave pair the random fill may write into a step. */
  datatype NoteChoice = NoteChoice(note: string, octave: int)

  /** The MIDI note of interval `interval` above the root in octave `oct`. */
  function ChordMidi(rootOffset: int, interval: int, oct: int): int {
    (oct + 1) * 12 + rootOffset + interval
  }

  /** What one (octave, interval) pair adds to the pool: its canonical name and
      derived octave, dropped when either is unusable. */
  function PoolEntry(t: NoteTables, rootOffset: int, interval: int, oct: int): Option<NoteChoice> {
    var midi := ChordMidi(rootOffset, interval, oct);
    var name := CanonicalName(t, JsRem(midi, 12));
    var actualOctave := midi / 12 - 1;
    if name.Some? && 1 <= actualOctave <= 9 then Some(NoteChoice(name.value, actualOctave)) else None
  }

  /** The `forEach` callback of the chord expansion, for a fixed root: what
      (interval, octave) adds to the pool. */
  function ChordEntry(t: NoteTables, rootOffset: int): (int, int) -> Option<NoteChoice> {
    (interval, oct) => PoolEntry(t, rootOffset, interval, oct)
  }

  function OptionToSeq(o: Option<NoteChoice>): seq<NoteChoice> {
    if o.Some? then [o.value] else []
  }

  /** The entries one octave contributes, in interval order. */
  function Row(entry: (int, int) -> Option<NoteChoice>, intervals: seq<int>, oct: int): seq<NoteChoice>
    decreases |intervals|
  {
    if intervals == [] then []
    else Row(entry, intervals[..|intervals| - 1], oct) + OptionToSeq(entry(intervals[|intervals| - 1], oct))
  }

  /** The entries of octaves `octaveMin` to `octaveMax`, octave by octave. */
  function Pool(entry: (int, int) -> Option<NoteChoice>, intervals: seq<int>, octaveMin: int, octaveMax: int): seq<NoteChoice>
    decreases octaveMax - octaveMin
  {
    if octaveMax < octaveMin then []
    else Pool(entry, intervals, octaveMin, octaveMax - 1) + Row(entry, intervals, octaveMax)
  }

  /** `availableNotesInChord` as the chord expansion leaves it. */
  function ChordPool(t: NoteTables, rootOffset: int, intervals: seq<int>, octaveMin: int, octaveMax: int): seq<NoteChoice> {
    Pool(ChordEntry(t, rootOffset), intervals, octaveMin, octaveMax)
  }

  /** One more interval extends an octave's row by that interval's entry. */
  lemma RowExtend(entry: (int, int) -> Option<NoteChoice>, intervals: seq<int>, j: int, oct: int)
    requires 0 <= j < |intervals|
    ensures Row(entry, intervals[..j + 1], oct) == Row(entry, intervals[..j], oct) + OptionToSeq(entry(intervals[j], oct))
  {
    assert intervals[..j + 1][..j] == intervals[..j];
  }

  /** The inner `forEach` of the chord expansion in `executeRandomGeneration`:
      the notes one octave contributes, interval by interval. */
  method BuildRow(t: NoteTables, rootOffset: int, intervals: seq<int>, oct: int) returns (row: seq<NoteChoice>)
    ensures row == Row(ChordEntry(t, rootOffset), intervals, oct)
  {
    row := [];
    var j := 0;
    while j < |intervals|
      invariant 0 <= j <= |intervals|
      invariant row == Row(ChordEntry(t, rootOffset), intervals[..j], oct)
    {
      var midiNoteNumber := (oct + 1) * 12 + rootOffset + intervals[j];
      var noteIndex := JsRem(midiNoteNumber, 12);
      var actualOctave := midiNoteNumber / 12 - 1;
      var canonicalNoteName := CanonicalName(t, noteIndex);
      RowExtend(ChordEntry(t, rootOffset), intervals, j, oct);
      assert midiNoteNumber == ChordMidi(rootOffset, intervals[j], oct);
      if canonicalNoteName.Some? && actualOctave >= 1 && actualOctave <= 9 {
        row := row + [NoteChoice(canonicalNoteName.value, actualOctave)];
      }
      j := j + 1;
    }
    assert intervals[..j] == intervals;
  }

  /** The outer `for` of the chord expansion in `executeRandomGeneration`,
      which fills `availableNotesInChord` octave by octave. */
  method BuildPool(t: NoteTables, rootOffset: int, intervals: seq<int>, octaveMin: int, octaveMax: int)
    returns (pool: seq<NoteChoice>)
    ensures pool == ChordPool(t, rootOffset, intervals, octaveMin, octaveMax)
  {
    pool := [];
    var oct := octaveMin;
    while oct <= octaveMax
      invariant octaveMin <= oct
      invariant oct <= octaveMax + 1 || oct == octaveMin
      invariant pool == Pool(ChordEntry(t, rootOffset), intervals, octaveMin, oct - 1)
    {
      var row := BuildRow(t, rootOffset, intervals, oct);
      pool := pool + row;
      oct := oct + 1;
    }
  }

  /** A pool entry, without the name search: the display name of the pitch
      class (root + interval) mod 12 and the octave of the MIDI note, present
      exactly when that octave is in 1..9. */
  lemma PoolEntryReference(t: NoteTables, rootOffset: int, interval: int, oct: int)
    requires Consistent(t)
    ensures var midi := ChordMidi(rootOffset, interval, oct);
            PoolEntry(t, rootOffset, interval, oct)
            == if 1 <= midi / 12 - 1 <= 9
               then Some(NoteChoice(t.displayNotes[(rootOffset + interval) % 12], midi / 12 - 1))
               else None
  {
    var midi := ChordMidi(rootOffset, interval, oct);
    CanonicalNameIsDisplayName(t, JsRem(midi, 12));
    if 1 <= midi / 12 - 1 {
      assert midi >= 0;
      assert midi % 12 == (rootOffset + interval) % 12 by {
        assert midi == (oct + 1) * 12 + (rootOffset + interval);
      }
    }
  }

  /** Every pool entry names a display note in octaves 1..9, and plays at the
      MIDI note it was derived from. */
  lemma PoolEntrySounds(t: NoteTables, rootOffset: int, interval: int, oct: int)
    requires Consistent(t) && PoolEntry(t, rootOffset, interval, oct).Some?
    ensures var e := PoolEntry(t, rootOffset, interval, oct).value;
            && 1 <= e.octave <= 9
            && e.note in t.displayNotes
            && GetFrequency(t, e.note, e.octave) == Pitched(ChordMidi(rootOffset, interval, oct))
  {
    PoolEntryReference(t, rootOffset, interval, oct);
    var midi := ChordMidi(rootOffset, interval, oct);
    var e := PoolEntry(t, rootOffset, interval, oct).value;
    var pc := (rootOffset + interval) % 12;
    assert midi % 12 == pc by {
      assert midi == (oct + 1) * 12 + (rootOffset + interval);
    }
    assert '#' !in t.displayNotes[pc];
    assert Sharpen(e.note) == e.note;
  }

  lemma {:induction false} RowMembership(entry: (int, int) -> Option<NoteChoice>, intervals: seq<int>, oct: int, e: NoteChoice)
    ensures e in Row(entry, intervals, oct)
            <==> exists k :: 0 <= k < |intervals| && entry(intervals[k], oct) == Some(e)
    decreases |intervals|
  {
    if intervals != [] {
      var n := |intervals| - 1;
      var init := intervals[..n];
      RowMembership(entry, init, oct, e);
      if e in Row(entry, init, oct) {
        var k :| 0 <= k < |init| && entry(init[k], oct) == Some(e);
        assert intervals[k] == init[k];
      }
      if exists k :: 0 <= k < |intervals| && entry(intervals[k], oct) == Some(e) {
        var k :| 0 <= k < |intervals| && entry(intervals[k], oct) == Some(e);
        if k < n { assert init[k] == intervals[k]; }
      }
    }
  }

  lemma {:induction false} PoolMembership(entry: (int, int) -> Option<NoteChoice>, intervals: seq<int>, octaveMin: int, octaveMax: int, e: NoteChoice)
    ensures e in Pool(entry, intervals, octaveMin, octaveMax)
            <==> exists oct, k :: octaveMin <= oct <= octaveMax && 0 <= k < |intervals|
                                  && entry(intervals[k], oct) == Some(e)
    decreases octaveMax - octaveMin
  {
    if octaveMin <= octaveMax {
      var lower := Pool(entry, intervals, octaveMin, octaveMax - 1);
      var row := Row(entry, intervals, octaveMax);
      PoolMembership(entry, intervals, octaveMin, octaveMax - 1, e);
      RowMembership(entry, intervals, octaveMax, e);
      assert Pool(entry, intervals, octaveMin, octaveMax) == lower + row;
      assert e in lower + row <==> e in lower || e in row;
      if exists oct, k :: octaveMin <= oct <= octaveMax && 0 <= k < |intervals| && entry(intervals[k], oct) == Some(e) {
        var oct, k :| octaveMin <= oct <= octaveMax && 0 <= k < |intervals| && entry(intervals[k], oct) == Some(e);
        if oct < octaveMax {
          assert e in lower;
        } else {
          assert e in row;
        }
      }
    }
  }

  /** The chord pool holds exactly the notes some octave in range and some
      chord interval produce: display names whose derived octave is in 1..9. */
  lemma ChordPoolMembership(t: NoteTables, rootOffset: int, intervals: seq<int>, octaveMin: int, octaveMax: int, e: NoteChoice)
    requires Consistent(t)
    ensures e in ChordPool(t, rootOffset, intervals, octaveMin, octaveMax)
            <==> exists oct, k :: octaveMin <= oct <= octaveMax && 0 <= k < |intervals|
                                  && 1 <= ChordMidi(rootOffset, intervals[k], oct) / 12 - 1 <= 9
                                  && e == NoteChoice(t.displayNotes[(rootOffset + intervals[k]) % 12],
                                                     ChordMidi(rootOffset, intervals[k], oct) / 12 - 1)
  {
    PoolMembership(ChordEntry(t, rootOffset), intervals, octaveMin, octaveMax, e);
    forall oct, k | 0 <= k < |intervals|
      ensures ChordEntry(t, rootOffset)(intervals[k], oct)
              == if 1 <= ChordMidi(rootOffset, intervals[k], oct) / 12 - 1 <= 9
                 then Some(NoteChoice(t.displayNotes[(rootOffset + intervals[k]) % 12],
                                      ChordMidi(rootOffset, intervals[k], oct) / 12 - 1))
                 else None
    {
      PoolEntryReference(t, rootOffset, intervals[k], oct);
    }
  }

  // Ordering: the pool rises strictly in pitch.

  /** The MIDI note a choice sounds at (0 for a name outside the table). */
  function MidiOf(t: NoteTables, e: NoteChoice): int
    requires Consistent(t)
  {
    var f := GetFrequency(t, e.note, e.octave);
    if f.Pitched? then f.midi else 0
  }

  ghost predicate StrictlyRising(t: NoteTables, s: seq<NoteChoice>)
    requires Consistent(t)
  {
    forall i, j :: 0 <= i < j < |s| ==> MidiOf(t, s[i]) < MidiOf(t, s[j])
  }

  ghost predicate IntervalsWithinOctave(intervals: seq<int>) {
    && (forall i, j :: 0 <= i < j < |intervals| ==> intervals[i] < intervals[j])
    && (forall i :: 0 <= i < |intervals| ==> 0 <= intervals[i] < 12)
  }

  /** Every entry `entry` produces sounds at the MIDI note it was derived from. */
  ghost predicate SoundsAtChordMidi(t: NoteTables, entry: (int, int) -> Option<NoteChoice>, rootOffset: int)
    requires Consistent(t)
  {
    forall interval, oct :: entry(interval, oct).Some? ==>
      MidiOf(t, entry(interval, oct).value) == ChordMidi(rootOffset, interval, oct)
  }

  lemma RisingConcat(t: NoteTables, a: seq<NoteChoice>, b: seq<NoteChoice>)
    requires Consistent(t)
    requires StrictlyRising(t, a) && StrictlyRising(t, b)
    requires forall i, j :: 0 <= i < |a| && 0 <= j < |b| ==> MidiOf(t, a[i]) < MidiOf(t, b[j])
    ensures StrictlyRising(t, a + b)
  {
    forall i, j | 0 <= i < j < |a + b| ensures MidiOf(t, (a + b)[i]) < MidiOf(t, (a + b)[j]) {
      if j < |a| {
      } else if i >= |a| {
        assert (a + b)[i] == b[i - |a|] && (a + b)[j] == b[j - |a|];
      } else {
        assert (a + b)[j] == b[j - |a|];
      }
    }
  }

  /** One octave's entries rise in interval order, between the root of that
      octave and its last interval. */
  lemma {:induction false} RowRises(t: NoteTables, entry: (int, int) -> Option<NoteChoice>, rootOffset: int, intervals: seq<int>, oct: int)
    requires Consistent(t) && IntervalsWithinOctave(intervals)
    requires SoundsAtChordMidi(t, entry, rootOffset)
    ensures StrictlyRising(t, Row(entry, intervals, oct))
    ensures intervals != [] ==> forall x :: 0 <= x < |Row(entry, intervals, oct)| ==>
              MidiOf(t, Row(entry, intervals, oct)[x]) <= ChordMidi(rootOffset, intervals[|intervals| - 1], oct)
    decreases |intervals|
  {
    if intervals != [] {
      var n := |intervals| - 1;
      var init := intervals[..n];
      assert IntervalsWithinOctave(init);
      RowRises(t, entry, rootOffset, init, oct);
      var head := Row(entry, init, oct);
      var tail := OptionToSeq(entry(intervals[n], oct));
      if init != [] {
        assert init[|init| - 1] < intervals[n];
      } else {
        assert head == [];
      }
      if tail != [] {
        RisingConcat(t, head, tail);
      } else {
        assert head + tail == head;
      }
    }
  }

  /** The pool rises octave by octave and stays below the octave after
      `octaveMax`. */
  lemma {:induction false} PoolRisesBounded(t: NoteTables, entry: (int, int) -> Option<NoteChoice>, rootOffset: int, intervals: seq<int>,
                                            octaveMin: int, octaveMax: int)
    requires Consistent(t) && IntervalsWithinOctave(intervals)
    requires SoundsAtChordMidi(t, entry, rootOffset)
    ensures StrictlyRising(t, Pool(entry, intervals, octaveMin, octaveMax))
    ensures forall x :: 0 <= x < |Pool(entry, intervals, octaveMin, octaveMax)| ==>
              MidiOf(t, Pool(entry, intervals, octaveMin, octaveMax)[x]) < ChordMidi(rootOffset, 0, octaveMax + 1)
    decreases octaveMax - octaveMin
  {
    if octaveMin <= octaveMax {
      PoolRisesBounded(t, entry, rootOffset, intervals, octaveMin, octaveMax - 1);
      RowRises(t, entry, rootOffset, intervals, octaveMax);
      var lower := Pool(entry, intervals, octaveMin, octaveMax - 1);
      var row := Row(entry, intervals, octaveMax);
      if intervals == [] {
        assert row == [];
        assert lower + row == lower;
      } else {
        assert intervals[|intervals| - 1] < 12;
        RowLowerBound(t, entry, rootOffset, intervals, octaveMax);
        RisingConcat(t, lower, row);
        forall x | 0 <= x < |lower + row|
          ensures MidiOf(t, (lower + row)[x]) < ChordMidi(rootOffset, 0, octaveMax + 1)
        {
          if x >= |lower| { assert (lower + row)[x] == row[x - |lower|]; }
        }
      }
    }
  }

  /** No entry of an octave lies below that octave's root. */
  lemma RowLowerBound(t: NoteTables, entry: (int, int) -> Option<NoteChoice>, rootOffset: int, intervals: seq<int>, oct: int)
    requires Consistent(t) && IntervalsWithinOctave(intervals)
    requires SoundsAtChordMidi(t, entry, rootOffset)
    ensures forall x :: 0 <= x < |Row(entry, intervals, oct)| ==>
              ChordMidi(rootOffset, 0, oct) <= MidiOf(t, Row(entry, intervals, oct)[x])
  {
    forall x | 0 <= x < |Row(entry, intervals, oct)|
      ensures ChordMidi(rootOffset, 0, oct) <= MidiOf(t, Row(entry, intervals, oct)[x])
    {
      var e := Row(entry, intervals, oct)[x];
      RowMembership(entry, intervals, oct, e);
      var k :| 0 <= k < |intervals| && entry(intervals[k], oct) == Some(e);
    }
  }

  /** The chord expansion's entries sound at their derived MIDI notes. */
  lemma ChordEntrySounds(t: NoteTables, rootOffset: int)
    requires Consistent(t)
    ensures SoundsAtChordMidi(t, ChordEntry(t, rootOffset), rootOffset)
  {
    forall interval, oct | ChordEntry(t, rootOffset)(interval, oct).Some?
      ensures MidiOf(t, ChordEntry(t, rootOffset)(interval, oct).value) == ChordMidi(rootOffset, interval, oct)
    {
      PoolEntrySounds(t, rootOffset, interval, oct);
    }
  }

  /** Entries appear octave by octave and, within an octave, in interval
      order: for a well-formed chord the pool rises strictly in pitch, so no
      note appears twice. */
  lemma ChordPoolRises(t: NoteTables, rootOffset: int, intervals: seq<int>, octaveMin: int, octaveMax: int)
    requires Consistent(t) && WellFormedIntervals(intervals)
    ensures StrictlyRising(t, ChordPool(t, rootOffset, intervals, octaveMin, octaveMax))
  {
    ChordEntrySounds(t, rootOffset);
    PoolRisesBounded(t, ChordEntry(t, rootOffset), rootOffset, intervals, octaveMin, octaveMax);
  }

  /** Every pool entry is a display note in octaves 1..9 that sounds. */
  lemma ChordPoolPlayable(t: NoteTables, rootOffset: int, intervals: seq<int>, octaveMin: int, octaveMax: int)
    requires Consistent(t)
    ensures forall e :: e in ChordPool(t, rootOffset, intervals, octaveMin, octaveMax) ==>
              1 <= e.octave <= 9 && e.note in t.displayNotes && GetFrequency(t, e.note, e.octave).Pitched?
  {
    forall e | e in ChordPool(t, rootOffset, intervals, octaveMin, octaveMax)
      ensures 1 <= e.octave <= 9 && e.note in t.displayNotes && GetFrequency(t, e.note, e.octave).Pitched?
    {
      PoolMembership(ChordEntry(t, rootOffset), intervals, octaveMin, octaveMax, e);
      var oct, k :| octaveMin <= oct <= octaveMax && 0 <= k < |intervals|
                    && ChordEntry(t, rootOffset)(intervals[k], oct) == Some(e);
      PoolEntrySounds(t, rootOffset, intervals[k], oct);
    }
  }
}
