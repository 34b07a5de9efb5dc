# oscbot step sequencer — a Dafny model

oscbot is a browser step sequencer. It has sixteen steps. Each step holds a
note name, an octave, a waveform and a volume. The page can play the steps
once or in a loop at a chosen tempo. It can edit one step or all steps at
once. It can also fill the first steps with notes drawn at random from a
chord. A second page script adds three effect slots with a per-effect
parameter schema.

This project models the state the page keeps and the handlers that change
it. It proves what those handlers promise.

- `tables.dfy` (module `Tables`): the note, octave, waveform, duration and
  chord tables, and the facts that make lookups in them total.
- `pitch.dfy` (module `Pitch`): `getFrequency`, and the chord expansion of
  random generation. The expansion is a specification function plus the
  nested loop that builds it.
- `steps.dfy` (module `Steps`): the step records and the step edits, as
  functions on the sequence of steps.
- `generation.dfy` (module `Generation`): random generation as a function.
  It covers the checks, the pool, the draw and the rewrite.
- `voices.dfy` (module `Voices`): when `playSound` starts a voice, and the
  envelope it schedules.
- `transport.dfy` (module `Transport`): the play/loop/stop state machine.
  It has one tick per timer firing and lemmas about whole runs.
- `tempo.dfy` (module `Tempo`): the two bpm clamps and the step length.
- `sequencer.dfy` (module `Sequencer`): class `Sequencer`. Its fields are the
  page's closure variables plus the bpm input's value. Its methods are the
  handlers, each proved against the functions above.
- `effects.dfy` (module `Effects`): the effect schema and the initial effect
  slots.

Modelling choices:

- A frequency is `Silent` or `Pitched(midi)`. `Silent` is the source's
  sentinel `0` for an unknown note. `Pitched(m)` stands for
  440 * 2^((m - 69) / 12) Hz, and the model reasons about MIDI numbers.
  Exact hertz values are computed only where they are rationals: for notes a
  whole number of octaves from A4, so A4 is 440 Hz and A5 is 880 Hz.
- JavaScript's `%` truncates toward zero, so it is written out (`JsRem`).
  `Math.floor(m / 12)` equals Dafny's `/` because the divisor is positive.
- Durations and times are exact `real`s.
- Clocks, timers and randomness are parameters. A method's `now` is
  `audioCtx.currentTime`. Its `timerId` is the id `setTimeout` returns.
  `randoms` are the values `Math.random` returns, in call order. A timer
  firing is an explicit call: `Tick` for `scheduleNextStep`, `RetireVoice`
  for the self-removal timer of `playSound`.
- The note tables enter the pitch functions as a parameter `t` that
  satisfies `Consistent(t)`. The page's own tables satisfy it
  (`Tables.NotesConsistent`). The class holds them in `const` fields that
  its constructor sets to the page's tables.
- The scheduler has no look-ahead window: each step re-arms one
  `setTimeout` (script.js:612). The model follows the code.

## Model

| member | source | states |
|---|---|---|
| Tables.NotesConsistent | public/js/constants.js:1-2 | the page's note tables satisfy `Consistent`: twelve sharp display names with offsets 0..11 in order, all offsets pitch classes, every name of the key list a key of the map |
| Tables.DisplayNotesAreSharpSpellings | script.js:5-6 | `displayNotes` has 12 entries without flat or '#', and `noteOffsets[displayNotes[i]] == i` |
| Tables.NoteOffsetsArePitchClasses | public/js/constants.js:1 | every offset is in 0..11, and the key list and the map hold the same names |
| Tables.FlatsMatchSharps | public/js/constants.js:1 | each flat spelling has the offset of its sharp partner (C♯/D♭ = 1, …, A♯/B♭ = 10) |
| Tables.OctavesAndWaveforms | public/js/constants.js:3-4 | the octaves are exactly 1..9, and the waveform keys are exactly sine, square, sawtooth and triangle |
| Tables.NoteDurationsAscend | public/js/constants.js:5 | note durations are positive and strictly increasing |
| Tables.ChordTypesWellFormed | public/js/constants.js:6 | every chord's intervals start at 0, rise strictly and stay below 12 |
| Pitch.Sharpen | script.js:503 | `replace('#', '♯')` keeps the length and every other character, turns the first '#' into '♯', and leaves every later '#' as it is |
| Pitch.GetFrequency | script.js:502-507 | the sentinel exactly when the sharpened name is not a key; otherwise the MIDI number decodes to octave + 1 and the name's offset |
| Pitch.OctaveHz | script.js:506 | the frequency in Hz of a note a whole number of octaves from A4 is positive |
| Pitch.ConcertPitch | script.js:502-507 | A4 is MIDI 69 and exactly 440 Hz; A5 is 880 Hz and A3 is 220 Hz |
| Pitch.OctaveUp | script.js:505 | raising the octave by one adds 12 to the MIDI number |
| Pitch.OctaveUpDoubles | script.js:506 | twelve MIDI notes up doubles the frequency |
| Pitch.SpellingsAgree | script.js:503-504 | "C#", "C♯" and "D♭" give the same pitch; an unknown name such as "H" gives the sentinel |
| Pitch.JsRem | script.js:452 | JavaScript `%`: Dafny's `%` for a non-negative dividend, otherwise a non-positive remainder above -y; in both cases x minus the result is a multiple of y |
| Pitch.Find | script.js:455-457 | `find` gives `None` exactly when no name matches; otherwise a listed name that matches |
| Pitch.FindIsFirst | script.js:455-457 | the name `find` gives is the first match: every earlier name fails |
| Pitch.CanonicalNameIsDisplayName | script.js:455-459 | for consistent tables the three-stage name search gives `displayNotes[i]` for pitch class i in 0..11, and nothing outside it |
| Pitch.BuildRow | script.js:450-464 | the inner `forEach` loop builds exactly the row the specification gives for one octave |
| Pitch.BuildPool | script.js:448-465 | the nested loop builds exactly the chord pool: octave by octave, then interval by interval |
| Pitch.PoolEntryReference | script.js:451-463 | an interval in an octave adds `displayNotes[(root + interval) % 12]` at octave `floor(midi / 12) - 1`, exactly when that octave is in 1..9 |
| Pitch.PoolEntrySounds | script.js:451-463 | each pool entry names a display note in octaves 1..9 whose `getFrequency` is the MIDI number it came from |
| Pitch.RowMembership | script.js:450-464 | a note is in an octave's row iff some interval produces it |
| Pitch.PoolMembership | script.js:448-465 | a note is in the pool iff some octave in range and some interval produce it |
| Pitch.ChordPoolMembership | script.js:448-465 | a note is in the pool iff it is `displayNotes[(root + interval) % 12]` at the derived octave, for some octave in range and interval, with that octave in 1..9 |
| Pitch.RowRises | script.js:450-464 | for rising intervals, an octave's row rises strictly in pitch and ends at or below its last interval |
| Pitch.PoolRisesBounded | script.js:448-465 | the pool rises strictly octave by octave and stays below the root of the octave after `octaveMax` |
| Pitch.RowLowerBound | script.js:450-464 | no entry of an octave's row lies below that octave's root |
| Pitch.ChordPoolRises | script.js:448-465 | for a well-formed chord the pool rises strictly in pitch: entries are octave-major, then in interval order, and none repeats |
| Pitch.ChordPoolPlayable | script.js:448-465 | every pool entry is a display note in octaves 1..9 with a real pitch |
| Steps.InitialSequence | script.js:189-201 | sixteen steps, step i has id i and holds A4, sawtooth, volume 0.5 |
| Steps.InitialSequenceSounds | script.js:193-199 | every initial step plays MIDI 69 (440 Hz) with a known waveform at half volume, under any consistent note tables that spell pitch class 9 as "A" |
| Steps.Apply | script.js:376-379 | writing changes keeps the step's id, and no changes keep the whole step |
| Steps.ApplyFields | script.js:376-379 | a named field takes the new value; an unnamed field keeps its old value |
| Steps.ApplyIdempotent | script.js:376-379 | writing the same changes twice is writing them once |
| Steps.BulkEdit | script.js:356-383 | bulk edit keeps the step count, and empty changes leave the steps as they are |
| Steps.BulkEditUniform | script.js:356-383 | after a bulk edit every step holds the edit's value in each named field, and keeps its id and every unnamed field |
| Steps.BulkEditIdempotent | script.js:356-383 | applying a bulk edit again changes nothing |
| Steps.SaveChanges | script.js:318-321 | a save always writes the slider's percentage / 100 as the volume |
| Steps.SaveStep | script.js:310-325 | no open step means no change; otherwise only the edited step changes |
| Steps.SaveStepFields | script.js:318-321 | the saved step keeps its id, takes each selected button, keeps each unselected field, and takes the slider volume |
| Steps.SaveUnchangedIsNoOp | script.js:295-325 | saving the selection the editor opened with leaves the steps unchanged, when the volume is a whole percentage |
| Steps.Reroll | script.js:474-476 | a drawn note replaces note and octave and keeps id, waveform and volume |
| Steps.RandomFill | script.js:471-478 | steps below the number drawn take the drawn notes, and later steps stay |
| Steps.EditsKeepIds | script.js:189-201 | none of bulk edit, single save or random fill moves a step or changes its id |
| Generation.Validate | script.js:421-469 | the checks pass iff every button group has a selection, min ≤ max, root and chord are known and the pool is non-empty; the pool is then the chord pool |
| Generation.RandomIndex | script.js:472 | `Math.floor(r * n)` is a valid index for r in [0, 1) |
| Generation.Draw | script.js:471-473 | one drawn note per random value, each from the pool |
| Generation.Generate | script.js:421-481 | a failed check changes neither steps nor length; otherwise steps below `stepsToGen` get pool notes with id, waveform and volume kept, later steps are untouched, and the length becomes `stepsToGen` |
| Generation.GeneratedNotesInChord | script.js:448-478 | every written note's pitch class is root plus a chord interval; its octave is in 1..9 and between `octaveMin` and `octaveMax + 1`, and it has a real pitch |
| Generation.PoolHoldsRoot | script.js:448-465 | for intervals starting at 0 the pool holds the root in the lowest octave, when that octave is in 1..9 |
| Generation.PoolNonEmptyInRange | script.js:467-469 | with the page's tables and octave buttons 1..9 the empty-pool alert cannot fire |
| Voices.Release | script.js:519 | `Math.min(0.04, 0.3 * duration)`: at most both, and equal to one of them |
| Voices.EnvelopeFor | script.js:518-529 | the attack peaks 0.01 s after the start; the sustain point exists iff duration - release > attack; the fade ends at start + duration and the oscillator stops 0.01 s later |
| Voices.EnvelopeOrdered | script.js:518-529 | for a positive duration the envelope points are in time order |
| Voices.SustainIffLongerThan | script.js:519-523 | the sustain point is scheduled exactly for notes longer than 1/70 s |
| Voices.SequencerVoicesSustain | script.js:519-523 | notes of at least 0.05 s and the 0.5 s test note always get a sustain segment |
| Voices.VoiceFor | script.js:509-536 | no voice iff volume is 0 or the note is unknown; otherwise one voice with the step's id, waveform and volume, at `getFrequency`'s pitch, with the scheduled envelope |
| Voices.RetireDelayMs | script.js:533-534 | the self-removal timer fires 0.2 s after the oscillator stops |
| Transport.TickSpec | script.js:588-614 | not playing: nothing; past the end: stop unless looping; otherwise the played index is below max, is the current step (or 0 after a wrap), and the next step is one after it |
| Transport.Run | script.js:588-614 | every index a run of ticks plays is below the sequence length |
| Transport.LoopingRunFrom | script.js:590-598 | a looping run from step k plays (k + i) mod max and keeps playing |
| Transport.LoopingRun | script.js:573-614 | `handlePlay(true)` plays 0, 1, …, max - 1, 0, 1, …: the i-th step is i mod max |
| Transport.OnceRunFrom | script.js:590-598 | a non-looping run from step k plays k .. max - 1 in order, then stops |
| Transport.StoppedStaysStopped | script.js:589 | once stopped, ticks change nothing and play nothing |
| Transport.OnceRun | script.js:573-614 | `handlePlay(false)` plays 0 .. max - 1 once each, in order, and the next tick stops the transport |
| Tempo.Clamp | script.js:240 | `Math.max(lo, Math.min(hi, v))` lies in [lo, hi] when lo ≤ hi, keeps an in-range value, and gives lo when lo > hi |
| Tempo.ClampIdempotent | script.js:240 | clamping twice is clamping once |
| Tempo.ClampMonotone | script.js:240 | clamping keeps the order of two values |
| Tempo.AdjustBpm | script.js:276-284 | the result lies within the input's [min, max]; it is (NaN→120) + step when that is in range, max when the sum exceeds max, and min when the sum is below min or max < min |
| Tempo.AdjustBpmDirection | script.js:276-284 | a positive step never lowers the tempo, and a negative step never raises it |
| Tempo.CommitBpm | script.js:237-241 | the change handler always leaves a value in [20, 300]: 120 for NaN, in-range values kept, the nearer bound otherwise |
| Tempo.CommitBpmIdempotent | script.js:237-241 | committing a committed value keeps it |
| Tempo.StepSeconds | script.js:601-603 | the step length times bpm is 60 times the beats, and is positive for positive beats |
| Tempo.FasterIsShorter | script.js:603 | a higher bpm gives strictly shorter steps |
| Tempo.DefaultQuarterStep | script.js:603 | at 120 bpm a one-beat step lasts 0.5 s |
| Tempo.StepSecondsBounds | script.js:603 | for bpm in [20, 300] and any selectable duration a step lasts between 0.05 s and 12 s |
| Effects.SchemasWellFormed | public/script.js:64-111 | every range default lies within [min, max] with a positive step; every buttons default is one of its options, and all options are positive |
| Effects.FeedbackBelowUnity | public/script.js:87 | the delay feedback maximum 0.9 is below 1 |
| Effects.DelayLineHoldsLongestTime | public/script.js:86-98 | the 5.0 s delay line exceeds the largest delay time, 2 s |
| Effects.NoEffectHasNoParams | public/script.js:65 | "none" has an empty parameter set |
| Effects.InitialSlotsShape | public/script.js:58-62 | three slots B, C, D in order, all inactive with no nodes, of types delay, reverb and none |
| Effects.InitialSlotsAllowed | public/script.js:58-111 | every schema parameter of every initial slot is present and holds a value its schema allows: a number within the slider's range, or one of the buttons' values |
| Effects.InitialSlotsMatchSchema | public/script.js:58-62 | each slot starts on its type's defaults; B also has `syncMode: 'bpm'`, C has nothing more, and D is empty |
| Sequencer.Without | script.js:533 | the filter keeps exactly the entries with another handle and never grows the registry |
| Sequencer.WithoutRising | script.js:533 | the filter keeps the registry in start order |
| Sequencer.WithoutAbsent | script.js:533 | filtering out an unregistered handle changes nothing |
| Sequencer.WithoutPresent | script.js:533 | with distinct handles, filtering out a registered handle removes exactly one entry |
| Sequencer.Sequencer.constructor | script.js:75-83 | initial state: sixteen default steps, stopped, empty registry, no timer, no open editor, length 16, one beat per step, and the bpm the page markup gives |
| Sequencer.Sequencer.CreatePlaybackBlocks | script.js:189-204 | the loop leaves exactly the sixteen default steps and changes nothing else |
| Sequencer.Sequencer.SetSequenceMax | script.js:169-177 | a length button sets the run length and nothing else |
| Sequencer.Sequencer.SetNoteDuration | script.js:179-186 | a duration button sets beats per step and nothing else |
| Sequencer.Sequencer.AdjustBpm | script.js:276-284 | the +/- buttons set bpm to `AdjustBpm` within [20, 300] and change nothing else |
| Sequencer.Sequencer.CommitBpm | script.js:237-241 | the change event sets bpm to `CommitBpm` of the typed value and changes nothing else |
| Sequencer.Sequencer.OpenEditModal | script.js:295-306 | the editor opens on the given step, nothing else changes |
| Sequencer.Sequencer.CloseEditModal | script.js:308 | no step is being edited afterwards, nothing else changes |
| Sequencer.Sequencer.SaveSingleStepChanges | script.js:310-325 | the steps become `SaveStep` of the open step and the selection, the editor is closed, and nothing else changes |
| Sequencer.Sequencer.PlayTest | script.js:327-341 | with an open editor, a 0.5 s voice of the edited step with the selection applied; otherwise nothing; a started voice is registered and counted; the steps are untouched |
| Sequencer.Sequencer.ApplyBulkChanges | script.js:356-383 | the loop leaves exactly `BulkEdit` of the old steps, nothing else changes |
| Sequencer.Sequencer.ExecuteRandomGeneration | script.js:421-484 | outcome, steps and length are exactly those of `Generate` on the page's tables; nothing else changes |
| Sequencer.Sequencer.PlaySound | script.js:509-536 | returns `VoiceFor`; the registry grows by that one voice or stays the same; a started voice's removal timer fires 0.2 s after its oscillator stops (`RetireDelayMs`) |
| Sequencer.Sequencer.RetireVoice | script.js:533-534 | the registry loses the voice with that handle and keeps its start order |
| Sequencer.Sequencer.StopAllSounds | script.js:555-571 | from any state: stopped, not looping, step 0, no timer, empty registry; returns the cleared timer and the faded voices |
| Sequencer.Sequencer.Tick | script.js:588-614 | the transport moves as `TickSpec`; a played index is below the length ≤ 16, its voice is `VoiceFor` the step at the step length, and the timer is re-armed after that many ms; the voice count grows by the voices started; a stop empties registry and timer and returns the old timer and the faded voices; not playing changes nothing |
| Sequencer.Sequencer.HandlePlay | script.js:573-586 | a running transport is stopped first: its timer and voices are returned as cleared and faded, and the registry is emptied; then the run restarts at step 0 with the given loop flag, the first tick plays step 0, the timer is armed for one step length in ms, and the registry ends as the kept voices plus step 0's voice, if any, which the voice count includes |

## Left out

- DOM building, modal handling, button highlighting and display text: these are UI. This includes chord display names and duration labels. The model keeps only the state each handler writes.
- Web Audio nodes (`createOscillator`, gain ramps, `connect`, `start`, `stop`, `cancelScheduledValues`): these are a foreign API. A voice is a registry record carrying the values its nodes are given.
- The `console.error` call of `getFrequency` for an unknown note (script.js:504): logging is not modelled; the sentinel it accompanies is.
- Frequencies in hertz for notes that are not a whole number of octaves from A: `Math.pow` gives irrational values there, so these stay symbolic as MIDI numbers.
- Floating-point rounding: durations, times and volumes are exact rationals. In the source they are doubles.
- `audioCtx.resume().then(...)`: the model treats a suspended context as already resumed. It does not model two `handlePlay` calls that both wait on one resume.
- Sequencer.Sequencer.constructor: the bpm input's initial value comes from the page markup, which is not part of this model. The constructor takes it as a parameter and requires it to lie in [20, 300].
- Tempo.AdjustBpm: the input's `min`/`max` attributes live in the page markup, which is not part of this model. The class passes 20 and 300, the bounds of the change handler.
- Sequencer.Sequencer.Tick: reads the bpm input as its handlers leave it, an integer in [20, 300]. A value typed but not yet committed by a `change` event is not modelled.
- Sequencer.Sequencer.StopAllSounds: returns the voices it fades, and `Tick` and `HandlePlay` pass them on. The 20 ms gain ramp itself, and its timing, are not modelled.
- The random reverb impulse and the `createNode` factories of the effect definitions: these are randomness and sound-graph plumbing.
- Effect chain wiring, parameter application, retyping and presets: these are not modelled. public/script.js breaks off mid-declaration at line 132, before any such code.
- The Firebase handles, `server.js`, `secrets-loader.js`, `functions/api/firebase-config.js` and `replit.js`: these are serving and configuration with no sequencer logic.
