/**
 * The voices `playSound` of `script.js` starts: when it starts one at all,
 * and the gain envelope it schedules. The oscillator and gain nodes are
 * reduced to the times and values they are given.
 */
module Voices {
  import opened Wrappers
  import opened Tables
  import opened Pitch
  import opened Steps

  /** Seconds from the start to full volume. */
  const Attack: real := 0.01
  /** The longest fade-out at the end of a note. */
  const MaxRelease: real := 0.04
  /** The oscillator stops this long after the fade-out ends. */
  const StopPadding: real := 0.01
  /** Milliseconds the registry keeps a voice after it stops. */
  const RetireGraceMs: real := 200.0

  /** `Math.min(0.04, duration * 0.3)`. */
  function Release(duration: real): (r: real)
    ensures r <= MaxRelease && r <= duration * 0.3
    ensures r == MaxRelease || r == duration * 0.3
  {
    if MaxRelease <= duration * 0.3 then MaxRelease else duration * 0.3
  }

  /** The gain schedule of one voice: silent at `startTime`, full volume at
      `peakTime`, held until `sustainEnd` when that point is scheduled,
      silent again at `endTime`; the oscillator stops at `stopTime`. */
  datatype Envelope = Envelope(startTime: real, peakTime: real, sustainEnd: Option<real>, endTime: real, stopTime: real)

  /** The envelope `playSound(data, duration, startTime)` schedules. */
  function EnvelopeFor(startTime: real, duration: real): (e: Envelope)
    ensures e.startTime == startTime && e.peakTime == startTime + Attack
    ensures e.sustainEnd.Some? <==> duration - Release(duration) > Attack
    ensures e.sustainEnd.Some? ==> e.sustainEnd.value == startTime + duration - Release(duration)
    ensures e.endTime == startTime + duration && e.stopTime == e.endTime + StopPadding
  {
    var release := Release(duration);
    var sustain := if startTime + duration - release > startTime + Attack then Some(startTime + duration - release) else None;
    Envelope(startTime, startTime + Attack, sustain, startTime + duration, startTime + duration + StopPadding)
  }

  /** The envelope's points never run backwards: for a positive duration the
      fade-out ends after the start and before the oscillator stops, and a
      scheduled sustain point lies after the attack and before the end. */
  predicate Ordered(e: Envelope) {
    && e.startTime < e.endTime < e.stopTime
    && (e.sustainEnd.Some? ==> e.peakTime < e.sustainEnd.value < e.endTime)
  }

  lemma EnvelopeOrdered(startTime: real, duration: real)
    requires duration > 0.0
    ensures Ordered(EnvelopeFor(startTime, duration))
  {
  }

  /** The sustain point is scheduled exactly for notes longer than 1/70 s:
      below 2/15 s the release is 30% of the note, above it 40 ms. */
  lemma {:induction false} SustainIffLongerThan(startTime: real, duration: real)
    ensures EnvelopeFor(startTime, duration).sustainEnd.Some? <==> duration > 1.0 / 70.0
  {
    if MaxRelease <= duration * 0.3 {
      assert Release(duration) == MaxRelease;
      assert duration >= 0.04 / 0.3;
    } else {
      assert Release(duration) == duration * 0.3;
    }
  }

  /** One entry of `activeOscillators`: the voice's identity (the source
      compares entries by reference), the step it plays and what its nodes
      were set to. */
  datatype Voice = Voice(handle: nat, blockId: int, waveform: string, frequency: Frequency, volume: real, envelope: Envelope)

  /** What `playSound(data, duration, startTime)` starts, given the handle
      the new registry entry gets: nothing for a muted step or an unknown
      note, otherwise one voice at the step's frequency and volume. */
  function VoiceFor(t: NoteTables, data: Step, duration: real, startTime: real, handle: nat): (v: Option<Voice>)
    requires Consistent(t)
    ensures v.None? <==> data.volume == 0.0 || Sharpen(data.note) !in t.noteOffsets
    ensures v.Some? ==> && v.value.handle == handle && v.value.blockId == data.id
                        && v.value.frequency.Pitched? && v.value.frequency == GetFrequency(t, data.note, data.octave)
                        && v.value.volume == data.volume && v.value.waveform == data.waveform
                        && v.value.envelope == EnvelopeFor(startTime, duration)
  {
    if data.volume == 0.0 then None
    else
      var freq := GetFrequency(t, data.note, data.octave);
      if freq == Silent then None
      else Some(Voice(handle, data.id, data.waveform, freq, data.volume, EnvelopeFor(startTime, duration)))
  }

  /** The delay, in milliseconds from `now`, of the timer that removes a
      voice from the registry. */
  function RetireDelayMs(now: real, startTime: real, duration: real): (ms: real)
    ensures now + ms / 1000.0 == EnvelopeFor(startTime, duration).stopTime + RetireGraceMs / 1000.0
  {
    (startTime - now + duration + StopPadding) * 1000.0 + RetireGraceMs
  }

  /** Every step the sequencer plays at a tempo the bpm clamps allow has a
      sustain segment, as has the half-second test note of the step editor. */
  lemma SequencerVoicesSustain(startTime: real, duration: real)
    requires duration >= 0.05
    ensures EnvelopeFor(startTime, duration).sustainEnd.Some?
    ensures EnvelopeFor(startTime, 0.5).sustainEnd.Some?
  {
    SustainIffLongerThan(startTime, duration);
    SustainIffLongerThan(startTime, 0.5);
  }
}
