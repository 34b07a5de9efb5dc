/**
 * Tempo handling of `script.js`: the two bpm clamps (the +/- buttons and
 * the input's `change` handler) and the length of one sequencer step.
 */
module Tempo {
  import opened Wrappers
  import opened Tables

  /** The value a bpm field falls back to when it does not parse. */
  const DefaultBpm: int := 120
  /** The bounds the `change` handler clamps to. */
  const MinBpm: int := 20
  const MaxBpm: int := 300

  /** `Math.max(lo, Math.min(hi, v))`. When `lo > hi` the outer `max` wins. */
  function Clamp(lo: int, hi: int, v: int): (r: int)
    ensures lo <= hi ==> lo <= r <= hi
    ensures lo <= v <= hi ==> r == v
    ensures v < lo || hi < lo ==> r == lo
    ensures lo <= hi < v ==> r == hi
  {
    if lo >= (if hi <= v then hi else v) then lo
    else if hi <= v then hi
    else v
  }

  /** Clamping twice changes nothing more. */
  lemma ClampIdempotent(lo: int, hi: int, v: int)
    ensures Clamp(lo, hi, Clamp(lo, hi, v)) == Clamp(lo, hi, v)
  {
  }

  /** Clamping never reverses the order of two values. */
  lemma ClampMonotone(lo: int, hi: int, v: int, w: int)
    requires v <= w
    ensures Clamp(lo, hi, v) <= Clamp(lo, hi, w)
  {
  }

  /** `adjustBpm(step)`: the parsed field (`None` for NaN, which falls back
      to 120) plus `step`, clamped to the input's `min`/`max` attributes. */
  function AdjustBpm(current: Option<int>, step: int, min: int, max: int): (r: int)
    ensures min <= max ==> min <= r <= max
    ensures min <= current.GetOr(DefaultBpm) + step <= max ==> r == current.GetOr(DefaultBpm) + step
    ensures min <= max && current.GetOr(DefaultBpm) + step > max ==> r == max
    ensures current.GetOr(DefaultBpm) + step < min || max < min ==> r == min
  {
    var base := if current.None? then DefaultBpm else current.value;
    Clamp(min, max, base + step)
  }

  /** A press of +step never lowers the tempo, and -step never raises it. */
  lemma AdjustBpmDirection(current: int, step: int, min: int, max: int)
    requires min <= current <= max
    ensures step >= 0 ==> AdjustBpm(Some(current), step, min, max) >= current
    ensures step <= 0 ==> AdjustBpm(Some(current), step, min, max) <= current
  {
  }

  /** The bpm input's `change` handler: parse, NaN to 120, clamp to
      [20, 300]. */
  function CommitBpm(raw: Option<int>): (r: int)
    ensures MinBpm <= r <= MaxBpm
    ensures raw.None? ==> r == DefaultBpm
    ensures raw.Some? && MinBpm <= raw.value <= MaxBpm ==> r == raw.value
    ensures raw.Some? && raw.value < MinBpm ==> r == MinBpm
    ensures raw.Some? && raw.value > MaxBpm ==> r == MaxBpm
  {
    Clamp(MinBpm, MaxBpm, if raw.None? then DefaultBpm else raw.value)
  }

  /** Committing a committed value leaves it as it is. */
  lemma CommitBpmIdempotent(raw: Option<int>)
    ensures CommitBpm(Some(CommitBpm(raw))) == CommitBpm(raw)
  {
  }

  /** `(60 / bpm) * currentNoteDuration`: seconds per step, for a step of
      `beats` beats. */
  function StepSeconds(bpm: int, beats: real): (s: real)
    requires bpm > 0
    ensures beats > 0.0 ==> s > 0.0
    ensures s * bpm as real == 60.0 * beats
  {
    (60.0 / bpm as real) * beats
  }

  /** A faster tempo gives strictly shorter steps of the same length in
      beats. */
  lemma {:induction false} FasterIsShorter(bpm1: int, bpm2: int, beats: real)
    requires 0 < bpm1 < bpm2 && beats > 0.0
    ensures StepSeconds(bpm2, beats) < StepSeconds(bpm1, beats)
  {
    var s1 := StepSeconds(bpm1, beats);
    var s2 := StepSeconds(bpm2, beats);
    assert s1 * bpm1 as real == s2 * bpm2 as real;
    assert s2 * bpm1 as real < s2 * bpm2 as real;
  }

  /** At 120 bpm, the tempo a bpm field falls back to, a one-beat step (the
      initial note duration) lasts half a second. */
  lemma DefaultQuarterStep()
    ensures StepSeconds(DefaultBpm, 1.0) == 0.5
  {
  }

  /** With any bpm the clamps allow and any selectable note duration, a step
      lasts between 1/20 s and 12 s. */
  lemma StepSecondsBounds(bpm: int, beats: real)
    requires MinBpm <= bpm <= MaxBpm && beats in NoteDurations
    ensures 0.05 <= StepSeconds(bpm, beats) <= 12.0
  {
    var s := StepSeconds(bpm, beats);
    assert 0.25 <= beats <= 4.0;
    assert s * bpm as real == 60.0 * beats;
    assert s > 0.0;
    assert s * 300.0 >= s * bpm as real >= 15.0;
    assert s * 20.0 <= s * bpm as real <= 240.0;
  }
}
