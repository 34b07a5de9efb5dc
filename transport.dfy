/**
 * The transport of `script.js` as a state machine over `currentStep`,
 * `isPlaying` and `isLooping`: what one firing of `scheduleNextStep` does,
 * and what a run of firings plays.
 */
module Transport {
  import opened Wrappers

  datatype TransportState = TransportState(currentStep: int, isPlaying: bool, isLooping: bool)

  /** The state `stopAllSounds` leaves, whatever it found. */
  const Stopped: TransportState := TransportState(0, false, false)

  /** The state `handlePlay(loop)` starts from before its first tick. */
  function Started(loop: bool): TransportState {
    TransportState(0, true, loop)
  }

  /** The outcome of one tick: the new state, the step played (if any), and
      whether the run was stopped (`stopAllSounds` called). */
  datatype Tick = Tick(next: TransportState, played: Option<int>, stopped: bool)

  /** One call of `scheduleNextStep` with sequence length `max`: nothing when
      not playing; past the end, wrap to step 0 when looping and stop
      otherwise; then play the current step and advance. */
  function TickSpec(s: TransportState, max: int): (r: Tick)
    ensures !s.isPlaying ==> r == Tick(s, None, false)
    ensures r.stopped <==> s.isPlaying && s.currentStep >= max && !s.isLooping
    ensures r.stopped ==> r.next == Stopped && r.played.None?
    ensures r.played.Some? <==> s.isPlaying && !r.stopped
    ensures r.played.Some? ==> && 0 <= r.played.value < max
                               && r.next == s.(currentStep := r.played.value + 1)
                               && (s.currentStep < max ==> r.played.value == s.currentStep)
                               && (s.currentStep >= max ==> r.played.value == 0)
    requires max >= 1 && s.currentStep >= 0
  {
    if !s.isPlaying then Tick(s, None, false)
    else if s.currentStep >= max && !s.isLooping then Tick(Stopped, None, true)
    else
      var step := if s.currentStep >= max then 0 else s.currentStep;
      Tick(s.(currentStep := step + 1), Some(step), false)
  }

  /** What `n` consecutive ticks play, and the state they leave. A stopped
      transport arms no further timer, so ticks after a stop play nothing. */
  function Run(s: TransportState, max: int, n: nat): (r: (TransportState, seq<int>))
    requires max >= 1 && s.currentStep >= 0
    ensures r.0.currentStep >= 0
    ensures forall i :: 0 <= i < |r.1| ==> 0 <= r.1[i] < max
    decreases n
  {
    if n == 0 then (s, [])
    else
      var t := TickSpec(s, max);
      var rest := Run(t.next, max, n - 1);
      (rest.0, (if t.played.Some? then [t.played.value] else []) + rest.1)
  }

  lemma MulMono(m: int, a: int, b: int)
    requires m >= 1 && a <= b
    ensures m * a <= m * b
  {
    assert m * b - m * a == m * (b - a);
  }

  /** Division with remainder has one answer. */
  lemma ModUnique(x: int, m: int, q: int, r: int)
    requires m >= 1 && 0 <= r < m && x == m * q + r
    ensures x % m == r
  {
    var quotient := x / m;
    assert m * quotient + x % m == x;
    if quotient > q {
      MulMono(m, q + 1, quotient);
      assert false;
    } else if quotient < q {
      MulMono(m, quotient + 1, q);
      assert false;
    }
  }

  /** Adding the modulus does not change a remainder. */
  lemma ModShift(a: int, m: int)
    requires m >= 1 && a >= 0
    ensures (m + a) % m == a % m
  {
    assert m * (a / m) + a % m == a;
    assert m * (a / m + 1) + a % m == m + a;
    ModUnique(m + a, m, a / m + 1, a % m);
  }

  /** Playing `first` and then the run from `first + 1` is the run from k,
      when `first` is where k wraps to. */
  lemma LoopingCons(k: int, first: int, max: int, n: nat, rest: seq<int>)
    requires max >= 1 && 0 <= k <= max && n > 0
    requires first == (if k >= max then 0 else k)
    requires rest == seq(n - 1, i => (first + 1 + i) % max)
    ensures [first] + rest == seq(n, i => (k + i) % max)
  {
    var expected := seq(n, i => (k + i) % max);
    forall i | 0 <= i < n
      ensures ([first] + rest)[i] == expected[i]
    {
      if i == 0 {
        if k == max {
          ModUnique(k, max, 1, 0);
        } else {
          ModUnique(k, max, 0, k);
        }
      } else {
        assert ([first] + rest)[i] == rest[i - 1] == (first + i) % max;
        if k == max {
          ModShift(i, max);
        }
      }
    }
    assert |[first] + rest| == |expected|;
  }

  /** A looping run plays steps 0, 1, ..., max - 1, 0, 1, ... and never
      stops, from any step it has reached. */
  lemma {:induction false} LoopingRunFrom(k: int, max: int, n: nat)
    requires max >= 1 && 0 <= k <= max
    ensures Run(TransportState(k, true, true), max, n).1 == seq(n, i => (k + i) % max)
    ensures Run(TransportState(k, true, true), max, n).0.isPlaying
    decreases n
  {
    if n > 0 {
      var s := TransportState(k, true, true);
      var first := if k >= max then 0 else k;
      LoopingRunFrom(first + 1, max, n - 1);
      var rest := Run(TransportState(first + 1, true, true), max, n - 1).1;
      assert Run(s, max, n).1 == [first] + rest;
      LoopingCons(k, first, max, n, rest);
    }
  }

  /** `handlePlay(true)` plays n steps in order, wrapping at the sequence
      length: the i-th step played is i mod max. */
  lemma LoopingRun(max: int, n: nat)
    requires max >= 1
    ensures Run(Started(true), max, n).1 == seq(n, i => i % max)
    ensures Run(Started(true), max, n).0.isPlaying
  {
    LoopingRunFrom(0, max, n);
    assert seq(n, i => (0 + i) % max) == seq(n, i => i % max);
  }

  /** A run that does not loop, from step k, plays k, k+1, ... up to max - 1
      and then stops for good. */
  lemma {:induction false} OnceRunFrom(k: int, max: int, n: nat)
    requires max >= 1 && 0 <= k <= max
    ensures var r := Run(TransportState(k, true, false), max, n);
            && (n <= max - k ==> r.1 == seq(n, i => k + i) && r.0 == TransportState(k + n, true, false))
            && (n > max - k ==> r.1 == seq(max - k, i => k + i) && r.0 == Stopped)
    decreases n
  {
    var s := TransportState(k, true, false);
    if n > 0 {
      if k == max {
        StoppedStaysStopped(max, n - 1);
      } else {
        OnceRunFrom(k + 1, max, n - 1);
        var rest := Run(TransportState(k + 1, true, false), max, n - 1).1;
        assert Run(s, max, n).1 == [k] + rest;
        if n <= max - k {
          assert [k] + rest == seq(n, i => k + i);
        } else {
          assert [k] + rest == seq(max - k, i => k + i);
        }
      }
    }
  }

  /** Once stopped, further ticks change nothing and play nothing. */
  lemma {:induction false} StoppedStaysStopped(max: int, n: nat)
    requires max >= 1
    ensures Run(Stopped, max, n) == (Stopped, [])
    decreases n
  {
    if n > 0 {
      StoppedStaysStopped(max, n - 1);
      assert TickSpec(Stopped, max) == Tick(Stopped, None, false);
      assert Run(Stopped, max, n).1 == [] + Run(Stopped, max, n - 1).1;
    }
  }

  /** `handlePlay(false)` plays steps 0 .. max - 1, each once and in order,
      and the tick after the last one stops the transport. */
  lemma OnceRun(max: int, n: nat)
    requires max >= 1
    ensures n <= max ==> Run(Started(false), max, n).1 == seq(n, i => i)
    ensures n > max ==> Run(Started(false), max, n) == (Stopped, seq(max, i => i))
  {
    OnceRunFrom(0, max, n);
    assert seq(n, i => 0 + i) == seq(n, i => i);
    assert seq(max - 0, i => 0 + i) == seq(max, i => i);
  }
}
