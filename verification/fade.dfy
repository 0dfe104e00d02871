/** The fade coroutines of a Sound (PlayRoutine, StopRoutine, PitchRoutine)
    as explicit timers. Each routine has the same shape:

      timer = 0
      while (timer < blendTime) { timer += dt; write(Lerp(from, to, timer / blendTime)); yield }
      <epilogue>

    Starting the coroutine runs it synchronously up to its first `yield`
    (Begin); every later frame resumes it once (Advance). A cancelled
    coroutine is a timer that is no longer running. */
module Fade {
  import opened Runtime

  /** Mathf.Clamp01. */
  function Clamp01(t: real): (r: real)
    ensures 0.0 <= r <= 1.0
    ensures 0.0 <= t <= 1.0 ==> r == t
    ensures 1.0 <= t ==> r == 1.0
    ensures t <= 0.0 ==> r == 0.0
  {
    if t < 0.0 then 0.0 else if t > 1.0 then 1.0 else t
  }

  /** x lies on the closed segment between a and b. */
  predicate Between(x: real, a: real, b: real)
  {
    (a <= x <= b) || (b <= x <= a)
  }

  /** Mathf.Lerp: the interpolation parameter is clamped to [0, 1], so the
      result never leaves the segment and is exactly b once t >= 1. */
  function Lerp(a: real, b: real, t: real): (r: real)
    ensures Between(r, a, b)
    ensures 1.0 <= t ==> r == b
    ensures t <= 0.0 ==> r == a
  {
    var c := Clamp01(t);
    var d := b - a;
    ScaledWithin(d, c);
    var k := d * c;
    assert c == 1.0 ==> k == d;
    assert c == 0.0 ==> k == 0.0;
    a + k
  }

  /** Scaling d by a factor in [0, 1] stays between 0 and d. */
  lemma ScaledWithin(d: real, c: real)
    requires 0.0 <= c <= 1.0
    ensures 0.0 <= d ==> 0.0 <= d * c <= d
    ensures d <= 0.0 ==> d <= d * c <= 0.0
  {
    var e := 1.0 - c;
    assert 0.0 <= e;
    assert d - d * c == d * e;
    if d >= 0.0 {
      assert d * c >= 0.0;
      assert d * e >= 0.0;
    } else {
      var m := -d;
      assert m * c >= 0.0;
      assert m * e >= 0.0;
      assert d * c == -(m * c);
      assert d * e == -(m * e);
    }
  }

  /** A ratio whose numerator reaches its positive denominator is at least 1. */
  lemma RatioAtLeastOne(e: real, d: real)
    requires 0.0 < d
    ensures d <= e ==> 1.0 <= e / d
  {
    assert e / d * d == e;
  }

  /** The locals of a suspended fade coroutine: it interpolates from `from`
      to `to` over `duration`; `elapsed` is its `timer`; `running` is false
      once it has finished or been stopped. */
  datatype Timer = Timer(from: real, to: real, duration: real, elapsed: real, running: bool)

  /** A running coroutine is inside its loop, which it only enters with a
      positive duration. */
  predicate Wf(t: Timer)
  {
    t.running ==> t.duration > 0.0
  }

  /** The value the loop body writes for the timer's current `elapsed`. */
  function Level(t: Timer): real
    requires t.duration > 0.0
  {
    Lerp(t.from, t.to, t.elapsed / t.duration)
  }

  /** What one resumption did: the timer afterwards, the value written (if
      the loop body ran) and whether the epilogue ran (the loop exited). */
  datatype Step = Step(timer: Timer, write: Option<real>, completed: bool)

  /** StartCoroutine: runs the routine up to its first `yield`, using the
      frame time `dt` of the frame that starts it. */
  function Begin(from: real, to: real, duration: real, dt: real): (s: Step)
    ensures Wf(s.timer)
    ensures s.timer.from == from && s.timer.to == to && s.timer.duration == duration
    ensures s.timer.running <==> 0.0 < duration
    ensures s.completed <==> duration <= 0.0
    ensures s.write.Some? <==> 0.0 < duration
    ensures s.write.Some? ==> Between(s.write.value, from, to) && s.write.value == Level(s.timer)
    ensures 0.0 < duration ==> s.timer.elapsed == dt
    ensures duration <= 0.0 ==> s.timer.elapsed == 0.0
    ensures 0.0 < duration <= dt ==> s.write == Some(to)
  {
    if 0.0 < duration then
      var t := Timer(from, to, duration, dt, true);
      RatioAtLeastOne(dt, duration);
      Step(t, Some(Level(t)), false)
    else
      Step(Timer(from, to, duration, 0.0, false), None, true)
  }

  /** What StartCoroutine returns for a routine it has run up to its first
      `yield`: null when the routine already ran to its end, otherwise a
      handle to the suspended routine. */
  function Handle(s: Step): (h: Option<Timer>)
    ensures h.None? <==> s.completed
    ensures h.Some? ==> h.value == s.timer
  {
    if s.completed then None else Some(s.timer)
  }

  /** A started fade leaves a handle exactly when its duration is positive,
      and that handle is a running timer. */
  lemma HandleOfBegin(from: real, to: real, duration: real, dt: real)
    ensures Handle(Begin(from, to, duration, dt)).Some? <==> 0.0 < duration
    ensures 0.0 < duration ==> Handle(Begin(from, to, duration, dt)) == Some(Timer(from, to, duration, dt, true))
  {
  }

  /** One frame's resumption of the coroutine. */
  function Advance(t: Timer, dt: real): (s: Step)
    requires Wf(t)
    ensures Wf(s.timer)
    ensures s.timer.from == t.from && s.timer.to == t.to && s.timer.duration == t.duration
    ensures !t.running ==> s == Step(t, None, false)
    ensures s.completed <==> t.running && t.duration <= t.elapsed
    ensures s.completed ==> !s.timer.running && s.write.None? && s.timer.elapsed == t.elapsed
    ensures t.running && !s.completed ==> s.timer.running && s.timer.elapsed == t.elapsed + dt
    ensures s.write.Some? ==> s.timer.running && Between(s.write.value, t.from, t.to) && s.write.value == Level(s.timer)
    ensures s.write.Some? && t.duration <= s.timer.elapsed ==> s.write.value == t.to
  {
    if !t.running then Step(t, None, false)
    else if t.elapsed < t.duration then
      var t' := t.(elapsed := t.elapsed + dt);
      RatioAtLeastOne(t'.elapsed, t.duration);
      Step(t', Some(Level(t')), false)
    else
      Step(t.(running := false), None, true)
  }

  /** StopCoroutine: the routine performs no further writes. */
  function Cancel(t: Timer): (c: Timer)
    ensures Wf(c) && !c.running
    ensures c.from == t.from && c.to == t.to && c.duration == t.duration && c.elapsed == t.elapsed
  {
    t.(running := false)
  }

  /** The timer after n frames at a constant frame time dt. */
  function Run(t: Timer, dt: real, n: nat): (r: Timer)
    requires Wf(t)
    ensures Wf(r)
    decreases n
  {
    if n == 0 then t else Run(Advance(t, dt).timer, dt, n - 1)
  }

  /** A finished or cancelled timer never runs again. */
  lemma {:induction false} RunStaysIdle(t: Timer, dt: real, n: nat)
    requires Wf(t) && !t.running
    ensures Run(t, dt, n) == t
    decreases n
  {
    if n > 0 {
      RunStaysIdle(Advance(t, dt).timer, dt, n - 1);
    }
  }

  /** Termination of a fade: a running timer whose elapsed time reaches its
      duration within n - 1 frames has finished after n frames, and its
      elapsed time is at least its duration, so its last write was the
      exact target. */
  lemma {:induction false} RunCompletes(t: Timer, dt: real, n: nat)
    requires Wf(t) && t.running
    requires n >= 1 && t.duration <= t.elapsed + (n - 1) as real * dt
    ensures !Run(t, dt, n).running
    ensures t.duration <= Run(t, dt, n).elapsed
    ensures Run(t, dt, n).from == t.from && Run(t, dt, n).to == t.to && Run(t, dt, n).duration == t.duration
    decreases n
  {
    var s := Advance(t, dt);
    if t.duration <= t.elapsed {
      RunStaysIdle(s.timer, dt, n - 1);
    } else {
      assert n >= 2 by {
        if n == 1 {
          assert false;
        }
      }
      assert s.timer.elapsed + ((n - 1) - 1) as real * dt == t.elapsed + (n - 1) as real * dt;
      RunCompletes(s.timer, dt, n - 1);
    }
  }
}
