/** One Sound: a named logical sound with one voice per clip variant, the
    variant currently selected, the play-fade coroutine handle, one
    stop-fade handle per variant and the pitch-fade handle. A handle is an
    `Option<Fade.Timer>`: `None` is a null `Coroutine` field, `Some(t)` a
    stored handle whose coroutine may since have finished or been stopped
    (`!t.running`). A routine that ends before its first `yield` leaves a
    null handle (Fade.Handle). */
module Sound {
  import opened Runtime
  import Fade

  /** The state of one AudioSource that the Sound drives. */
  datatype Voice = Voice(volume: real, pitch: real, playing: bool)

  /** The serialized fields of a Sound that its behaviour depends on. */
  datatype Config = Config(name: string, clipCount: nat, volume: real, pitch: real, defaultBlendTime: real)

  datatype Slot = Slot(
    config: Config,
    voices: seq<Voice>,
    current: int,
    playFade: Option<Fade.Timer>,
    stopFades: seq<Option<Fade.Timer>>,
    pitchFade: Option<Fade.Timer>)

  /** Number of clip variants. */
  function Count(s: Slot): nat
  {
    s.config.clipCount
  }

  /** A handle that is either absent or a well-formed timer. */
  predicate WfHandle(h: Option<Fade.Timer>)
  {
    h.Some? ==> Fade.Wf(h.value)
  }

  /** The array shapes set up by Initialize, and well-formed timers. */
  predicate Shaped(s: Slot)
  {
    && |s.voices| == Count(s)
    && |s.stopFades| == Count(s)
    && 0 <= s.current
    && (Count(s) > 0 ==> s.current < Count(s))
    && (s.playFade.Some? ==> Count(s) > 0)
    && WfHandle(s.playFade)
    && WfHandle(s.pitchFade)
    && (forall i :: 0 <= i < |s.stopFades| ==> WfHandle(s.stopFades[i]))
  }

  /** `SoundPlaying`: the play handle is set (it is never cleared when the
      fade-in completes, only by Stop). */
  predicate Playing(s: Slot)
  {
    s.playFade.Some?
  }

  /** Sound.Initialize: every voice silent, at the configured pitch, with no
      coroutine handles. */
  function Initialize(c: Config): (s: Slot)
    ensures Shaped(s) && s.config == c && s.current == 0 && !Playing(s) && s.pitchFade.None?
    ensures forall i :: 0 <= i < Count(s) ==> s.voices[i] == Voice(0.0, c.pitch, false) && s.stopFades[i].None?
  {
    Slot(c, seq(c.clipCount, _ => Voice(0.0, c.pitch, false)), 0, None, seq(c.clipCount, _ => None), None)
  }

  /** Applies the value a fade step wrote, if any, to a voice's volume. */
  function WithVolume(v: Voice, w: Option<real>): Voice
  {
    if w.Some? then v.(volume := w.value) else v
  }

  /** Sets every voice's pitch to p. */
  function WithPitch(vs: seq<Voice>, p: real): (r: seq<Voice>)
    ensures |r| == |vs|
    ensures forall i :: 0 <= i < |r| ==> r[i] == vs[i].(pitch := p)
  {
    seq(|vs|, i requires 0 <= i < |vs| => vs[i].(pitch := p))
  }

  /** StartCoroutine(PlayRoutine(index, blendTime)): selects the variant,
      starts its voice and ramps its volume from 0 to the configured volume. */
  function StartPlay(s: Slot, index: int, blendTime: real, dt: real): (r: Slot)
    requires Shaped(s) && 0 <= index < Count(s)
    ensures Shaped(r) && r.config == s.config && r.current == index
    ensures r.stopFades == s.stopFades && r.pitchFade == s.pitchFade
    ensures r.playFade == Fade.Handle(Fade.Begin(0.0, s.config.volume, blendTime, dt))
    ensures Playing(r) <==> 0.0 < blendTime
    ensures r.voices[index].playing && r.voices[index].pitch == s.voices[index].pitch
    ensures 0.0 < blendTime ==> r.voices[index].volume == Fade.Level(r.playFade.value)
    ensures blendTime <= 0.0 ==> r.voices[index].volume == s.voices[index].volume
    ensures forall i :: 0 <= i < Count(s) && i != index ==> r.voices[i] == s.voices[i]
  {
    var st := Fade.Begin(0.0, s.config.volume, blendTime, dt);
    var v := WithVolume(s.voices[index].(playing := true), st.write);
    s.(current := index, voices := s.voices[index := v], playFade := Fade.Handle(st))
  }

  /** StartCoroutine(StopRoutine(blendTime)) stored in the current variant's
      stop slot: ramps the current voice from its present volume to 0, then
      stops it and clears its own slot. When the ramp is empty the routine
      completes inside StartCoroutine, which then returns null, and that
      null is stored after the routine has cleared the slot itself. */
  function StartStop(s: Slot, blendTime: real, dt: real): (r: Slot)
    requires Shaped(s) && Count(s) > 0
    ensures Shaped(r) && r.config == s.config && r.current == s.current
    ensures r.playFade == s.playFade && r.pitchFade == s.pitchFade
    ensures r.stopFades == s.stopFades[s.current := Fade.Handle(Fade.Begin(s.voices[s.current].volume, 0.0, blendTime, dt))]
    ensures r.stopFades[s.current].Some? <==> 0.0 < blendTime
    ensures 0.0 < blendTime ==> r.voices[s.current].playing == s.voices[s.current].playing
    ensures 0.0 < blendTime ==> r.voices[s.current].volume == Fade.Level(r.stopFades[s.current].value)
    ensures blendTime <= 0.0 ==> !r.voices[s.current].playing && r.voices[s.current].volume == s.voices[s.current].volume
    ensures r.voices[s.current].pitch == s.voices[s.current].pitch
    ensures forall i :: 0 <= i < Count(s) && i != s.current ==> r.voices[i] == s.voices[i]
  {
    var idx := s.current;
    var st := Fade.Begin(s.voices[idx].volume, 0.0, blendTime, dt);
    var v := if st.completed then s.voices[idx].(playing := false) else WithVolume(s.voices[idx], st.write);
    s.(voices := s.voices[idx := v], stopFades := s.stopFades[idx := Fade.Handle(st)])
  }

  /** Sound.Play(index, blendTime); `dt` is the frame time of the calling
      frame, which the started coroutines use for their first step. */
  function Play(s: Slot, index: int, blendTime: real, dt: real): (r: Result<Slot>)
    requires Shaped(s)
    ensures Count(s) == 0 ==> r == Failure(DivideByZero)
    ensures r.Failure? <==> Count(s) == 0 || CsRem(index, Count(s)) < 0
    ensures r.Failure? && Count(s) > 0 ==> r == Failure(IndexOutOfRange)
    ensures r.Success? ==> Shaped(r.value) && r.value.config == s.config && r.value.pitchFade == s.pitchFade
    ensures r.Success? ==> r.value.current == CsRem(index, Count(s))
    ensures r.Success? ==> (Playing(r.value) <==> 0.0 < blendTime || (Playing(s) && r.value.current == s.current))
    ensures r.Success? && 0 <= index ==> r.value.current == index % Count(s)
    ensures r.Success? ==> r.value.stopFades[r.value.current].None?
  {
    if Count(s) == 0 then Failure(DivideByZero)
    else
      var i := CsRem(index, Count(s));
      CsRemAgrees(index, Count(s));
      if i < 0 then Failure(IndexOutOfRange)
      else
        var switching := i != s.current;
        var s1 := s.(stopFades := s.stopFades[i := None]);
        if Playing(s) then
          if !switching then Success(s1.(playFade := Some(Fade.Cancel(s.playFade.value))))
          else Success(StartPlay(StartStop(s1, blendTime, dt), i, blendTime, dt))
        else Success(StartPlay(s1, i, blendTime, dt))
  }

  /** Play on the variant already selected while the play handle is set:
      the fade-in is stopped where it is and nothing restarts; the handle
      stays set, so the Sound still counts as playing. */
  lemma PlaySameVariant(s: Slot, index: int, blendTime: real, dt: real)
    requires Shaped(s) && Count(s) > 0 && Playing(s)
    requires CsRem(index, Count(s)) == s.current
    ensures Play(s, index, blendTime, dt).Success?
    ensures var r := Play(s, index, blendTime, dt).value;
      && r.voices == s.voices
      && r.current == s.current
      && r.playFade.Some? && !r.playFade.value.running
      && r.playFade.value.elapsed == s.playFade.value.elapsed
      && r.stopFades == s.stopFades[s.current := None]
  {
  }

  /** Play on another variant while the play handle is set: a crossfade.
      The old variant gets a stop fade from its present volume to 0, the new
      one a fresh play fade from 0, and it becomes the current variant. */
  lemma PlaySwitchesVariant(s: Slot, index: int, blendTime: real, dt: real)
    requires Shaped(s) && Count(s) > 0 && Playing(s)
    requires 0 <= CsRem(index, Count(s)) && CsRem(index, Count(s)) != s.current
    ensures Play(s, index, blendTime, dt).Success?
    ensures var r := Play(s, index, blendTime, dt).value;
      var j := CsRem(index, Count(s));
      && r.current == j
      && r.playFade == Fade.Handle(Fade.Begin(0.0, s.config.volume, blendTime, dt))
      && r.stopFades[s.current] == Fade.Handle(Fade.Begin(s.voices[s.current].volume, 0.0, blendTime, dt))
      && r.voices[j].playing
      && (forall k :: 0 <= k < Count(s) && k != j && k != s.current ==> r.voices[k] == s.voices[k] && r.stopFades[k] == s.stopFades[k])
  {
  }

  /** Play from idle: a play fade starts on the selected variant; any stop
      fade still running on other variants continues. */
  lemma PlayFromIdle(s: Slot, index: int, blendTime: real, dt: real)
    requires Shaped(s) && Count(s) > 0 && !Playing(s)
    requires 0 <= CsRem(index, Count(s))
    ensures Play(s, index, blendTime, dt).Success?
    ensures var r := Play(s, index, blendTime, dt).value;
      var j := CsRem(index, Count(s));
      && r.current == j
      && r.playFade == Fade.Handle(Fade.Begin(0.0, s.config.volume, blendTime, dt))
      && r.voices[j].playing
      && (forall k :: 0 <= k < Count(s) && k != j ==> r.voices[k] == s.voices[k] && r.stopFades[k] == s.stopFades[k])
  {
  }

  /** Sound.Play(index): the configured default blend time. */
  function PlayIndex(s: Slot, index: int, dt: real): (r: Result<Slot>)
    requires Shaped(s)
    ensures r == Play(s, index, s.config.defaultBlendTime, dt)
    ensures r.Success? <==> Count(s) > 0 && 0 <= CsRem(index, Count(s))
  {
    Play(s, index, s.config.defaultBlendTime, dt)
  }

  /** Sound.Play(blendTime): a random variant. `draw` is the value
      Random.Range(0, Count) returned. */
  function PlayBlend(s: Slot, draw: int, blendTime: real, dt: real): (r: Result<Slot>)
    requires Shaped(s) && IsDraw(draw, Count(s))
    ensures r.Success? <==> Count(s) > 0
    ensures r.Success? ==> r.value.current == draw
    ensures r.Failure? ==> r == Failure(DivideByZero)
  {
    Play(s, draw, blendTime, dt)
  }

  /** Sound.Play(): a random variant with the default blend time. */
  function PlayAny(s: Slot, draw: int, dt: real): (r: Result<Slot>)
    requires Shaped(s) && IsDraw(draw, Count(s))
    ensures r.Success? <==> Count(s) > 0
    ensures r.Success? ==> r.value.current == draw && 0 <= r.value.current < Count(s)
    ensures r == PlayBlend(s, draw, s.config.defaultBlendTime, dt)
  {
    Play(s, draw, s.config.defaultBlendTime, dt)
  }

  /** Sound.Stop(blendTime): nothing when idle; otherwise the play handle is
      cleared and the current variant fades out. */
  function Stop(s: Slot, blendTime: real, dt: real): (r: Slot)
    requires Shaped(s)
    ensures Shaped(r) && r.config == s.config && r.current == s.current && r.pitchFade == s.pitchFade
    ensures !Playing(s) ==> r == s
    ensures Playing(s) ==> !Playing(r)
    ensures Playing(s) ==> r.stopFades[s.current] == Fade.Handle(Fade.Begin(s.voices[s.current].volume, 0.0, blendTime, dt))
    ensures Playing(s) && blendTime <= 0.0 ==> !r.voices[s.current].playing
    ensures Playing(s) ==> forall i :: 0 <= i < Count(s) && i != s.current ==> r.voices[i] == s.voices[i] && r.stopFades[i] == s.stopFades[i]
  {
    if !Playing(s) then s
    else StartStop(s.(playFade := None), blendTime, dt)
  }

  /** Sound.Stop(): the default blend time. */
  function StopDefault(s: Slot, dt: real): (r: Slot)
    requires Shaped(s)
    ensures r == Stop(s, s.config.defaultBlendTime, dt)
    ensures !Playing(r)
  {
    Stop(s, s.config.defaultBlendTime, dt)
  }

  /** Sound.SetPitch(targetPitch, blendTime): any running pitch fade is
      stopped and a new one ramps every voice from the current variant's
      pitch to the target. On a Sound without clips the routine's first
      read of the current variant's source throws inside StartCoroutine;
      the engine logs an exception raised in a coroutine instead of passing
      it to the caller, so SetPitch returns with the old fade stopped and a
      null handle. */
  function SetPitch(s: Slot, target: real, blendTime: real, dt: real): (r: Slot)
    requires Shaped(s)
    ensures Shaped(r) && r.config == s.config && r.current == s.current
    ensures r.playFade == s.playFade && r.stopFades == s.stopFades
    ensures Count(s) == 0 ==> r == s.(pitchFade := None)
    ensures Count(s) > 0 ==> r.pitchFade == Fade.Handle(Fade.Begin(s.voices[s.current].pitch, target, blendTime, dt))
    ensures r.pitchFade.Some? <==> Count(s) > 0 && 0.0 < blendTime
    ensures forall i :: 0 <= i < Count(s) ==>
      r.voices[i].volume == s.voices[i].volume && r.voices[i].playing == s.voices[i].playing
    ensures 0.0 < blendTime ==> forall i :: 0 <= i < Count(s) ==>
      r.voices[i].pitch == Fade.Level(r.pitchFade.value)
    ensures blendTime <= 0.0 ==> r.voices == s.voices
  {
    if Count(s) == 0 then s.(pitchFade := None)
    else
      var st := Fade.Begin(s.voices[s.current].pitch, target, blendTime, dt);
      var vs := if st.write.Some? then WithPitch(s.voices, st.write.value) else s.voices;
      s.(voices := vs, pitchFade := Fade.Handle(st))
  }

  /** Sound.SetPitch(targetPitch): the default blend time. */
  function SetPitchDefault(s: Slot, target: real, dt: real): (r: Slot)
    requires Shaped(s)
    ensures r == SetPitch(s, target, s.config.defaultBlendTime, dt)
    ensures Count(s) > 0 && 0.0 < s.config.defaultBlendTime ==> r.pitchFade.Some? && r.pitchFade.value.to == target
    ensures s.config.defaultBlendTime <= 0.0 ==> r == s.(pitchFade := None)
  {
    SetPitch(s, target, s.config.defaultBlendTime, dt)
  }

  /** Sound.ResetPitch: back to the configured pitch. */
  function ResetPitch(s: Slot, dt: real): (r: Slot)
    requires Shaped(s)
    ensures r == SetPitchDefault(s, s.config.pitch, dt)
    ensures Count(s) > 0 && 0.0 < s.config.defaultBlendTime ==> r.pitchFade.Some? && r.pitchFade.value.to == s.config.pitch
    ensures s.config.defaultBlendTime <= 0.0 ==> r == s.(pitchFade := None)
  {
    SetPitchDefault(s, s.config.pitch, dt)
  }

  /** One frame of a stop fade on one variant: its completion stops the
      voice and clears the variant's stop slot. */
  function StopStep(v: Voice, h: Option<Fade.Timer>, dt: real): (r: (Voice, Option<Fade.Timer>))
    requires WfHandle(h)
    ensures WfHandle(r.1)
    ensures r.0.pitch == v.pitch
    ensures h.None? ==> r == (v, None)
    ensures h.Some? && Fade.Advance(h.value, dt).completed ==> r == (v.(playing := false), None)
    ensures h.Some? && !Fade.Advance(h.value, dt).completed ==> r.1 == Some(Fade.Advance(h.value, dt).timer) && r.0.playing == v.playing
  {
    match h
    case None => (v, None)
    case Some(f) =>
      var st := Fade.Advance(f, dt);
      if st.completed then (v.(playing := false), None)
      else (WithVolume(v, st.write), Some(st.timer))
  }

  /** One frame of every stop fade, variant by variant. */
  function StopSteps(vs: seq<Voice>, hs: seq<Option<Fade.Timer>>, dt: real): (r: (seq<Voice>, seq<Option<Fade.Timer>>))
    requires |vs| == |hs| && forall i :: 0 <= i < |hs| ==> WfHandle(hs[i])
    ensures |r.0| == |vs| && |r.1| == |hs|
    ensures forall i :: 0 <= i < |vs| ==> (r.0[i], r.1[i]) == StopStep(vs[i], hs[i], dt)
  {
    (seq(|vs|, i requires 0 <= i < |vs| => StopStep(vs[i], hs[i], dt).0),
     seq(|vs|, i requires 0 <= i < |vs| => StopStep(vs[i], hs[i], dt).1))
  }

  /** One frame of the play fade: it writes only the current variant's
      volume, and its handle stays set even when it completes. */
  function PlayStep(vs: seq<Voice>, current: int, h: Option<Fade.Timer>, dt: real): (r: (seq<Voice>, Option<Fade.Timer>))
    requires WfHandle(h) && (h.Some? ==> 0 <= current < |vs|)
    ensures |r.0| == |vs| && WfHandle(r.1)
    ensures h.None? ==> r == (vs, None)
    ensures h.Some? ==> r.1 == Some(Fade.Advance(h.value, dt).timer)
    ensures h.Some? ==> r.0 == vs[current := WithVolume(vs[current], Fade.Advance(h.value, dt).write)]
  {
    match h
    case None => (vs, None)
    case Some(f) =>
      var st := Fade.Advance(f, dt);
      (vs[current := WithVolume(vs[current], st.write)], Some(st.timer))
  }

  /** One frame of the pitch fade: a write goes to every voice, and the
      routine clears its own handle when it completes. */
  function PitchStep(vs: seq<Voice>, h: Option<Fade.Timer>, dt: real): (r: (seq<Voice>, Option<Fade.Timer>))
    requires WfHandle(h)
    ensures |r.0| == |vs| && WfHandle(r.1)
    ensures forall i :: 0 <= i < |vs| ==> r.0[i].volume == vs[i].volume && r.0[i].playing == vs[i].playing
    ensures h.None? ==> r == (vs, None)
    ensures h.Some? && Fade.Advance(h.value, dt).completed ==> r == (vs, None)
    ensures h.Some? && !Fade.Advance(h.value, dt).completed ==> r.1 == Some(Fade.Advance(h.value, dt).timer)
    ensures h.Some? && Fade.Advance(h.value, dt).write.Some? ==>
      forall i :: 0 <= i < |vs| ==> r.0[i].pitch == Fade.Advance(h.value, dt).write.value
    ensures h.Some? && Fade.Advance(h.value, dt).write.None? ==> r.0 == vs
  {
    match h
    case None => (vs, None)
    case Some(f) =>
      var st := Fade.Advance(f, dt);
      var vs' := if st.write.Some? then WithPitch(vs, st.write.value) else vs;
      (vs', if st.completed then None else Some(st.timer))
  }

  /** One frame of the coroutine scheduler for this Sound: the play fade,
      every stop fade and the pitch fade are each resumed once. */
  function Tick(s: Slot, dt: real): (r: Slot)
    requires Shaped(s)
    ensures Shaped(r) && r.config == s.config && r.current == s.current
    ensures r.playFade.Some? <==> s.playFade.Some?
    ensures s.playFade.Some? ==> r.playFade == Some(Fade.Advance(s.playFade.value, dt).timer)
    ensures forall i :: 0 <= i < Count(s) ==> r.stopFades[i] == StopStep(s.voices[i], s.stopFades[i], dt).1
    ensures forall i :: 0 <= i < Count(s) && s.stopFades[i].None? ==> r.voices[i].playing == s.voices[i].playing
    ensures forall i :: 0 <= i < Count(s) && s.stopFades[i].Some? && Fade.Advance(s.stopFades[i].value, dt).completed ==> !r.voices[i].playing
    ensures s.pitchFade.Some? && Fade.Advance(s.pitchFade.value, dt).completed ==> r.pitchFade.None?
  {
    var (v1, p1) := PlayStep(s.voices, s.current, s.playFade, dt);
    var (v2, h2) := StopSteps(v1, s.stopFades, dt);
    var (v3, q3) := PitchStep(v2, s.pitchFade, dt);
    s.(voices := v3, playFade := p1, stopFades := h2, pitchFade := q3)
  }

  /** n frames at a constant frame time. */
  function TickN(s: Slot, dt: real, n: nat): (r: Slot)
    requires Shaped(s)
    ensures Shaped(r) && r.config == s.config && r.current == s.current
    decreases n
  {
    if n == 0 then s else TickN(Tick(s, dt), dt, n - 1)
  }
}
