/** What every reachable Sound state satisfies, and what ticking the fades
    to their end achieves. */
module SoundInvariants {
  import opened Runtime
  import Fade
  import opened Sound

  /** The play handle's timer ramps 0 to the configured volume, and the
      current voice holds the value it last wrote. */
  predicate PlayTimerInSync(s: Slot)
    requires Shaped(s) && Playing(s)
  {
    var f := s.playFade.value;
    && f.from == 0.0
    && f.to == s.config.volume
    && (f.duration > 0.0 ==> s.voices[s.current].volume == Fade.Level(f))
    && s.voices[s.current].playing
  }

  /** A stop timer ramps a volume the Sound could have reached down to 0. */
  predicate StopTimerShape(s: Slot, i: int)
    requires Shaped(s) && 0 <= i < Count(s) && s.stopFades[i].Some?
  {
    s.stopFades[i].value.to == 0.0 && 0.0 <= s.stopFades[i].value.from <= s.config.volume
  }

  /** All variants share one pitch. */
  predicate UniformPitch(vs: seq<Voice>)
  {
    forall i, j :: 0 <= i < |vs| && 0 <= j < |vs| ==> vs[i].pitch == vs[j].pitch
  }

  /** The Sound invariant:
      - the current variant never has a stop handle while the play handle is set
        (no variant is both fading in and fading out);
      - the play timer is in step with the current voice;
      - every stop timer fades towards 0 from at most the configured volume;
      - every voice volume stays in [0, volume];
      - all variants share one pitch. */
  predicate Inv(s: Slot)
  {
    && Shaped(s)
    && 0.0 <= s.config.volume
    && (Playing(s) ==> s.stopFades[s.current].None? && PlayTimerInSync(s))
    && (forall i :: 0 <= i < Count(s) && s.stopFades[i].Some? ==> StopTimerShape(s, i))
    && (forall i :: 0 <= i < Count(s) ==> 0.0 <= s.voices[i].volume <= s.config.volume)
    && UniformPitch(s.voices)
  }

  lemma InitializeEstablishesInv(c: Config)
    requires 0.0 <= c.volume
    ensures Inv(Initialize(c))
  {
  }

  lemma StartPlayKeepsInv(s: Slot, index: int, blendTime: real, dt: real)
    requires Inv(s) && 0 <= index < Count(s) && s.stopFades[index].None?
    ensures Inv(StartPlay(s, index, blendTime, dt))
  {
    var r := StartPlay(s, index, blendTime, dt);
    assert forall i :: 0 <= i < Count(s) ==> r.voices[i].pitch == s.voices[i].pitch;
    if 0.0 < blendTime {
      assert Fade.Between(r.voices[index].volume, 0.0, s.config.volume);
    }
  }

  lemma StartStopKeepsInv(s: Slot, blendTime: real, dt: real)
    requires Inv(s) && Count(s) > 0 && !Playing(s)
    ensures Inv(StartStop(s, blendTime, dt))
  {
    var r := StartStop(s, blendTime, dt);
    assert forall i :: 0 <= i < Count(s) ==> r.voices[i].pitch == s.voices[i].pitch;
    if 0.0 < blendTime {
      assert Fade.Between(r.voices[s.current].volume, s.voices[s.current].volume, 0.0);
    }
  }

  lemma PlayKeepsInv(s: Slot, index: int, blendTime: real, dt: real)
    requires Inv(s)
    ensures Play(s, index, blendTime, dt).Success? ==> Inv(Play(s, index, blendTime, dt).value)
  {
    if Count(s) > 0 && CsRem(index, Count(s)) >= 0 {
      var i := CsRem(index, Count(s));
      var s1 := s.(stopFades := s.stopFades[i := None]);
      assert Inv(s1.(playFade := None));
      if Playing(s) {
        if i != s.current {
          var s0 := s1.(playFade := None);
          StartStopKeepsInv(s0, blendTime, dt);
          var s2 := StartStop(s0, blendTime, dt);
          assert s2.stopFades[i].None?;
          StartPlayKeepsInv(s2, i, blendTime, dt);
          assert StartPlay(s2, i, blendTime, dt) == StartPlay(StartStop(s1, blendTime, dt), i, blendTime, dt);
        }
      } else {
        StartPlayKeepsInv(s1, i, blendTime, dt);
      }
    }
  }

  lemma StopKeepsInv(s: Slot, blendTime: real, dt: real)
    requires Inv(s)
    ensures Inv(Stop(s, blendTime, dt))
  {
    if Playing(s) {
      StartStopKeepsInv(s.(playFade := None), blendTime, dt);
    }
  }

  lemma SetPitchKeepsInv(s: Slot, target: real, blendTime: real, dt: real)
    requires Inv(s)
    ensures Inv(SetPitch(s, target, blendTime, dt))
  {
  }

  lemma TickKeepsInv(s: Slot, dt: real)
    requires Inv(s)
    ensures Inv(Tick(s, dt))
  {
    var (v1, p1) := PlayStep(s.voices, s.current, s.playFade, dt);
    var (v2, h2) := StopSteps(v1, s.stopFades, dt);
    var (v3, q3) := PitchStep(v2, s.pitchFade, dt);
    var r := Tick(s, dt);
    assert r.voices == v3 && r.playFade == p1 && r.stopFades == h2;
    forall i | 0 <= i < Count(s)
      ensures 0.0 <= v1[i].volume <= s.config.volume && v1[i].pitch == s.voices[i].pitch
    {
      if Playing(s) && i == s.current {
        var st := Fade.Advance(s.playFade.value, dt);
        if st.write.Some? {
          assert Fade.Between(st.write.value, 0.0, s.config.volume);
        }
      }
    }
    forall i | 0 <= i < Count(s)
      ensures 0.0 <= v2[i].volume <= s.config.volume && v2[i].pitch == s.voices[i].pitch
      ensures h2[i].Some? ==> h2[i].value.to == 0.0 && 0.0 <= h2[i].value.from <= s.config.volume
    {
      if s.stopFades[i].Some? {
        var f := s.stopFades[i].value;
        assert StopTimerShape(s, i);
        var st := Fade.Advance(f, dt);
        if st.write.Some? {
          assert Fade.Between(st.write.value, f.from, 0.0);
        }
      }
    }
    assert forall i :: 0 <= i < Count(s) ==> v3[i].volume == v2[i].volume && v3[i].playing == v2[i].playing;
    if Playing(s) {
      var f := s.playFade.value;
      var st := Fade.Advance(f, dt);
      assert s.stopFades[s.current].None?;
      assert v2[s.current] == v1[s.current];
      if f.duration > 0.0 && st.write.None? {
        assert st.timer.elapsed == f.elapsed;
      }
    }
    assert UniformPitch(v2);
  }

  /** n frames preserve the invariant; the play handle, when set, holds the
      timer the fade-in has reached after n frames. */
  lemma {:induction false} TickNKeepsInv(s: Slot, dt: real, n: nat)
    requires Inv(s)
    ensures Inv(TickN(s, dt, n))
    ensures Playing(s) ==> TickN(s, dt, n).playFade == Some(Fade.Run(s.playFade.value, dt, n))
    decreases n
  {
    if n > 0 {
      TickKeepsInv(s, dt);
      TickNKeepsInv(Tick(s, dt), dt, n - 1);
    }
  }

  /** A fade-in that reaches its duration within n - 1 frames leaves the
      current voice playing at exactly the configured volume after n frames. */
  lemma FadeInReachesVolume(s: Slot, dt: real, n: nat)
    requires Inv(s) && Playing(s) && s.playFade.value.running
    requires n >= 1 && s.playFade.value.duration <= s.playFade.value.elapsed + (n - 1) as real * dt
    ensures TickN(s, dt, n).current == s.current
    ensures TickN(s, dt, n).voices[s.current].volume == s.config.volume
    ensures TickN(s, dt, n).voices[s.current].playing
  {
    var f := s.playFade.value;
    TickNKeepsInv(s, dt, n);
    Fade.RunCompletes(f, dt, n);
    var g := Fade.Run(f, dt, n);
    Fade.RatioAtLeastOne(g.elapsed, g.duration);
  }

  /** A stopped variant stays stopped while no one plays it. */
  lemma {:induction false} StoppedStaysStopped(s: Slot, i: int, dt: real, n: nat)
    requires Shaped(s) && 0 <= i < Count(s) && s.stopFades[i].None? && !s.voices[i].playing
    ensures TickN(s, dt, n).stopFades[i].None? && !TickN(s, dt, n).voices[i].playing
    decreases n
  {
    if n > 0 {
      StoppedStaysStopped(Tick(s, dt), i, dt, n - 1);
    }
  }

  /** A stop fade that reaches its duration within n - 1 frames has stopped
      its voice and cleared its slot after n frames. */
  lemma {:induction false} StopFadeEnds(s: Slot, i: int, dt: real, n: nat)
    requires Shaped(s) && 0 <= i < Count(s) && s.stopFades[i].Some?
    requires s.stopFades[i].value.running
    requires n >= 1 && s.stopFades[i].value.duration <= s.stopFades[i].value.elapsed + (n - 1) as real * dt
    ensures TickN(s, dt, n).stopFades[i].None? && !TickN(s, dt, n).voices[i].playing
    decreases n
  {
    var f := s.stopFades[i].value;
    var t := Tick(s, dt);
    if f.duration <= f.elapsed {
      assert t.stopFades[i].None? && !t.voices[i].playing;
      StoppedStaysStopped(t, i, dt, n - 1);
    } else {
      assert n >= 2 by {
        if n == 1 {
          assert false;
        }
      }
      var g := Fade.Advance(f, dt).timer;
      assert t.stopFades[i] == Some(g);
      assert g.elapsed + ((n - 1) - 1) as real * dt == f.elapsed + (n - 1) as real * dt;
      StopFadeEnds(t, i, dt, n - 1);
    }
  }

  /** Switching variant from a Sound playing variant s.current with no stop
      fade anywhere leaves one running play fade (on the new variant j)
      and one running stop fade (on the old variant) and no other. */
  lemma SwitchLeavesOneStopFade(s: Slot, j: int, blendTime: real, dt: real)
    requires Inv(s) && Playing(s) && 0.0 < blendTime
    requires 0 <= j < Count(s) && j != s.current
    requires forall k :: 0 <= k < Count(s) ==> s.stopFades[k].None?
    ensures Play(s, j, blendTime, dt).Success?
    ensures var r := Play(s, j, blendTime, dt).value;
      && Inv(r)
      && r.current == j
      && r.playFade == Some(Fade.Timer(0.0, s.config.volume, blendTime, dt, true))
      && r.stopFades[s.current].Some? && r.stopFades[s.current].value.running
      && r.stopFades[s.current].value.duration == blendTime && r.stopFades[s.current].value.elapsed == dt
      && (forall k :: 0 <= k < Count(s) && k != s.current ==> r.stopFades[k].None?)
  {
    assert CsRem(j, Count(s)) == j;
    PlaySwitchesVariant(s, j, blendTime, dt);
    PlayKeepsInv(s, j, blendTime, dt);
    var r := Play(s, j, blendTime, dt).value;
    assert r.stopFades[j].None?;
  }

  /** The crossfade set-up: from a freshly initialized Sound, Play(i) then
      Play(j) with j != i leaves one running play fade (on j) and one
      running stop fade (on i) and no other stop fade. */
  lemma CrossfadeSetsUp(c: Config, i: int, j: int, blendTime: real, dt: real)
    requires 0.0 <= c.volume
    requires 0 <= i < c.clipCount && 0 <= j < c.clipCount && i != j && 0.0 < blendTime
    ensures Play(Initialize(c), i, blendTime, dt).Success?
    ensures var s1 := Play(Initialize(c), i, blendTime, dt).value;
      && Inv(s1) && Playing(s1) && s1.current == i
      && (forall k :: 0 <= k < c.clipCount ==> s1.stopFades[k].None?)
  {
    var s0 := Initialize(c);
    InitializeEstablishesInv(c);
    assert CsRem(i, c.clipCount) == i;
    var s1 := StartPlay(s0.(stopFades := s0.stopFades[i := None]), i, blendTime, dt);
    assert Play(s0, i, blendTime, dt) == Success(s1);
    assert s0.stopFades[i := None] == s0.stopFades;
    PlayKeepsInv(s0, i, blendTime, dt);
  }

  /** The crossfade settles: once both ramps have run their duration, the
      old variant i is stopped and j plays at exactly the configured volume. */
  lemma CrossfadeSettles(c: Config, i: int, j: int, blendTime: real, dt: real, n: nat)
    requires 0.0 <= c.volume
    requires 0 <= i < c.clipCount && 0 <= j < c.clipCount && i != j
    requires 0.0 < blendTime && n >= 1 && blendTime <= dt + (n - 1) as real * dt
    ensures Play(Initialize(c), i, blendTime, dt).Success?
    ensures Play(Play(Initialize(c), i, blendTime, dt).value, j, blendTime, dt).Success?
    ensures var s := Play(Play(Initialize(c), i, blendTime, dt).value, j, blendTime, dt).value;
      && !TickN(s, dt, n).voices[i].playing
      && TickN(s, dt, n).voices[j].volume == c.volume
      && TickN(s, dt, n).voices[j].playing
  {
    CrossfadeSetsUp(c, i, j, blendTime, dt);
    var s1 := Play(Initialize(c), i, blendTime, dt).value;
    SwitchLeavesOneStopFade(s1, j, blendTime, dt);
    var s := Play(s1, j, blendTime, dt).value;
    FadeInReachesVolume(s, dt, n);
    StopFadeEnds(s, i, dt, n);
  }
  /** With no fade running, frames change no volume and start or stop no voice. */
  lemma {:induction false} QuietTicks(s: Slot, dt: real, n: nat)
    requires Shaped(s)
    requires s.playFade.Some? ==> !s.playFade.value.running
    requires forall k :: 0 <= k < Count(s) ==> s.stopFades[k].None?
    ensures forall k :: 0 <= k < Count(s) ==>
      TickN(s, dt, n).voices[k].volume == s.voices[k].volume && TickN(s, dt, n).voices[k].playing == s.voices[k].playing
    decreases n
  {
    if n > 0 {
      var t := Tick(s, dt);
      assert forall k :: 0 <= k < Count(s) ==> t.voices[k].volume == s.voices[k].volume && t.voices[k].playing == s.voices[k].playing;
      QuietTicks(t, dt, n - 1);
    }
  }

  /** A blend time of zero or less writes no volume, and the play routine
      ends inside StartCoroutine, so no play handle is kept. Played from a
      freshly initialized Sound, the variant plays at the volume Initialize
      gave it, 0; the Sound does not count as playing, so a following Stop
      does nothing; and no later frame changes the voice. */
  lemma ZeroBlendPlaysSilently(c: Config, i: int, playBlend: real, stopBlend: real, dt: real, n: nat)
    requires 0 <= i < c.clipCount && playBlend <= 0.0
    ensures Play(Initialize(c), i, playBlend, dt).Success?
    ensures var s := Play(Initialize(c), i, playBlend, dt).value;
      && !Playing(s) && s.current == i
      && Stop(s, stopBlend, dt) == s
      && TickN(s, dt, n).voices[i].playing
      && TickN(s, dt, n).voices[i].volume == 0.0
  {
    var s0 := Initialize(c);
    assert CsRem(i, c.clipCount) == i;
    assert s0.stopFades[i := None] == s0.stopFades;
    var s := Play(s0, i, playBlend, dt).value;
    assert s == StartPlay(s0, i, playBlend, dt);
    QuietTicks(s, dt, n);
  }
}
