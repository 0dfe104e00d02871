/** OneShotAudio: a set of clips played once each through one configured
    AudioSource, as music or as a sound. */
module OneShotAudio {
  import opened Runtime
  import opened AudioManager

  datatype OneShot = OneShot(clips: seq<Clip>, source: Source, scale: real, music: bool)

  /** OneShotAudio.Play(index). */
  function Play(o: OneShot, m: Manager, index: int): (r: Result<Outcome>)
    ensures |o.clips| == 0 ==> r == Failure(DivideByZero)
    ensures r.Failure? <==> |o.clips| == 0 || CsRem(index, |o.clips|) < 0
    ensures r.Failure? && |o.clips| > 0 ==> r == Failure(IndexOutOfRange)
    ensures r.Success? && o.music ==>
      r.value == PlayOneShotMusic(m, o.source, o.clips[CsRem(index, |o.clips|)], o.scale)
    ensures r.Success? && !o.music ==>
      r.value == PlayOneShotSound(m, o.source, o.clips[CsRem(index, |o.clips|)], o.scale)
    ensures r.Success? && 0 <= index ==> CsRem(index, |o.clips|) == index % |o.clips|
  {
    if |o.clips| == 0 then Failure(DivideByZero)
    else
      var i := CsRem(index, |o.clips|);
      CsRemAgrees(index, |o.clips|);
      if i < 0 then Failure(IndexOutOfRange)
      else if o.music then Success(PlayOneShotMusic(m, o.source, o.clips[i], o.scale))
      else Success(PlayOneShotSound(m, o.source, o.clips[i], o.scale))
  }

  /** OneShotAudio.Play(): `draw` is the value Random.Range(0, Length) returned. */
  function PlayAny(o: OneShot, m: Manager, draw: int): (r: Result<Outcome>)
    requires IsDraw(draw, |o.clips|)
    ensures r.Success? <==> |o.clips| > 0
    ensures r == Play(o, m, draw)
  {
    Play(o, m, draw)
  }

  /** Every playback goes through the one configured source, with the
      selected clip; a music one-shot always plays, a sound one-shot plays
      unless the clip is throttled. */
  lemma PlaysThroughConfiguredSource(o: OneShot, m: Manager, index: int)
    requires Play(o, m, index).Success?
    ensures var clip := o.clips[CsRem(index, |o.clips|)];
      var effects := Play(o, m, index).value.effects;
      && |effects| <= 1
      && (forall e :: e in effects ==> e.PlayOneShot? && e.source == o.source && e.clip == clip)
      && (o.music || !Throttled(m, clip) <==> |effects| == 1)
  {
  }

  /** Non-negative indices wrap around the clip array. */
  lemma IndexWraps(o: OneShot, m: Manager, index: int)
    requires |o.clips| > 0 && 0 <= index
    ensures Play(o, m, index) == Play(o, m, index % |o.clips|)
  {
    CsRemAgrees(index, |o.clips|);
  }
}
