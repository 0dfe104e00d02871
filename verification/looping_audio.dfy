/** LoopingAudio: a set of AudioSources of which one at a time loops
    through the AudioManager, as music or as a sound. */
module LoopingAudio {
  import opened Runtime
  import opened AudioManager

  datatype Looping = Looping(sources: seq<Source>, scale: real, music: bool, playingIndex: int)

  function Channel(l: Looping): Channel
  {
    if l.music then MusicChannel else SoundChannel
  }

  /** LoopingAudio.Play(index). `_playingIndex` is assigned before the
      array is indexed, so a negative index is recorded even though the
      call then throws. The manager calls use their default fade of one
      second and, for music, no persistence. */
  function Play(l: Looping, m: Manager, index: int): (r: (Looping, Result<Manager>))
    ensures |l.sources| == 0 ==> r == (l, Failure(DivideByZero))
    ensures |l.sources| > 0 ==> r.0 == l.(playingIndex := CsRem(index, |l.sources|))
    ensures r.1.Failure? <==> |l.sources| == 0 || CsRem(index, |l.sources|) < 0
    ensures r.1.Success? ==> 0 <= r.0.playingIndex < |l.sources|
    ensures r.1.Success? && 0 <= index ==> r.0.playingIndex == index % |l.sources|
    ensures r.1.Success? && l.music ==> r.1.value == PlayLoopingMusic(m, l.sources[r.0.playingIndex], l.scale, 1.0, false)
    ensures r.1.Success? && !l.music ==> r.1.value == PlayLoopingSound(m, l.sources[r.0.playingIndex], l.scale, 1.0)
  {
    if |l.sources| == 0 then (l, Failure(DivideByZero))
    else
      var i := CsRem(index, |l.sources|);
      CsRemAgrees(index, |l.sources|);
      var l' := l.(playingIndex := i);
      if i < 0 then (l', Failure(IndexOutOfRange))
      else if l.music then (l', Success(PlayLoopingMusic(m, l.sources[i], l.scale, 1.0, false)))
      else (l', Success(PlayLoopingSound(m, l.sources[i], l.scale, 1.0)))
  }

  /** LoopingAudio.Play(): `draw` is the value Random.Range(0, Length) returned. */
  function PlayAny(l: Looping, m: Manager, draw: int): (r: (Looping, Result<Manager>))
    requires IsDraw(draw, |l.sources|)
    ensures r.1.Success? <==> |l.sources| > 0
    ensures r.1.Success? ==> r.0.playingIndex == draw
    ensures r == Play(l, m, draw)
  {
    Play(l, m, draw)
  }

  /** LoopingAudio.Stop: stops the most recently played source on the same
      channel; an index outside the array throws. */
  function Stop(l: Looping, m: Manager): (r: Result<Outcome>)
    ensures r.Failure? <==> !(0 <= l.playingIndex < |l.sources|)
    ensures r.Failure? ==> r == Failure(IndexOutOfRange)
    ensures r.Success? ==> r.value == StopLooping(m, Channel(l), l.sources[l.playingIndex])
  {
    if !(0 <= l.playingIndex < |l.sources|) then Failure(IndexOutOfRange)
    else if l.music then Success(StopLoopingMusic(m, l.sources[l.playingIndex]))
    else Success(StopLoopingSound(m, l.sources[l.playingIndex]))
  }

  /** Play then Stop: the loop just started is the one told to stop, and
      nothing is stopped on the engine directly. */
  lemma PlayThenStop(l: Looping, m: Manager, index: int)
    requires Play(l, m, index).1.Success?
    ensures var (l', m') := Play(l, m, index);
      var xs := Entries(m'.value, Channel(l));
      && Stop(l', m'.value).Success?
      && Stop(l', m'.value).value.effects == []
      && |Entries(Stop(l', m'.value).value.m, Channel(l))| == |xs|
      && Entries(Stop(l', m'.value).value.m, Channel(l))[|xs| - 1] == Halt(xs[|xs| - 1])
      && xs[|xs| - 1].source == l.sources[l'.playingIndex]
  {
    var (l', m') := Play(l, m, index);
    var xs := Entries(m'.value, Channel(l));
    var s := l.sources[l'.playingIndex];
    assert xs[|xs| - 1].source == s;
    assert forall j :: 0 <= j < |xs| - 1 ==> xs[j].source != s;
    var f := FirstWith(xs, s);
    assert f.Some? && f.value == |xs| - 1;
  }

  /** A negative index leaves the recorded index negative, so a following
      Stop throws as well. */
  lemma NegativeIndexBreaksStop(l: Looping, m: Manager, index: int, n: Manager)
    requires |l.sources| > 0 && index < 0 && index % |l.sources| != 0
    ensures Play(l, m, index).1 == Failure(IndexOutOfRange)
    ensures Stop(Play(l, m, index).0, n) == Failure(IndexOutOfRange)
  {
    var n := |l.sources|;
    CsRemAgrees(index, n);
    assert CsRem(index, n) != 0;
    assert CsRem(index, n) < 0;
  }
}
