/** The AudioManager's list loops as written: index loops running from the
    end of the list down to 0 and calling `RemoveAt(i)` in place, and the
    `foreach ... break` scan of StopLooping. Each is proved to compute the
    order-preserving filter the functional model uses. */
module ManagerLoops {
  import opened Runtime
  import opened Lists
  import opened AudioManager

  /** One step of Sift from position i: the element at i, if kept, followed
      by the filter of the rest. */
  lemma SiftFrom<T>(xs: seq<T>, drop: seq<bool>, i: nat)
    requires |drop| == |xs| && i < |xs|
    ensures Sift(xs[i..], drop[i..]) == (if drop[i] then [] else [xs[i]]) + Sift(xs[i + 1..], drop[i + 1..])
  {
    assert xs[i..][1..] == xs[i + 1..];
    assert drop[i..][1..] == drop[i + 1..];
  }

  /** One iteration of a backwards removal loop: the prefix before i is
      untouched, so removing position i (when flagged) extends the filtered
      suffix by one position. */
  lemma RemoveStep<T>(xs: seq<T>, drop: seq<bool>, ys: seq<T>, i: nat)
    requires |drop| == |xs| && i < |xs|
    requires ys == xs[..i + 1] + Sift(xs[i + 1..], drop[i + 1..])
    ensures i < |ys| && ys[i] == xs[i]
    ensures (if drop[i] then ys[..i] + ys[i + 1..] else ys) == xs[..i] + Sift(xs[i..], drop[i..])
  {
    SiftFrom(xs, drop, i);
    assert xs[..i + 1] == xs[..i] + [xs[i]];
    if drop[i] {
      assert ys[..i] == xs[..i];
      assert ys[i + 1..] == Sift(xs[i + 1..], drop[i + 1..]);
    }
  }

  /** `for (i = list.Count - 1; i >= 0; i--) if (drop(list[i])) list.RemoveAt(i);` */
  method RemoveFlaggedBackwards<T>(xs: seq<T>, drop: seq<bool>) returns (ys: seq<T>)
    requires |drop| == |xs|
    ensures ys == Sift(xs, drop)
  {
    ys := xs;
    var i := |xs|;
    while i > 0
      invariant 0 <= i <= |xs|
      invariant ys == xs[..i] + Sift(xs[i..], drop[i..])
      decreases i
    {
      i := i - 1;
      RemoveStep(xs, drop, ys, i);
      if drop[i] {
        ys := ys[..i] + ys[i + 1..];
      }
    }
    assert xs[0..] == xs && drop[0..] == drop;
  }

  /** Sources the Music loop has destroyed once it has visited positions
      i to the end. */
  function StaleFrom(xs: seq<LoopEntry>, probes: seq<Probe>, tag: int, i: nat): set<GameObject>
    requires |probes| == |xs| && i <= |xs|
  {
    set k | i <= k < |xs| && probes[k] == Present(true) && xs[k].tag != tag :: xs[k].source.gameObject
  }

  lemma StaleStep(xs: seq<LoopEntry>, probes: seq<Probe>, tag: int, i: nat)
    requires |probes| == |xs| && i < |xs|
    ensures StaleFrom(xs, probes, tag, i) ==
      StaleFrom(xs, probes, tag, i + 1) + (if probes[i] == Present(true) && xs[i].tag != tag then {xs[i].source.gameObject} else {})
  {
  }

  /** The Music loop of Update: a missing entry is removed, a playing one
      is skipped, a finished one is removed, and a finished one from an
      earlier level load also has its game object destroyed. */
  method ReapMusicBackwards(xs: seq<LoopEntry>, probes: seq<Probe>, tag: int) returns (ys: seq<LoopEntry>, destroyed: set<GameObject>)
    requires |probes| == |xs|
    ensures ys == ReapMusic(xs, probes)
    ensures destroyed == StaleFinished(xs, probes, tag)
  {
    var drop := MusicReaped(probes);
    ys := xs;
    destroyed := {};
    var i := |xs|;
    while i > 0
      invariant 0 <= i <= |xs|
      invariant ys == xs[..i] + Sift(xs[i..], drop[i..])
      invariant destroyed == StaleFrom(xs, probes, tag, i)
      decreases i
    {
      i := i - 1;
      RemoveStep(xs, drop, ys, i);
      StaleStep(xs, probes, tag, i);
      match probes[i]
      case Missing =>
        ys := ys[..i] + ys[i + 1..];
      case Present(finished) =>
        if finished {
          if ys[i].tag != tag {
            destroyed := destroyed + {ys[i].source.gameObject};
          }
          ys := ys[..i] + ys[i + 1..];
        }
    }
    assert xs[0..] == xs && drop[0..] == drop;
    assert StaleFrom(xs, probes, tag, 0) == StaleFinished(xs, probes, tag);
  }

  /** Displace from position i: the entry at i, stopped or removed,
      followed by the displaced rest. */
  lemma DisplaceFrom(xs: seq<LoopEntry>, source: Source, stopAll: bool, i: nat)
    requires i < |xs|
    ensures Displace(xs[i..], source, stopAll) ==
      (if xs[i].source == source then [] else [if stopAll then Halt(xs[i]) else xs[i]]) + Displace(xs[i + 1..], source, stopAll)
  {
    assert xs[i..][1..] == xs[i + 1..];
  }

  /** One iteration of PlayLooping's first loop: position i is removed,
      stopped or kept, extending the displaced suffix by one position. */
  lemma DisplaceStep(xs: seq<LoopEntry>, source: Source, stopAll: bool, ys: seq<LoopEntry>, i: nat)
    requires i < |xs|
    requires ys == xs[..i + 1] + Displace(xs[i + 1..], source, stopAll)
    ensures i < |ys| && ys[i] == xs[i]
    ensures xs[i].source == source ==> ys[..i] + ys[i + 1..] == xs[..i] + Displace(xs[i..], source, stopAll)
    ensures xs[i].source != source && stopAll ==> ys[i := Halt(xs[i])] == xs[..i] + Displace(xs[i..], source, stopAll)
    ensures xs[i].source != source && !stopAll ==> ys == xs[..i] + Displace(xs[i..], source, stopAll)
  {
    DisplaceFrom(xs, source, stopAll, i);
    var d := Displace(xs[i + 1..], source, stopAll);
    AroundPosition(xs, d, ys, i);
    if xs[i].source != source {
      if stopAll {
        UpdateSplits(ys, i, Halt(xs[i]));
        assert [Halt(xs[i])] + d == Displace(xs[i..], source, stopAll);
      } else {
        assert [xs[i]] + d == Displace(xs[i..], source, stopAll);
      }
    }
  }

  /** A list made of a prefix of xs through position i and then d, cut
      around position i. */
  lemma AroundPosition<T>(xs: seq<T>, d: seq<T>, ys: seq<T>, i: nat)
    requires i < |xs| && ys == xs[..i + 1] + d
    ensures i < |ys| && ys[i] == xs[i]
    ensures ys[..i] == xs[..i] && ys[i + 1..] == d
    ensures ys == xs[..i] + [xs[i]] + d
  {
    assert xs[..i + 1] == xs[..i] + [xs[i]];
  }

  /** Updating one position is splicing a new element between the two
      halves around it. */
  lemma UpdateSplits<T>(ys: seq<T>, i: nat, v: T)
    requires i < |ys|
    ensures ys[i := v] == ys[..i] + [v] + ys[i + 1..]
  {
  }

  /** The first loop of PlayLooping: removes the entries bound to the
      source and, with `stopAll`, stops every entry it visits (a removed
      entry is stopped too, but it has already left the list). */
  method DisplaceBackwards(xs: seq<LoopEntry>, source: Source, stopAll: bool) returns (ys: seq<LoopEntry>)
    ensures ys == Displace(xs, source, stopAll)
  {
    ys := xs;
    var i := |xs|;
    while i > 0
      invariant 0 <= i <= |xs|
      invariant ys == xs[..i] + Displace(xs[i..], source, stopAll)
      decreases i
    {
      i := i - 1;
      DisplaceStep(xs, source, stopAll, ys, i);
      var s := ys[i];
      if s.source == source {
        ys := ys[..i] + ys[i + 1..];
      } else if stopAll {
        ys := ys[i := Halt(s)];
      }
    }
    assert xs[0..] == xs;
  }

  /** The `foreach ... break` of StopLooping: the index of the first entry
      bound to the source, if any. */
  method FindFirst(xs: seq<LoopEntry>, source: Source) returns (found: Option<nat>)
    ensures found == FirstWith(xs, source)
  {
    var i := 0;
    while i < |xs|
      invariant 0 <= i <= |xs|
      invariant forall j :: 0 <= j < i ==> xs[j].source != source
      decreases |xs| - i
    {
      if xs[i].source == source {
        FirstWithIsFirst(xs, source, i);
        return Some(i);
      }
      i := i + 1;
    }
    FirstWithIsFirst(xs, source, |xs|);
    return None;
  }

  /** FirstWith finds the lowest index carrying the source. */
  lemma {:induction false} FirstWithIsFirst(xs: seq<LoopEntry>, source: Source, i: nat)
    requires i <= |xs|
    requires forall j :: 0 <= j < i ==> xs[j].source != source
    requires i < |xs| ==> xs[i].source == source
    ensures FirstWith(xs, source) == if i < |xs| then Some(i) else None
  {
    var r := FirstWith(xs, source);
    if r.Some? {
      assert r.value >= i;
      assert r.value == i;
    }
  }

  /** Update, loop by loop. */
  method UpdateFrame(m: Manager, soundDone: seq<bool>, musicProbes: seq<Probe>, playing: set<Source>) returns (r: Manager)
    requires |soundDone| == |m.sounds| && |musicProbes| == |m.music|
    ensures r == Update(m, soundDone, musicProbes, playing)
  {
    var sounds := RemoveFlaggedBackwards(m.sounds, soundDone);
    var music, stale := ReapMusicBackwards(m.music, musicProbes, m.persistTag);
    var oneShots := RemoveFlaggedBackwards(m.musicOneShot, Silent(m.musicOneShot, playing));
    r := m.(updated := true, sounds := sounds, music := music, musicOneShot := oneShots,
            destroyed := m.destroyed + stale);
  }

  /** SceneManagerSceneLoaded, step by step: StopNonLoopingSounds,
      StopLoopingListOnLevelLoad on both lists, clearing the throttle map,
      then ClearPersistedSounds. */
  method SceneLoadedSteps(m: Manager, playing: set<Source>) returns (r: Outcome)
    ensures r == SceneLoaded(m, playing)
  {
    if !m.updated || !m.stopSoundsOnLevelLoad {
      return Outcome(m, []);
    }
    var effects := StopNonLoopingSounds(m).effects;
    var live := LiveAfterStop(m, playing);
    var sounds := RemoveFlaggedBackwards(m.sounds, Evicted(m.sounds, live));
    var music := RemoveFlaggedBackwards(m.music, Evicted(m.music, live));
    var destroyed := m.destroyed + (set s | s in m.persisted && s !in live :: s.gameObject);
    r := Outcome(m.(persistTag := m.persistTag + 1, updated := false, sounds := sounds, music := music,
                    oneShots := map[], destroyed := destroyed, persisted := multiset{}),
                 effects);
  }
}
