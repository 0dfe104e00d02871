/** Invariants the AudioManager keeps and the properties of its operations
    that relate several calls. */
module ManagerProperties {
  import opened Runtime
  import opened Lists
  import opened AudioManager

  // ---------------------------------------------------------------------
  // The duplicate cap

  /** No clip has more in-flight volumes than the cap. */
  predicate CapRespected(m: Manager)
  {
    forall c :: c in m.oneShots ==> |m.oneShots[c]| <= m.maxDuplicateAudioClips
  }

  lemma InitialRespectsCap()
    ensures CapRespected(Initial)
  {
  }

  /** With a cap of at least one, a one-shot request never pushes a clip
      past the cap: a full list drops the request, a shorter one grows by
      one, and a fresh list starts with one volume. */
  lemma PlayOneShotSoundKeepsCap(m: Manager, source: Source, clip: Clip, volumeScale: real)
    requires CapRespected(m) && 1 <= m.maxDuplicateAudioClips
    ensures CapRespected(PlayOneShotSound(m, source, clip, volumeScale).m)
  {
    var r := PlayOneShotSound(m, source, clip, volumeScale).m;
    if !Throttled(m, clip) {
      forall c | c in r.oneShots
        ensures |r.oneShots[c]| <= r.maxDuplicateAudioClips
      {
        if c == clip && clip in m.oneShots {
          assert |m.oneShots[clip]| < m.maxDuplicateAudioClips;
        }
      }
    }
  }

  /** Pending removals only shorten lists. */
  lemma ElapseRemovalsKeepsCap(m: Manager, dt: real)
    requires CapRespected(m)
    ensures CapRespected(ElapseRemovals(m, dt))
  {
  }

  lemma SceneLoadedKeepsCap(m: Manager, playing: set<Source>)
    requires CapRespected(m)
    ensures CapRespected(SceneLoaded(m, playing).m)
  {
  }

  /** The cap test is an equality on a list that already exists: a clip
      with no list is played whatever the cap, so a cap of zero still lets
      the first copy through, and a list longer than the cap (after the cap
      was lowered) never throttles. */
  lemma CapIsTestedByEquality(m: Manager, source: Source, clip: Clip, volumeScale: real)
    requires clip !in m.oneShots || |m.oneShots[clip]| > m.maxDuplicateAudioClips
    ensures PlayOneShotSound(m, source, clip, volumeScale).effects != []
    ensures |PlayOneShotSound(m, source, clip, volumeScale).m.oneShots[clip]| > m.maxDuplicateAudioClips || clip !in m.oneShots
  {
  }

  /** A cap of zero: the first request for a fresh clip plays and leaves a
      list one longer than the cap. */
  lemma ZeroCapAdmitsFreshClip(source: Source, clip: Clip)
    ensures var r := PlayOneShotSound(Initial.(maxDuplicateAudioClips := 0), source, clip, 1.0);
      r.effects == [PlayOneShot(source, clip, 1.0)] && |r.m.oneShots[clip]| == 1
  {
  }

  /** The same clip requested n times within one frame. */
  function PlayRepeatedly(m: Manager, source: Source, clip: Clip, volumeScale: real, n: nat): (r: Manager)
    ensures r.maxDuplicateAudioClips == m.maxDuplicateAudioClips
    decreases n
  {
    if n == 0 then m else PlayRepeatedly(PlayOneShotSound(m, source, clip, volumeScale).m, source, clip, volumeScale, n - 1)
  }

  /** n requests fill the clip's list up to the cap and no further: the
      requests beyond the cap are dropped. */
  lemma {:induction false} RepeatedPlaysStopAtCap(m: Manager, source: Source, clip: Clip, volumeScale: real, n: nat)
    requires 1 <= m.maxDuplicateAudioClips && |InFlight(m, clip)| <= m.maxDuplicateAudioClips
    ensures var k := |InFlight(m, clip)| + n;
      |InFlight(PlayRepeatedly(m, source, clip, volumeScale, n), clip)| == if k < m.maxDuplicateAudioClips then k else m.maxDuplicateAudioClips
    decreases n
  {
    if n > 0 {
      var m1 := PlayOneShotSound(m, source, clip, volumeScale).m;
      if Throttled(m, clip) {
        assert m1 == m;
      } else {
        assert |InFlight(m1, clip)| == |InFlight(m, clip)| + 1;
      }
      RepeatedPlaysStopAtCap(m1, source, clip, volumeScale, n - 1);
    }
  }

  // ---------------------------------------------------------------------
  // Damping

  /** Three copies: with 0.9 in flight a request gets (0.9 + 0.9) / 3. */
  lemma DampingExample()
    ensures RequestedVolume([0.9], 1.0, 1.0) == 0.6
  {
    assert SeqMin([0.9]) == 0.9 && SeqMax([0.9]) == 0.9;
  }

  /** Quiet copies in flight (none above 0.5) never damp. */
  lemma QuietCopiesDoNotDamp(inFlight: seq<real>, volumeScale: real, soundVolume: real)
    requires forall i :: 0 <= i < |inFlight| ==> inFlight[i] <= 0.5
    ensures RequestedVolume(inFlight, volumeScale, soundVolume) == volumeScale * soundVolume
  {
    if |inFlight| > 0 {
      var hi := SeqMax(inFlight);
      var k :| 0 <= k < |inFlight| && inFlight[k] == hi;
    }
  }

  // ---------------------------------------------------------------------
  // Every in-flight volume has a pending removal

  /** The volumes that pending removals will take from a clip's list. */
  function Pending(rs: seq<Removal>, c: Clip): (r: multiset<real>)
    ensures |r| <= |rs|
  {
    if rs == [] then multiset{}
    else (if rs[0].clip == c then multiset{rs[0].volume} else multiset{}) + Pending(rs[1..], c)
  }

  /** Each in-flight volume is matched by a pending removal of that volume
      for that clip. */
  predicate Accounted(m: Manager)
  {
    forall c :: c in m.oneShots ==> multiset(m.oneShots[c]) <= Pending(m.removals, c)
  }

  lemma {:induction false} PendingAppend(rs: seq<Removal>, p: Removal, c: Clip)
    ensures Pending(rs + [p], c) == Pending(rs, c) + (if p.clip == c then multiset{p.volume} else multiset{})
    decreases |rs|
  {
    if rs == [] {
      assert [] + [p] == [p];
      assert [p][1..] == [];
    } else {
      assert (rs + [p])[1..] == rs[1..] + [p];
      PendingAppend(rs[1..], p, c);
    }
  }

  lemma InitialIsAccounted()
    ensures Accounted(Initial)
  {
  }

  /** A played one-shot starts the removal of exactly the volume it adds. */
  lemma PlayOneShotSoundKeepsAccounted(m: Manager, source: Source, clip: Clip, volumeScale: real)
    requires Accounted(m)
    ensures Accounted(PlayOneShotSound(m, source, clip, volumeScale).m)
  {
    if !Throttled(m, clip) {
      var v := RequestedVolume(InFlight(m, clip), volumeScale, m.soundVolume);
      var r := PlayOneShotSound(m, source, clip, volumeScale).m;
      forall c | c in r.oneShots
        ensures multiset(r.oneShots[c]) <= Pending(r.removals, c)
      {
        PendingAppend(m.removals, Removal(clip, v, 0.0), c);
        if c == clip {
          assert multiset(InFlight(m, clip) + [v]) == multiset(InFlight(m, clip)) + multiset{v};
        }
      }
    }
  }

  /** The multiset step of a removal firing: taking v from both sides of
      an inclusion that has v on its right keeps the inclusion. */
  lemma TakeFromBoth(a: multiset<real>, k: multiset<real>, v: real, rest: multiset<real>)
    requires a <= k + multiset{v} + rest
    ensures a - multiset{v} <= k + rest
  {
    forall x
      ensures (a - multiset{v})[x] <= (k + rest)[x]
    {
      if x == v {
        assert a[x] <= k[x] + 1 + rest[x];
      } else {
        assert a[x] <= k[x] + rest[x];
      }
    }
  }

  /** One frame of removals, clip by clip: `k` holds the volumes of the
      removals already passed over that keep waiting. */
  lemma {:induction false} ElapseAccounts(o: map<Clip, seq<real>>, ps: seq<Removal>, dt: real, c: Clip, k: multiset<real>)
    requires c in o ==> multiset(o[c]) <= k + Pending(ps, c)
    ensures var r := Elapse(o, ps, dt);
      c in r.0 ==> multiset(r.0[c]) <= k + Pending(r.1, c)
    decreases |ps|
  {
    if ps != [] {
      var p := ps[0];
      var here := if p.clip == c then multiset{p.volume} else multiset{};
      assert Pending(ps, c) == here + Pending(ps[1..], c);
      if p.clip.length <= p.waited + dt {
        var o1 := RemoveVolumeFromClip(o, p.clip, p.volume);
        if c in o {
          if p.clip == c {
            TakeFromBoth(multiset(o[c]), k, p.volume, Pending(ps[1..], c));
          } else {
            assert o1[c] == o[c];
          }
        }
        ElapseAccounts(o1, ps[1..], dt, c, k);
      } else {
        var rest := Elapse(o, ps[1..], dt);
        ElapseAccounts(o, ps[1..], dt, c, k + here);
        var p' := p.(waited := p.waited + dt);
        assert ([p'] + rest.1)[1..] == rest.1;
        assert Pending([p'] + rest.1, c) == here + Pending(rest.1, c);
      }
    }
  }

  lemma ElapseRemovalsKeepsAccounted(m: Manager, dt: real)
    requires Accounted(m)
    ensures Accounted(ElapseRemovals(m, dt))
  {
    var r := ElapseRemovals(m, dt);
    forall c | c in r.oneShots
      ensures multiset(r.oneShots[c]) <= Pending(r.removals, c)
    {
      ElapseAccounts(m.oneShots, m.removals, dt, c, multiset{});
      assert multiset{} + Pending(r.removals, c) == Pending(r.removals, c);
    }
  }

  /** A level load clears the lists and leaves the removals running. */
  lemma SceneLoadedKeepsAccounted(m: Manager, playing: set<Source>)
    requires Accounted(m)
    ensures Accounted(SceneLoaded(m, playing).m)
  {
  }

  /** Bounded lifetime of throttle entries: once every pending removal is
      due, one frame empties every clip's list. */
  lemma ThrottleDrains(m: Manager, dt: real)
    requires Accounted(m)
    requires forall i :: 0 <= i < |m.removals| ==> m.removals[i].clip.length <= m.removals[i].waited + dt
    ensures var r := ElapseRemovals(m, dt);
      r.removals == [] && forall c :: c in r.oneShots ==> r.oneShots[c] == []
  {
    ElapseRemovalsKeepsAccounted(m, dt);
    ElapseAllDue(m.oneShots, m.removals, dt);
    var r := ElapseRemovals(m, dt);
    forall c | c in r.oneShots
      ensures r.oneShots[c] == []
    {
      assert Pending(r.removals, c) == multiset{};
      assert |multiset(r.oneShots[c])| == 0;
    }
  }

  // ---------------------------------------------------------------------
  // Level loads

  /** However many notifications arrive between two frames, the persist
      tag moves by at most one: the first one that acts disarms the guard. */
  lemma SceneLoadedOncePerFrame(m: Manager, p: set<Source>, q: set<Source>)
    ensures var r := SceneLoaded(m, p).m;
      SceneLoaded(r, q) == Outcome(r, []) && m.persistTag <= r.persistTag <= m.persistTag + 1
  {
  }

  /** A frame's Update re-arms the guard. */
  lemma UpdateRearmsLevelLoad(m: Manager, soundDone: seq<bool>, musicProbes: seq<Probe>, playing: set<Source>, live: set<Source>)
    requires |soundDone| == |m.sounds| && |musicProbes| == |m.music|
    requires m.stopSoundsOnLevelLoad
    ensures SceneLoaded(Update(m, soundDone, musicProbes, playing), live).m.persistTag == m.persistTag + 1
  {
  }

  /** What a level load keeps: exactly the persisted entries whose source
      still plays once the music one-shots have been stopped. */
  lemma LevelLoadKeeps(m: Manager, playing: set<Source>, e: LoopEntry)
    requires m.updated && m.stopSoundsOnLevelLoad
    ensures var r := SceneLoaded(m, playing).m;
      && (e in r.sounds <==> e in m.sounds && e.persist && e.source in playing && e.source !in m.musicOneShot)
      && (e in r.music <==> e in m.music && e.persist && e.source in playing && e.source !in m.musicOneShot)
  {
  }

  /** Game objects whose Music entries were all started since the last
      level load are never destroyed by Update: only the game object of a
      finished entry with an older tag is. */
  lemma UpdateSparesCurrentTag(m: Manager, soundDone: seq<bool>, musicProbes: seq<Probe>, playing: set<Source>, g: GameObject)
    requires |soundDone| == |m.sounds| && |musicProbes| == |m.music|
    requires g !in m.destroyed
    requires forall i :: 0 <= i < |m.music| && m.music[i].source.gameObject == g ==> m.music[i].tag == m.persistTag
    ensures g !in Update(m, soundDone, musicProbes, playing).destroyed
  {
  }

  // ---------------------------------------------------------------------
  // Persist naming

  /** Persisting twice never doubles the prefix. */
  lemma PersistNameIdempotent(name: string, id1: int, id2: int)
    ensures PersistName(PersistName(name, id1), id2) == PersistName(name, id1)
  {
  }

  lemma PersistNameExample()
    ensures PersistName("Theme", 42) == "PersistedBySoundManager-Theme-42"
  {
    assert IntText(42) == "42" by {
      assert NatText(4) == "4";
      assert NatText(42) == NatText(4) + [DigitChar(2)];
    }
  }

  // ---------------------------------------------------------------------
  // List invariants

  /** At most one entry per source. */
  predicate UniqueSources(xs: seq<LoopEntry>)
  {
    forall i, j :: 0 <= i < j < |xs| ==> xs[i].source != xs[j].source
  }

  /** Of any two Music entries at least one is fading out. */
  predicate OneActiveTrack(xs: seq<LoopEntry>)
  {
    forall i, j :: 0 <= i < j < |xs| ==> xs[i].stopping || xs[j].stopping
  }

  predicate Distinct(xs: seq<Source>)
  {
    forall i, j :: 0 <= i < j < |xs| ==> xs[i] != xs[j]
  }

  /** Registry invariants that the manager's operations preserve. */
  predicate Registry(m: Manager)
  {
    UniqueSources(m.sounds) && UniqueSources(m.music) && OneActiveTrack(m.music) && Distinct(m.musicOneShot)
  }

  lemma TailKeepsUniqueSources(xs: seq<LoopEntry>)
    requires |xs| > 0 && UniqueSources(xs)
    ensures UniqueSources(xs[1..])
    ensures forall j :: 0 <= j < |xs| - 1 ==> xs[1..][j].source != xs[0].source
  {
    var rest := xs[1..];
    forall i, j | 0 <= i < j < |rest|
      ensures rest[i].source != rest[j].source
    {
      assert rest[i] == xs[i + 1] && rest[j] == xs[j + 1];
    }
    forall j | 0 <= j < |rest|
      ensures rest[j].source != xs[0].source
    {
      assert rest[j] == xs[j + 1];
    }
  }

  lemma ConsKeepsUniqueSources(h: seq<LoopEntry>, tail: seq<LoopEntry>)
    requires |h| <= 1 && UniqueSources(tail)
    requires forall i, j :: 0 <= i < |h| && 0 <= j < |tail| ==> h[i].source != tail[j].source
    ensures UniqueSources(h + tail)
  {
    var r := h + tail;
    forall i, j | 0 <= i < j < |r|
      ensures r[i].source != r[j].source
    {
      if i < |h| {
        assert r[j] == tail[j - |h|];
      } else {
        assert r[i] == tail[i - |h|] && r[j] == tail[j - |h|];
      }
    }
  }

  lemma {:induction false} SiftKeepsUniqueSources(xs: seq<LoopEntry>, drop: seq<bool>)
    requires |drop| == |xs| && UniqueSources(xs)
    ensures UniqueSources(Sift(xs, drop))
    decreases |xs|
  {
    if xs != [] {
      var rest := xs[1..];
      TailKeepsUniqueSources(xs);
      SiftKeepsUniqueSources(rest, drop[1..]);
      SiftMembers(rest, drop[1..]);
      var tail := Sift(rest, drop[1..]);
      var h := if drop[0] then [] else [xs[0]];
      forall i, j | 0 <= i < |h| && 0 <= j < |tail|
        ensures h[i].source != tail[j].source
      {
        var k :| 0 <= k < |rest| && !drop[1..][k] && rest[k] == tail[j];
      }
      ConsKeepsUniqueSources(h, tail);
      assert Sift(xs, drop) == h + tail;
    }
  }

  lemma {:induction false} SiftKeepsOneActive(xs: seq<LoopEntry>, drop: seq<bool>)
    requires |drop| == |xs| && OneActiveTrack(xs)
    ensures OneActiveTrack(Sift(xs, drop))
    decreases |xs|
  {
    if xs != [] {
      var rest := xs[1..];
      assert OneActiveTrack(rest) by {
        forall i, j | 0 <= i < j < |rest|
          ensures rest[i].stopping || rest[j].stopping
        {
          assert rest[i] == xs[i + 1] && rest[j] == xs[j + 1];
        }
      }
      SiftKeepsOneActive(rest, drop[1..]);
      SiftMembers(rest, drop[1..]);
      var tail := Sift(rest, drop[1..]);
      forall j | 0 <= j < |tail|
        ensures xs[0].stopping || tail[j].stopping
      {
        var i :| 0 <= i < |rest| && !drop[1..][i] && rest[i] == tail[j];
        assert rest[i] == xs[i + 1];
      }
    }
  }

  lemma {:induction false} SiftKeepsDistinct(xs: seq<Source>, drop: seq<bool>)
    requires |drop| == |xs| && Distinct(xs)
    ensures Distinct(Sift(xs, drop))
    decreases |xs|
  {
    if xs != [] {
      var rest := xs[1..];
      assert Distinct(rest) by {
        forall i, j | 0 <= i < j < |rest|
          ensures rest[i] != rest[j]
        {
          assert rest[i] == xs[i + 1] && rest[j] == xs[j + 1];
        }
      }
      SiftKeepsDistinct(rest, drop[1..]);
      SiftMembers(rest, drop[1..]);
      var tail := Sift(rest, drop[1..]);
      forall j | 0 <= j < |tail|
        ensures xs[0] != tail[j]
      {
        var i :| 0 <= i < |rest| && !drop[1..][i] && rest[i] == tail[j];
        assert rest[i] == xs[i + 1];
      }
    }
  }

  lemma TailKeepsDistinct(xs: seq<Source>)
    requires |xs| > 0 && Distinct(xs)
    ensures Distinct(xs[1..]) && xs[0] !in xs[1..]
  {
    var rest := xs[1..];
    forall i, j | 0 <= i < j < |rest|
      ensures rest[i] != rest[j]
    {
      assert rest[i] == xs[i + 1] && rest[j] == xs[j + 1];
    }
    forall k | 0 <= k < |rest|
      ensures rest[k] != xs[0]
    {
      assert rest[k] == xs[k + 1];
    }
  }

  lemma ConsKeepsDistinct(h: Source, tail: seq<Source>)
    requires Distinct(tail) && h !in tail
    ensures Distinct([h] + tail)
  {
    var r := [h] + tail;
    forall i, j | 0 <= i < j < |r|
      ensures r[i] != r[j]
    {
      assert r[j] == tail[j - 1];
      if i > 0 {
        assert r[i] == tail[i - 1];
      }
    }
  }

  lemma {:induction false} RemoveFirstKeepsDistinct(xs: seq<Source>, v: Source)
    requires Distinct(xs)
    ensures Distinct(RemoveFirst(xs, v)) && v !in RemoveFirst(xs, v)
    decreases |xs|
  {
    if xs != [] {
      var rest := xs[1..];
      TailKeepsDistinct(xs);
      if xs[0] != v {
        RemoveFirstKeepsDistinct(rest, v);
        var tail := RemoveFirst(rest, v);
        assert multiset(rest)[xs[0]] == 0;
        assert multiset(tail)[xs[0]] == 0;
        ConsKeepsDistinct(xs[0], tail);
        assert RemoveFirst(xs, v) == [xs[0]] + tail;
      }
    }
  }

  /** Every entry Displace keeps has the source of some original entry. */
  lemma {:induction false} DisplaceKeepsSources(xs: seq<LoopEntry>, source: Source, stopAll: bool)
    ensures forall j :: 0 <= j < |Displace(xs, source, stopAll)| ==>
      exists i :: 0 <= i < |xs| && xs[i].source == Displace(xs, source, stopAll)[j].source
    decreases |xs|
  {
    if xs != [] {
      var rest := xs[1..];
      DisplaceKeepsSources(rest, source, stopAll);
      var tail := Displace(rest, source, stopAll);
      var h := if xs[0].source == source then [] else [if stopAll then Halt(xs[0]) else xs[0]];
      var r := Displace(xs, source, stopAll);
      assert r == h + tail;
      forall j | 0 <= j < |r|
        ensures exists i :: 0 <= i < |xs| && xs[i].source == r[j].source
      {
        if j < |h| {
          assert xs[0].source == r[j].source;
        } else {
          assert r[j] == tail[j - |h|];
          var k :| 0 <= k < |rest| && rest[k].source == tail[j - |h|].source;
          assert rest[k] == xs[k + 1];
          assert xs[k + 1].source == r[j].source;
        }
      }
    } else {
      assert Displace(xs, source, stopAll) == [];
    }
  }

  /** Drop flags for PlayLooping's first pass: the entry is bound to the source. */
  function BoundTo(xs: seq<LoopEntry>, source: Source): (r: seq<bool>)
    ensures |r| == |xs|
    ensures forall i :: 0 <= i < |xs| ==> (r[i] <==> xs[i].source == source)
  {
    seq(|xs|, i requires 0 <= i < |xs| => xs[i].source == source)
  }

  /** Displace is the order-preserving filter of the entries of other
      sources (each one stopped, with `stopAll`): the survivors keep their
      relative order. */
  lemma {:induction false} DisplaceIsSift(xs: seq<LoopEntry>, source: Source, stopAll: bool)
    ensures Displace(xs, source, stopAll) == Sift(if stopAll then HaltAll(xs) else xs, BoundTo(xs, source))
    decreases |xs|
  {
    var ys := if stopAll then HaltAll(xs) else xs;
    if xs != [] {
      DisplaceIsSift(xs[1..], source, stopAll);
      assert ys[1..] == if stopAll then HaltAll(xs[1..]) else xs[1..];
      assert BoundTo(xs, source)[1..] == BoundTo(xs[1..], source);
    } else {
      assert Displace(xs, source, stopAll) == [];
      assert Sift(ys, BoundTo(xs, source)) == [];
    }
  }

  lemma {:induction false} DisplaceKeepsUniqueSources(xs: seq<LoopEntry>, source: Source, stopAll: bool)
    requires UniqueSources(xs)
    ensures UniqueSources(Displace(xs, source, stopAll))
    decreases |xs|
  {
    if xs != [] {
      var rest := xs[1..];
      TailKeepsUniqueSources(xs);
      DisplaceKeepsUniqueSources(rest, source, stopAll);
      DisplaceKeepsSources(rest, source, stopAll);
      var tail := Displace(rest, source, stopAll);
      var h := if xs[0].source == source then [] else [if stopAll then Halt(xs[0]) else xs[0]];
      forall i, j | 0 <= i < |h| && 0 <= j < |tail|
        ensures h[i].source != tail[j].source
      {
        var k :| 0 <= k < |rest| && rest[k].source == tail[j].source;
      }
      ConsKeepsUniqueSources(h, tail);
      assert Displace(xs, source, stopAll) == h + tail;
    }
  }

  lemma AppendKeepsUniqueSources(xs: seq<LoopEntry>, e: LoopEntry)
    requires UniqueSources(xs)
    requires forall i :: 0 <= i < |xs| ==> xs[i].source != e.source
    ensures UniqueSources(xs + [e])
  {
  }

  lemma InitialRegistry()
    ensures Registry(Initial)
  {
  }

  /** A looping sound leaves exactly one Sounds entry for its source. */
  lemma PlayLoopingSoundKeepsRegistry(m: Manager, source: Source, volumeScale: real, fadeSeconds: real)
    requires Registry(m)
    ensures Registry(PlayLoopingSound(m, source, volumeScale, fadeSeconds))
  {
    var r := PlayLoopingSound(m, source, volumeScale, fadeSeconds);
    var kept := Displace(m.sounds, source, false);
    DisplaceKeepsUniqueSources(m.sounds, source, false);
    var e := Started(source, volumeScale, fadeSeconds, false, m.persistTag);
    AppendKeepsUniqueSources(kept, e);
    assert forall i :: 0 <= i < |r.sounds| ==> r.sounds[i].source == (kept + [e])[i].source;
  }

  /** Looping music leaves exactly one Music entry for its source, and it
      is the only one not fading out. */
  lemma PlayLoopingMusicKeepsRegistry(m: Manager, source: Source, volumeScale: real, fadeSeconds: real, persist: bool)
    requires Registry(m)
    ensures Registry(PlayLoopingMusic(m, source, volumeScale, fadeSeconds, persist))
  {
    var r := PlayLoopingMusic(m, source, volumeScale, fadeSeconds, persist);
    var kept := Displace(m.music, source, true);
    DisplaceKeepsUniqueSources(m.music, source, true);
    var e := Started(source, volumeScale, fadeSeconds, persist, m.persistTag);
    AppendKeepsUniqueSources(kept, e);
    assert forall i :: 0 <= i < |r.music| ==> r.music[i].source == (kept + [e])[i].source;
  }

  lemma StopLoopingKeepsRegistry(m: Manager, ch: Channel, source: Source)
    requires Registry(m)
    ensures Registry(StopLooping(m, ch, source).m)
  {
    var r := StopLooping(m, ch, source).m;
    var xs := Entries(m, ch);
    assert forall i :: 0 <= i < |xs| ==> Entries(r, ch)[i].source == xs[i].source;
    assert forall i :: 0 <= i < |xs| ==> xs[i].stopping ==> Entries(r, ch)[i].stopping;
  }

  lemma PlayOneShotMusicKeepsRegistry(m: Manager, source: Source, clip: Clip, volumeScale: real)
    requires Registry(m)
    ensures Registry(PlayOneShotMusic(m, source, clip, volumeScale).m)
    ensures var xs := PlayOneShotMusic(m, source, clip, volumeScale).m.musicOneShot;
      xs[|xs| - 1] == source && source !in xs[..|xs| - 1]
  {
    RemoveFirstKeepsDistinct(m.musicOneShot, source);
    var xs := PlayOneShotMusic(m, source, clip, volumeScale).m.musicOneShot;
    assert xs[..|xs| - 1] == RemoveFirst(m.musicOneShot, source);
  }

  lemma UpdateKeepsRegistry(m: Manager, soundDone: seq<bool>, musicProbes: seq<Probe>, playing: set<Source>)
    requires |soundDone| == |m.sounds| && |musicProbes| == |m.music|
    requires Registry(m)
    ensures Registry(Update(m, soundDone, musicProbes, playing))
  {
    SiftKeepsUniqueSources(m.sounds, soundDone);
    SiftKeepsUniqueSources(m.music, MusicReaped(musicProbes));
    SiftKeepsOneActive(m.music, MusicReaped(musicProbes));
    SiftKeepsDistinct(m.musicOneShot, Silent(m.musicOneShot, playing));
  }

  lemma SceneLoadedKeepsRegistry(m: Manager, playing: set<Source>)
    requires Registry(m)
    ensures Registry(SceneLoaded(m, playing).m)
  {
    if m.updated && m.stopSoundsOnLevelLoad {
      var live := LiveAfterStop(m, playing);
      SiftKeepsUniqueSources(m.sounds, Evicted(m.sounds, live));
      SiftKeepsUniqueSources(m.music, Evicted(m.music, live));
      SiftKeepsOneActive(m.music, Evicted(m.music, live));
    }
  }

  /** StopAll is idempotent: repeating it changes no list and tells the
      same sources to stop again; it tells every music one-shot source to
      stop. */
  lemma StopAllIdempotent(m: Manager)
    ensures StopAll(StopAll(m).m).m == StopAll(m).m
    ensures StopAll(StopAll(m).m).effects == StopAll(m).effects
    ensures forall s :: s in m.musicOneShot ==> StopSource(s) in StopAll(m).effects
  {
    var r := StopAll(m);
    var r2 := StopAll(r.m);
    assert r2.m.sounds == r.m.sounds;
    assert r2.m.music == r.m.music;
    forall s | s in m.musicOneShot
      ensures StopSource(s) in r.effects
    {
      var i :| 0 <= i < |m.musicOneShot| && m.musicOneShot[i] == s;
      assert r.effects[i] == StopSource(s);
    }
  }

  /** Stopping every loop keeps the registry: no source changes and every
      Music entry is fading out. */
  lemma StopAllKeepsRegistry(m: Manager)
    requires Registry(m)
    ensures Registry(StopAllLoopingSounds(m))
    ensures Registry(StopAll(m).m)
  {
    var r := StopAllLoopingSounds(m);
    assert forall i :: 0 <= i < |r.sounds| ==> r.sounds[i].source == m.sounds[i].source;
    assert forall i :: 0 <= i < |r.music| ==> r.music[i].source == m.music[i].source;
  }

  /** Pausing or resuming touches only the paused flags, so the registry holds. */
  lemma PauseKeepsRegistry(m: Manager)
    requires Registry(m)
    ensures Registry(PauseAll(m)) && Registry(ResumeAll(m))
  {
    var p := PauseAll(m);
    var q := ResumeAll(m);
    assert forall i :: 0 <= i < |m.sounds| ==> p.sounds[i].source == m.sounds[i].source && q.sounds[i].source == m.sounds[i].source;
    assert forall i :: 0 <= i < |m.music| ==> p.music[i].source == m.music[i].source && q.music[i].source == m.music[i].source;
    assert forall i :: 0 <= i < |m.music| ==> p.music[i].stopping == m.music[i].stopping && q.music[i].stopping == m.music[i].stopping;
  }

  /** The volume setters retarget entries but change no source and stop no
      track, so the registry holds. */
  lemma SoundVolumeKeepsRegistry(m: Manager, value: real)
    requires Registry(m)
    ensures Registry(SetSoundVolume(m, value))
  {
    var r := SetSoundVolume(m, value);
    assert forall i :: 0 <= i < |m.sounds| ==> r.sounds[i].source == m.sounds[i].source;
  }

  lemma MusicVolumeKeepsRegistry(m: Manager, value: real)
    requires Registry(m)
    ensures Registry(SetMusicVolume(m, value))
  {
    var r := SetMusicVolume(m, value);
    assert forall i :: 0 <= i < |m.music| ==> r.music[i].source == m.music[i].source && r.music[i].stopping == m.music[i].stopping;
  }

  /** Pause then resume restores every entry. */
  lemma PauseResumeRoundTrip(m: Manager)
    requires forall i :: 0 <= i < |m.sounds| ==> !m.sounds[i].paused
    requires forall i :: 0 <= i < |m.music| ==> !m.music[i].paused
    ensures ResumeAll(PauseAll(m)) == m
  {
    var r := ResumeAll(PauseAll(m));
    assert r.sounds == m.sounds;
    assert r.music == m.music;
  }

  /** Changing the sound multiplier twice is the same as setting the
      second value directly. */
  lemma SoundVolumeLastWins(m: Manager, a: real, b: real)
    ensures SetSoundVolume(SetSoundVolume(m, a), b) == SetSoundVolume(m, b)
  {
    var r1 := SetSoundVolume(SetSoundVolume(m, a), b);
    var r2 := SetSoundVolume(m, b);
    assert forall i :: 0 <= i < |m.sounds| ==> r1.sounds[i] == r2.sounds[i];
    assert r1.sounds == r2.sounds;
  }

  lemma MusicVolumeLastWins(m: Manager, a: real, b: real)
    ensures SetMusicVolume(SetMusicVolume(m, a), b) == SetMusicVolume(m, b)
  {
    var r1 := SetMusicVolume(SetMusicVolume(m, a), b);
    var r2 := SetMusicVolume(m, b);
    assert forall i :: 0 <= i < |m.music| ==> r1.music[i] == r2.music[i];
    assert r1.music == r2.music;
    assert r1.sourceVolume == r2.sourceVolume;
  }

  /** The new loop starts at the scale times the channel multiplier, in the
      current tag, not fading out. */
  lemma NewLoopEntry(source: Source, volumeScale: real, fadeSeconds: real, persist: bool, tag: int, multiplier: real)
    ensures var e := Retarget(Started(source, volumeScale, fadeSeconds, persist, tag), multiplier);
      && e.source == source && e.tag == tag && e.persist == persist && !e.stopping && !e.paused
      && e.fadeInSeconds == fadeSeconds && e.fadeOutSeconds == fadeSeconds
      && e.originalTargetVolume == volumeScale && e.targetVolume == volumeScale * multiplier
  {
  }
}
