/** The static AudioManager: two lists of looping playbacks (Sounds and
    Music), the list of sources playing music one-shots, the duplicate
    throttle for sound one-shots, the global volume multipliers and the
    persist tag that marks which level load a looping playback belongs to.

    The engine is outside the model: what the manager asks of an
    AudioSource is returned as `Effect`s, and what it asks of the engine
    (`isPlaying`, `LoopingAudioSource.Update()`, null checks on destroyed
    objects) comes in as parameters. */
module AudioManager {
  import opened Runtime
  import opened Lists

  /** A game object, compared by identity, with the name it was created
      with and its GetInstanceID(). Several AudioSources may sit on one
      game object; renaming or destroying it affects all of them. */
  datatype GameObject = GameObject(key: nat, name: string, instanceId: int)

  /** An AudioSource, compared by identity, and the game object it sits on. */
  datatype Source = Source(key: nat, gameObject: GameObject)

  /** An AudioClip, compared by identity, with its length in seconds. */
  datatype Clip = Clip(key: nat, length: real)

  datatype Channel = SoundChannel | MusicChannel

  /** The fields of a LoopingAudioSource that the manager reads or writes.
      Its own fade logic is not part of this model: `Stop()` is modelled as
      raising `stopping`, `Pause()`/`Resume()` as `paused`. */
  datatype LoopEntry = LoopEntry(
    source: Source,
    fadeInSeconds: real,
    fadeOutSeconds: real,
    persist: bool,
    tag: int,
    stopping: bool,
    paused: bool,
    originalTargetVolume: real,
    targetVolume: real)

  /** A pending RemoveVolumeFromClip coroutine: it waits `clip.length`
      seconds, of which `waited` have passed. */
  datatype Removal = Removal(clip: Clip, volume: real, waited: real)

  /** Calls the manager makes on an AudioSource. */
  datatype Effect =
    | PlayOneShot(source: Source, clip: Clip, volume: real)
    | StopSource(source: Source)

  /** What `Update` sees of one Music entry: the entry or its AudioSource
      has been destroyed, or else the result of the entry's Update(), which
      is true once its fade-out has finished. */
  datatype Probe = Missing | Present(finished: bool)

  datatype Manager = Manager(
    sounds: seq<LoopEntry>,
    music: seq<LoopEntry>,
    musicOneShot: seq<Source>,
    persisted: multiset<Source>,      // PersistedSounds: one element per persisted entry, by its source
    oneShots: map<Clip, seq<real>>,   // SoundsOneShot: in-flight volumes per clip
    removals: seq<Removal>,
    soundVolume: real,
    musicVolume: real,
    sourceVolume: map<Source, real>,  // `volume` written to music one-shot sources
    renamed: map<GameObject, string>, // game object names the manager has set
    destroyed: set<GameObject>,       // game objects the manager has destroyed
    persistTag: int,
    updated: bool,
    maxDuplicateAudioClips: int,
    stopSoundsOnLevelLoad: bool)

  datatype Outcome = Outcome(m: Manager, effects: seq<Effect>)

  /** The static fields' initial values. */
  const Initial: Manager :=
    Manager([], [], [], multiset{}, map[], [], 1.0, 1.0, map[], map[], {}, 0, false, 4, true)

  const PersistPrefix: string := "PersistedBySoundManager-"

  // ---------------------------------------------------------------------
  // Looping entries

  /** LoopingAudioSource.Stop(). */
  function Halt(e: LoopEntry): (r: LoopEntry)
    ensures r.stopping
    ensures r.(stopping := e.stopping) == e
  {
    e.(stopping := true)
  }

  /** `new LoopingAudioSource(source, fade, fade, persist)`, then
      `Play(volumeScale, true)` and `Tag = persistTag`. */
  function Started(source: Source, volumeScale: real, fadeSeconds: real, persist: bool, tag: int): (r: LoopEntry)
    ensures r.source == source && r.persist == persist && r.tag == tag
    ensures !r.stopping && !r.paused
    ensures r.fadeInSeconds == fadeSeconds && r.fadeOutSeconds == fadeSeconds
    ensures r.originalTargetVolume == volumeScale && r.targetVolume == volumeScale
  {
    LoopEntry(source, fadeSeconds, fadeSeconds, persist, tag, false, false, volumeScale, volumeScale)
  }

  function Entries(m: Manager, ch: Channel): seq<LoopEntry>
  {
    if ch == SoundChannel then m.sounds else m.music
  }

  function WithEntries(m: Manager, ch: Channel, xs: seq<LoopEntry>): (r: Manager)
    ensures Entries(r, ch) == xs
    ensures ch == SoundChannel ==> r == m.(sounds := xs)
    ensures ch == MusicChannel ==> r == m.(music := xs)
  {
    if ch == SoundChannel then m.(sounds := xs) else m.(music := xs)
  }

  /** The first pass of PlayLooping over the existing entries: entries bound
      to `source` are removed, and with `stopAll` every other entry is
      stopped. The survivors keep their order. */
  function Displace(xs: seq<LoopEntry>, source: Source, stopAll: bool): (r: seq<LoopEntry>)
    ensures |r| <= |xs|
    ensures forall i :: 0 <= i < |r| ==> r[i].source != source
    ensures stopAll ==> forall i :: 0 <= i < |r| ==> r[i].stopping
    decreases |xs|
  {
    if xs == [] then []
    else (if xs[0].source == source then [] else [if stopAll then Halt(xs[0]) else xs[0]]) + Displace(xs[1..], source, stopAll)
  }

  /** Displace keeps every entry of another source (stopped, with
      `stopAll`), and without `stopAll` keeps nothing else and changes a
      list with no entry for the source not at all. */
  lemma {:induction false} DisplaceKeepsOthers(xs: seq<LoopEntry>, source: Source, stopAll: bool)
    ensures var r := Displace(xs, source, stopAll);
      && (forall i :: 0 <= i < |xs| && xs[i].source != source ==> (if stopAll then Halt(xs[i]) else xs[i]) in r)
      && (!stopAll ==> forall j :: 0 <= j < |r| ==> r[j] in xs)
      && ((forall i :: 0 <= i < |xs| ==> xs[i].source != source) && !stopAll ==> r == xs)
    decreases |xs|
  {
    if xs != [] {
      var rest := xs[1..];
      DisplaceKeepsOthers(rest, source, stopAll);
      assert forall i :: 1 <= i < |xs| ==> xs[i] == rest[i - 1];
      assert xs == [xs[0]] + rest;
    }
  }

  /** `gameObject.name` of a source as the manager last left it. */
  function CurrentName(m: Manager, s: Source): string
  {
    if s.gameObject in m.renamed then m.renamed[s.gameObject] else s.gameObject.name
  }

  predicate IsDigit(c: char)
  {
    '0' <= c <= '9'
  }

  function DigitChar(d: nat): (c: char)
    requires d < 10
    ensures IsDigit(c)
  {
    ('0' as int + d) as char
  }

  /** Decimal text of a natural number. */
  function NatText(n: nat): (r: string)
    ensures |r| >= 1
    ensures forall k :: 0 <= k < |r| ==> IsDigit(r[k])
    decreases n
  {
    if n < 10 then [DigitChar(n)] else NatText(n / 10) + [DigitChar(n % 10)]
  }

  /** C#'s int.ToString() under the invariant culture: an optional ASCII
      minus sign, then at least one digit. */
  function IntText(i: int): (r: string)
    ensures Numeral(r)
    ensures r[0] == '-' <==> i < 0
  {
    if i < 0 then "-" + NatText(-i) else NatText(i)
  }

  /** Text of the shape int.ToString() produces under the invariant culture. */
  predicate Numeral(s: string)
  {
    && |s| >= 1
    && (s[0] == '-' || IsDigit(s[0]))
    && (s[0] == '-' ==> |s| >= 2)
    && forall k :: 1 <= k < |s| ==> IsDigit(s[k])
  }

  /** The value of a string of decimal digits, most significant first. */
  function DigitsValue(s: string): nat
    requires forall k :: 0 <= k < |s| ==> IsDigit(s[k])
    decreases |s|
  {
    if s == [] then 0
    else
      assert IsDigit(s[|s| - 1]);
      DigitsValue(s[..|s| - 1]) * 10 + (s[|s| - 1] as int - '0' as int)
  }

  /** int.Parse on a numeral. */
  function ParseInt(s: string): int
    requires Numeral(s)
  {
    if s[0] == '-' then -(DigitsValue(s[1..]) as int) else DigitsValue(s)
  }

  /** Reading the decimal text of a natural number back gives the number. */
  lemma {:induction false} NatTextRoundTrip(n: nat)
    ensures DigitsValue(NatText(n)) == n
    decreases n
  {
    var t := NatText(n);
    if n < 10 {
      assert t[..|t| - 1] == [];
    } else {
      NatTextRoundTrip(n / 10);
      assert t[..|t| - 1] == NatText(n / 10);
    }
  }

  /** The instance id written into a persisted name can be read back: the
      text is the integer's own decimal numeral. */
  lemma IntTextRoundTrip(i: int)
    ensures ParseInt(IntText(i)) == i
  {
    if i < 0 {
      NatTextRoundTrip(-i);
      assert IntText(i)[1..] == NatText(-i);
    } else {
      NatTextRoundTrip(i);
    }
  }

  /** The name a persisted source's game object gets: the prefix and the
      instance id are added only when the prefix is absent. The prefix test
      compares characters ordinally. */
  function PersistName(name: string, instanceId: int): (r: string)
    ensures PersistPrefix <= r
    ensures PersistPrefix <= name ==> r == name
    ensures !(PersistPrefix <= name) ==> |r| > |PersistPrefix| + |name| && r[|PersistPrefix|..|PersistPrefix| + |name|] == name
  {
    if PersistPrefix <= name then name
    else
      var r := PersistPrefix + name + "-" + IntText(instanceId);
      assert r[|PersistPrefix|..|PersistPrefix| + |name|] == name;
      r
  }

  /** PlayLooping(source, list, volumeScale, fadeSeconds, persist, stopAll). */
  function PlayLooping(m: Manager, ch: Channel, source: Source, volumeScale: real, fadeSeconds: real, persist: bool, stopAll: bool): (r: Manager)
    ensures Entries(r, ch) == Displace(Entries(m, ch), source, stopAll) + [Started(source, volumeScale, fadeSeconds, persist, m.persistTag)]
    ensures ch == SoundChannel ==> r.music == m.music
    ensures ch == MusicChannel ==> r.sounds == m.sounds
    ensures persist ==> r.persisted == m.persisted + multiset{source} && PersistPrefix <= CurrentName(r, source)
    ensures persist ==> r.renamed.Keys == m.renamed.Keys + {source.gameObject}
    ensures persist ==> forall s: Source :: s.gameObject == source.gameObject ==> PersistPrefix <= CurrentName(r, s)
    ensures !persist ==> r.persisted == m.persisted && r.renamed == m.renamed
    ensures forall s: Source :: s.gameObject != source.gameObject ==> CurrentName(r, s) == CurrentName(m, s)
    ensures r.musicOneShot == m.musicOneShot && r.oneShots == m.oneShots && r.removals == m.removals
    ensures r.persistTag == m.persistTag && r.updated == m.updated && r.destroyed == m.destroyed
    ensures r.soundVolume == m.soundVolume && r.musicVolume == m.musicVolume && r.sourceVolume == m.sourceVolume
    ensures r.maxDuplicateAudioClips == m.maxDuplicateAudioClips && r.stopSoundsOnLevelLoad == m.stopSoundsOnLevelLoad
  {
    var xs := Displace(Entries(m, ch), source, stopAll) + [Started(source, volumeScale, fadeSeconds, persist, m.persistTag)];
    var m1 := WithEntries(m, ch, xs);
    if !persist then m1
    else
      m1.(renamed := m1.renamed[source.gameObject := PersistName(CurrentName(m, source), source.gameObject.instanceId)],
          persisted := m1.persisted + multiset{source})
  }

  /** An entry whose target follows a multiplier: original target times it. */
  function Retarget(e: LoopEntry, multiplier: real): (r: LoopEntry)
    ensures r.targetVolume == e.originalTargetVolume * multiplier
    ensures r.(targetVolume := e.targetVolume) == e
  {
    e.(targetVolume := e.originalTargetVolume * multiplier)
  }

  /** Every entry retargeted (the loop of UpdateSounds). */
  function RetargetAll(xs: seq<LoopEntry>, multiplier: real): (r: seq<LoopEntry>)
    ensures |r| == |xs|
    ensures forall i :: 0 <= i < |xs| ==> r[i] == Retarget(xs[i], multiplier)
  {
    seq(|xs|, i requires 0 <= i < |xs| => Retarget(xs[i], multiplier))
  }

  /** Every entry that is not stopping retargeted (the loop of UpdateMusic):
      a fading-out track keeps the target its fade-out set. */
  function RetargetActive(xs: seq<LoopEntry>, multiplier: real): (r: seq<LoopEntry>)
    ensures |r| == |xs|
    ensures forall i :: 0 <= i < |xs| && xs[i].stopping ==> r[i] == xs[i]
    ensures forall i :: 0 <= i < |xs| && !xs[i].stopping ==> r[i] == Retarget(xs[i], multiplier)
  {
    seq(|xs|, i requires 0 <= i < |xs| => if xs[i].stopping then xs[i] else Retarget(xs[i], multiplier))
  }

  /** UpdateSounds: every Sounds entry's target follows the sound multiplier. */
  function UpdateSounds(m: Manager): (r: Manager)
    ensures r == m.(sounds := r.sounds)
    ensures |r.sounds| == |m.sounds|
    ensures forall i :: 0 <= i < |m.sounds| ==> r.sounds[i].targetVolume == m.sounds[i].originalTargetVolume * m.soundVolume
    ensures forall i :: 0 <= i < |m.sounds| ==> r.sounds[i] == m.sounds[i].(targetVolume := r.sounds[i].targetVolume)
  {
    m.(sounds := RetargetAll(m.sounds, m.soundVolume))
  }

  /** UpdateMusic: every Music entry that is not stopping follows the music
      multiplier, and every music one-shot source plays at the multiplier. */
  function UpdateMusic(m: Manager): (r: Manager)
    ensures r == m.(music := RetargetActive(m.music, m.musicVolume), sourceVolume := r.sourceVolume)
    ensures forall s :: s in m.musicOneShot ==> s in r.sourceVolume && r.sourceVolume[s] == m.musicVolume
    ensures forall s :: s !in m.musicOneShot ==> (s in r.sourceVolume <==> s in m.sourceVolume)
    ensures forall s :: s !in m.musicOneShot && s in m.sourceVolume ==> r.sourceVolume[s] == m.sourceVolume[s]
  {
    m.(music := RetargetActive(m.music, m.musicVolume),
       sourceVolume := m.sourceVolume + map s | s in m.musicOneShot :: m.musicVolume)
  }

  /** The Sounds list a looping play leaves behind, after the volume
      refresh: the new entry is last and the only one bound to its source,
      and every other entry survives with its target following the
      multiplier. */
  lemma SoundLoopsAfterPlay(xs: seq<LoopEntry>, source: Source, e: LoopEntry, multiplier: real)
    requires e.source == source
    ensures var r := RetargetAll(Displace(xs, source, false) + [e], multiplier);
      && |r| >= 1 && |r| - 1 <= |xs|
      && r[|r| - 1] == Retarget(e, multiplier)
      && (forall i :: 0 <= i < |r| - 1 ==> r[i].source != source)
      && (forall i :: 0 <= i < |xs| && xs[i].source != source ==> Retarget(xs[i], multiplier) in r)
  {
    var kept := Displace(xs, source, false);
    DisplaceKeepsOthers(xs, source, false);
    var ys := kept + [e];
    var r := RetargetAll(ys, multiplier);
    forall i | 0 <= i < |xs| && xs[i].source != source
      ensures Retarget(xs[i], multiplier) in r
    {
      var j :| 0 <= j < |kept| && kept[j] == xs[i];
      assert ys[j] == kept[j];
      assert r[j] == Retarget(xs[i], multiplier);
    }
  }

  /** The Music list a looping play leaves behind, after the volume
      refresh: the new entry is last, the only one bound to its source and
      the only one not stopping; every other entry survives stopped, with
      the target it had. */
  lemma MusicLoopsAfterPlay(xs: seq<LoopEntry>, source: Source, e: LoopEntry, multiplier: real)
    requires e.source == source && !e.stopping
    ensures var r := RetargetActive(Displace(xs, source, true) + [e], multiplier);
      && |r| >= 1 && |r| - 1 <= |xs|
      && r[|r| - 1] == Retarget(e, multiplier)
      && (forall i :: 0 <= i < |r| - 1 ==> r[i].source != source && r[i].stopping)
      && (forall i :: 0 <= i < |xs| && xs[i].source != source ==> Halt(xs[i]) in r)
  {
    var kept := Displace(xs, source, true);
    DisplaceKeepsOthers(xs, source, true);
    var ys := kept + [e];
    var r := RetargetActive(ys, multiplier);
    assert forall i :: 0 <= i < |kept| ==> ys[i] == kept[i];
    forall i | 0 <= i < |xs| && xs[i].source != source
      ensures Halt(xs[i]) in r
    {
      var j :| 0 <= j < |kept| && kept[j] == Halt(xs[i]);
      assert r[j] == Halt(xs[i]);
    }
  }

  /** PlayLoopingSound(source, volumeScale, fadeSeconds): never persisted,
      never stops the other loops. */
  function PlayLoopingSound(m: Manager, source: Source, volumeScale: real, fadeSeconds: real): (r: Manager)
    ensures |r.sounds| >= 1 && |r.sounds| - 1 <= |m.sounds|
    ensures r.sounds[|r.sounds| - 1].source == source
    ensures forall i :: 0 <= i < |r.sounds| - 1 ==> r.sounds[i].source != source
    ensures r.sounds[|r.sounds| - 1] == Retarget(Started(source, volumeScale, fadeSeconds, false, m.persistTag), m.soundVolume)
    ensures forall i :: 0 <= i < |m.sounds| && m.sounds[i].source != source ==> Retarget(m.sounds[i], m.soundVolume) in r.sounds
    ensures r.music == m.music && r.persisted == m.persisted && r.persistTag == m.persistTag
  {
    var e := Started(source, volumeScale, fadeSeconds, false, m.persistTag);
    var m1 := PlayLooping(m, SoundChannel, source, volumeScale, fadeSeconds, false, false);
    assert m1.sounds == Displace(m.sounds, source, false) + [e];
    SoundLoopsAfterPlay(m.sounds, source, e, m.soundVolume);
    var r := UpdateSounds(m1);
    assert r.sounds == RetargetAll(m1.sounds, m.soundVolume);
    assert r.sounds[|r.sounds| - 1] == Retarget(e, m.soundVolume);
    r
  }

  /** PlayLoopingMusic(source, volumeScale, fadeSeconds, persist): every
      other music loop is told to stop, so the new track is the only one
      that is not stopping. */
  function PlayLoopingMusic(m: Manager, source: Source, volumeScale: real, fadeSeconds: real, persist: bool): (r: Manager)
    ensures |r.music| >= 1 && |r.music| - 1 <= |m.music|
    ensures r.music[|r.music| - 1].source == source
    ensures forall i :: 0 <= i < |r.music| - 1 ==> r.music[i].source != source && r.music[i].stopping
    ensures r.music[|r.music| - 1] == Retarget(Started(source, volumeScale, fadeSeconds, persist, m.persistTag), m.musicVolume)
    ensures forall i :: 0 <= i < |m.music| && m.music[i].source != source ==> Halt(m.music[i]) in r.music
    ensures persist ==> r.persisted == m.persisted + multiset{source} && PersistPrefix <= CurrentName(r, source)
    ensures !persist ==> r.persisted == m.persisted
    ensures r.sounds == m.sounds && r.persistTag == m.persistTag
  {
    var m1 := PlayLooping(m, MusicChannel, source, volumeScale, fadeSeconds, persist, true);
    MusicOfLoopingMusic(m, m1, source, volumeScale, fadeSeconds, persist);
    UpdateMusic(m1)
  }

  /** The Music list PlayLoopingMusic leaves behind. */
  lemma MusicOfLoopingMusic(m: Manager, m1: Manager, source: Source, volumeScale: real, fadeSeconds: real, persist: bool)
    requires m1 == PlayLooping(m, MusicChannel, source, volumeScale, fadeSeconds, persist, true)
    ensures var r := UpdateMusic(m1).music;
      && |r| >= 1 && |r| - 1 <= |m.music|
      && r[|r| - 1] == Retarget(Started(source, volumeScale, fadeSeconds, persist, m.persistTag), m.musicVolume)
      && (forall i :: 0 <= i < |r| - 1 ==> r[i].source != source && r[i].stopping)
      && (forall i :: 0 <= i < |m.music| && m.music[i].source != source ==> Halt(m.music[i]) in r)
  {
    var e := Started(source, volumeScale, fadeSeconds, persist, m.persistTag);
    assert m1.music == Displace(m.music, source, true) + [e];
    MusicLoopsAfterPlay(m.music, source, e, m.musicVolume);
    assert UpdateMusic(m1).music == RetargetActive(m1.music, m.musicVolume);
  }

  /** The first entry bound to `source`, as the `foreach ... break` finds it. */
  function FirstWith(xs: seq<LoopEntry>, source: Source): (r: Option<nat>)
    ensures r.Some? ==> r.value < |xs| && xs[r.value].source == source
    ensures r.Some? ==> forall j :: 0 <= j < r.value ==> xs[j].source != source
    ensures r.None? ==> forall j :: 0 <= j < |xs| ==> xs[j].source != source
    decreases |xs|
  {
    if xs == [] then None
    else if xs[0].source == source then Some(0)
    else
      match FirstWith(xs[1..], source)
      case None => None
      case Some(k) => Some(k + 1)
  }

  /** StopLooping(source, list): the first entry bound to the source is told
      to stop; with no such entry the source itself is stopped. */
  function StopLooping(m: Manager, ch: Channel, source: Source): (r: Outcome)
    ensures |Entries(r.m, ch)| == |Entries(m, ch)|
    ensures FirstWith(Entries(m, ch), source).None? ==> r == Outcome(m, [StopSource(source)])
    ensures FirstWith(Entries(m, ch), source).Some? ==>
      var k := FirstWith(Entries(m, ch), source).value;
      && r.effects == []
      && Entries(r.m, ch)[k] == Halt(Entries(m, ch)[k])
      && (forall j :: 0 <= j < |Entries(m, ch)| && j != k ==> Entries(r.m, ch)[j] == Entries(m, ch)[j])
    ensures ch == SoundChannel ==> r.m == m.(sounds := r.m.sounds)
    ensures ch == MusicChannel ==> r.m == m.(music := r.m.music)
  {
    var xs := Entries(m, ch);
    match FirstWith(xs, source)
    case None => Outcome(m, [StopSource(source)])
    case Some(k) => Outcome(WithEntries(m, ch, xs[k := Halt(xs[k])]), [])
  }

  function StopLoopingSound(m: Manager, source: Source): (r: Outcome)
    ensures r == StopLooping(m, SoundChannel, source)
    ensures r.m.music == m.music
  {
    StopLooping(m, SoundChannel, source)
  }

  function StopLoopingMusic(m: Manager, source: Source): (r: Outcome)
    ensures r == StopLooping(m, MusicChannel, source)
    ensures r.m.sounds == m.sounds
  {
    StopLooping(m, MusicChannel, source)
  }

  function HaltAll(xs: seq<LoopEntry>): (r: seq<LoopEntry>)
    ensures |r| == |xs|
    ensures forall i :: 0 <= i < |xs| ==> r[i] == Halt(xs[i])
  {
    seq(|xs|, i requires 0 <= i < |xs| => Halt(xs[i]))
  }

  /** StopAllLoopingSounds: every looping entry of both lists is told to stop. */
  function StopAllLoopingSounds(m: Manager): (r: Manager)
    ensures r == m.(sounds := r.sounds, music := r.music)
    ensures |r.sounds| == |m.sounds| && |r.music| == |m.music|
    ensures forall i :: 0 <= i < |r.sounds| ==> r.sounds[i].stopping && r.sounds[i] == Halt(m.sounds[i])
    ensures forall i :: 0 <= i < |r.music| ==> r.music[i].stopping && r.music[i] == Halt(m.music[i])
  {
    m.(sounds := HaltAll(m.sounds), music := HaltAll(m.music))
  }

  /** StopNonLoopingSounds: every music one-shot source is stopped, in list
      order; the list itself is left for Update to reap. */
  function StopNonLoopingSounds(m: Manager): (r: Outcome)
    ensures r.m == m
    ensures |r.effects| == |m.musicOneShot|
    ensures forall i :: 0 <= i < |m.musicOneShot| ==> r.effects[i] == StopSource(m.musicOneShot[i])
  {
    Outcome(m, seq(|m.musicOneShot|, i requires 0 <= i < |m.musicOneShot| => StopSource(m.musicOneShot[i])))
  }

  /** StopAll: both of the above. */
  function StopAll(m: Manager): (r: Outcome)
    ensures r.m == StopAllLoopingSounds(m)
    ensures r.effects == StopNonLoopingSounds(m).effects
    ensures forall e :: e in r.m.sounds + r.m.music ==> e.stopping
  {
    Outcome(StopAllLoopingSounds(m), StopNonLoopingSounds(m).effects)
  }

  /** PauseAll / ResumeAll: every looping entry of both lists. */
  function SetPaused(m: Manager, paused: bool): (r: Manager)
    ensures r == m.(sounds := r.sounds, music := r.music)
    ensures |r.sounds| == |m.sounds| && |r.music| == |m.music|
    ensures forall i :: 0 <= i < |r.sounds| ==> r.sounds[i] == m.sounds[i].(paused := paused)
    ensures forall i :: 0 <= i < |r.music| ==> r.music[i] == m.music[i].(paused := paused)
  {
    m.(sounds := seq(|m.sounds|, i requires 0 <= i < |m.sounds| => m.sounds[i].(paused := paused)),
       music := seq(|m.music|, i requires 0 <= i < |m.music| => m.music[i].(paused := paused)))
  }

  function PauseAll(m: Manager): (r: Manager)
    ensures r == m.(sounds := r.sounds, music := r.music)
    ensures |r.sounds| == |m.sounds| && |r.music| == |m.music|
    ensures forall i :: 0 <= i < |m.sounds| ==> r.sounds[i].paused && r.sounds[i].(paused := m.sounds[i].paused) == m.sounds[i]
    ensures forall i :: 0 <= i < |m.music| ==> r.music[i].paused && r.music[i].(paused := m.music[i].paused) == m.music[i]
  {
    SetPaused(m, true)
  }

  function ResumeAll(m: Manager): (r: Manager)
    ensures r == m.(sounds := r.sounds, music := r.music)
    ensures |r.sounds| == |m.sounds| && |r.music| == |m.music|
    ensures forall i :: 0 <= i < |m.sounds| ==> !r.sounds[i].paused && r.sounds[i].(paused := m.sounds[i].paused) == m.sounds[i]
    ensures forall i :: 0 <= i < |m.music| ==> !r.music[i].paused && r.music[i].(paused := m.music[i].paused) == m.music[i]
  {
    SetPaused(m, false)
  }

  /** The SoundVolume setter. */
  function SetSoundVolume(m: Manager, value: real): (r: Manager)
    ensures r.soundVolume == value
    ensures r == m.(soundVolume := value, sounds := r.sounds)
    ensures |r.sounds| == |m.sounds|
    ensures forall i :: 0 <= i < |m.sounds| ==> r.sounds[i].targetVolume == m.sounds[i].originalTargetVolume * value
    ensures forall i :: 0 <= i < |m.sounds| ==> r.sounds[i] == m.sounds[i].(targetVolume := r.sounds[i].targetVolume)
  {
    UpdateSounds(m.(soundVolume := value))
  }

  /** The MusicVolume setter. */
  function SetMusicVolume(m: Manager, value: real): (r: Manager)
    ensures r.musicVolume == value
    ensures r == m.(musicVolume := value, music := r.music, sourceVolume := r.sourceVolume)
    ensures |r.music| == |m.music|
    ensures forall i :: 0 <= i < |m.music| && !m.music[i].stopping ==> r.music[i] == Retarget(m.music[i], value)
    ensures forall i :: 0 <= i < |m.music| && m.music[i].stopping ==> r.music[i] == m.music[i]
    ensures forall s :: s in m.musicOneShot ==> s in r.sourceVolume && r.sourceVolume[s] == value
  {
    UpdateMusic(m.(musicVolume := value))
  }

  // ---------------------------------------------------------------------
  // One-shots and the duplicate throttle

  /** The in-flight volumes the throttle holds for a clip. */
  function InFlight(m: Manager, clip: Clip): seq<real>
  {
    if clip in m.oneShots then m.oneShots[clip] else []
  }

  /** The request is dropped: the clip's list exists and holds exactly the
      cap. A clip without a list is never dropped. */
  predicate Throttled(m: Manager, clip: Clip)
  {
    clip in m.oneShots && |m.oneShots[clip]| == m.maxDuplicateAudioClips
  }

  /** The volume a one-shot sound plays at: when a copy louder than 0.5 is
      in flight, the damped value (min + max) / (count + 2); otherwise the
      requested scale times the sound multiplier. */
  function RequestedVolume(inFlight: seq<real>, volumeScale: real, soundVolume: real): (v: real)
    ensures |inFlight| == 0 ==> v == volumeScale * soundVolume
    ensures |inFlight| > 0 && SeqMax(inFlight) <= 0.5 ==> v == volumeScale * soundVolume
    ensures |inFlight| > 0 && SeqMax(inFlight) > 0.5 ==>
      v == (SeqMin(inFlight) + SeqMax(inFlight)) / ((|inFlight| + 2) as real)
    ensures |inFlight| > 0 && SeqMax(inFlight) > 0.5 ==> v < SeqMax(inFlight)
  {
    if |inFlight| > 0 && SeqMax(inFlight) > 0.5 then
      var lo := SeqMin(inFlight);
      var hi := SeqMax(inFlight);
      var d := (|inFlight| + 2) as real;
      DampedBelow(lo, hi, d);
      (lo + hi) / d
    else volumeScale * soundVolume
  }

  /** (lo + hi) / d < hi when lo <= hi, hi > 0 and d >= 3. */
  lemma DampedBelow(lo: real, hi: real, d: real)
    requires lo <= hi && 0.0 < hi && 3.0 <= d
    ensures (lo + hi) / d < hi
  {
    assert lo + hi <= 2.0 * hi < 3.0 * hi <= d * hi;
    assert (lo + hi) / d * d == lo + hi;
  }

  /** PlayOneShotSound(source, clip, volumeScale). */
  function PlayOneShotSound(m: Manager, source: Source, clip: Clip, volumeScale: real): (r: Outcome)
    ensures Throttled(m, clip) ==> r == Outcome(m, [])
    ensures !Throttled(m, clip) ==>
      var v := RequestedVolume(InFlight(m, clip), volumeScale, m.soundVolume);
      && r.effects == [PlayOneShot(source, clip, v)]
      && r.m == m.(oneShots := m.oneShots[clip := InFlight(m, clip) + [v]],
                   removals := m.removals + [Removal(clip, v, 0.0)])
  {
    if Throttled(m, clip) then Outcome(m, [])
    else
      var volumes := InFlight(m, clip);
      var v := RequestedVolume(volumes, volumeScale, m.soundVolume);
      Outcome(m.(oneShots := m.oneShots[clip := volumes + [v]],
                 removals := m.removals + [Removal(clip, v, 0.0)]),
              [PlayOneShot(source, clip, v)])
  }

  /** The body of RemoveVolumeFromClip after its wait: one occurrence of
      the volume leaves the clip's list, if the list still exists. */
  function RemoveVolumeFromClip(oneShots: map<Clip, seq<real>>, clip: Clip, volume: real): (r: map<Clip, seq<real>>)
    ensures r.Keys == oneShots.Keys
    ensures clip !in oneShots ==> r == oneShots
    ensures clip in oneShots ==> multiset(r[clip]) == multiset(oneShots[clip]) - multiset{volume}
    ensures clip in oneShots && volume in oneShots[clip] ==> |r[clip]| == |oneShots[clip]| - 1
    ensures clip in oneShots ==> |r[clip]| <= |oneShots[clip]|
    ensures forall c :: c in oneShots && c != clip ==> r[c] == oneShots[c]
  {
    if clip in oneShots then oneShots[clip := RemoveFirst(oneShots[clip], volume)] else oneShots
  }

  /** One frame of the pending removal coroutines, in the order they were
      started: a removal whose wait has run out fires and ends; the others
      keep waiting. */
  function Elapse(oneShots: map<Clip, seq<real>>, pending: seq<Removal>, dt: real): (r: (map<Clip, seq<real>>, seq<Removal>))
    ensures r.0.Keys == oneShots.Keys
    ensures |r.1| <= |pending|
    ensures forall c :: c in oneShots ==> |r.0[c]| <= |oneShots[c]|
    ensures forall i :: 0 <= i < |r.1| ==> r.1[i].waited < r.1[i].clip.length
    decreases |pending|
  {
    if pending == [] then (oneShots, [])
    else
      var p := pending[0];
      var waited := p.waited + dt;
      if p.clip.length <= waited then
        var fired := RemoveVolumeFromClip(oneShots, p.clip, p.volume);
        assert forall c :: c in oneShots ==> c in fired && |fired[c]| <= |oneShots[c]|;
        Elapse(fired, pending[1..], dt)
      else
        var rest := Elapse(oneShots, pending[1..], dt);
        (rest.0, [p.(waited := waited)] + rest.1)
  }

  /** Once every pending removal is due, one frame fires them all. */
  lemma {:induction false} ElapseAllDue(oneShots: map<Clip, seq<real>>, pending: seq<Removal>, dt: real)
    requires forall i :: 0 <= i < |pending| ==> pending[i].clip.length <= pending[i].waited + dt
    ensures Elapse(oneShots, pending, dt).1 == []
    decreases |pending|
  {
    if pending != [] {
      var p := pending[0];
      var rest := pending[1..];
      assert forall i :: 0 <= i < |rest| ==> rest[i] == pending[i + 1];
      assert p.clip.length <= p.waited + dt;
      ElapseAllDue(RemoveVolumeFromClip(oneShots, p.clip, p.volume), rest, dt);
    }
  }

  /** A pending removal whose wait has run out once dt more seconds pass. */
  predicate Due(p: Removal, dt: real)
  {
    p.clip.length <= p.waited + dt
  }

  /** Which pending removals are due this frame. */
  function DueFlags(pending: seq<Removal>, dt: real): (r: seq<bool>)
    ensures |r| == |pending|
    ensures forall i :: 0 <= i < |pending| ==> r[i] == Due(pending[i], dt)
  {
    seq(|pending|, i requires 0 <= i < |pending| => Due(pending[i], dt))
  }

  /** Every pending removal after waiting dt more seconds. */
  function Advanced(pending: seq<Removal>, dt: real): (r: seq<Removal>)
    ensures |r| == |pending|
    ensures forall i :: 0 <= i < |pending| ==> r[i] == pending[i].(waited := pending[i].waited + dt)
  {
    seq(|pending|, i requires 0 <= i < |pending| => pending[i].(waited := pending[i].waited + dt))
  }

  /** The volumes that this frame's due removals for clip c take out. */
  function DueVolumes(pending: seq<Removal>, dt: real, c: Clip): multiset<real>
    decreases |pending|
  {
    if pending == [] then multiset{}
    else (if Due(pending[0], dt) && pending[0].clip == c then multiset{pending[0].volume} else multiset{})
         + DueVolumes(pending[1..], dt, c)
  }

  lemma SubtractTwice<T>(a: multiset<T>, b: multiset<T>, c: multiset<T>)
    ensures a - b - c == a - (b + c)
  {
    assert forall x :: (a - b - c)[x] == (a - (b + c))[x];
  }

  /** One frame of removals, stated without the loop: the removals left
      waiting are exactly the ones not yet due, in their order, each having
      waited dt longer; and each clip's in-flight volumes lose exactly the
      volumes of that clip's due removals. */
  lemma {:induction false} ElapseSpec(oneShots: map<Clip, seq<real>>, pending: seq<Removal>, dt: real)
    ensures Elapse(oneShots, pending, dt).1 == Sift(Advanced(pending, dt), DueFlags(pending, dt))
    ensures forall c :: c in oneShots ==>
      multiset(Elapse(oneShots, pending, dt).0[c]) == multiset(oneShots[c]) - DueVolumes(pending, dt, c)
    decreases |pending|
  {
    if pending != [] {
      var p := pending[0];
      var rest := pending[1..];
      assert Advanced(pending, dt)[1..] == Advanced(rest, dt);
      assert DueFlags(pending, dt)[1..] == DueFlags(rest, dt);
      if Due(p, dt) {
        var fired := RemoveVolumeFromClip(oneShots, p.clip, p.volume);
        ElapseSpec(fired, rest, dt);
        assert Elapse(oneShots, pending, dt) == Elapse(fired, rest, dt);
        forall c | c in oneShots
          ensures multiset(Elapse(oneShots, pending, dt).0[c]) == multiset(oneShots[c]) - DueVolumes(pending, dt, c)
        {
          if c == p.clip {
            SubtractTwice(multiset(oneShots[c]), multiset{p.volume}, DueVolumes(rest, dt, c));
          }
        }
      } else {
        ElapseSpec(oneShots, rest, dt);
      }
    }
  }

  /** One frame of the manager's removal coroutines. */
  function ElapseRemovals(m: Manager, dt: real): (r: Manager)
    ensures r == m.(oneShots := Elapse(m.oneShots, m.removals, dt).0, removals := Elapse(m.oneShots, m.removals, dt).1)
    ensures r.removals == Sift(Advanced(m.removals, dt), DueFlags(m.removals, dt))
    ensures r.oneShots.Keys == m.oneShots.Keys
    ensures forall c :: c in m.oneShots ==> multiset(r.oneShots[c]) == multiset(m.oneShots[c]) - DueVolumes(m.removals, dt, c)
  {
    ElapseSpec(m.oneShots, m.removals, dt);
    var e := Elapse(m.oneShots, m.removals, dt);
    m.(oneShots := e.0, removals := e.1)
  }

  /** PlayOneShotMusic(source, clip, volumeScale): the source moves to the
      end of the music one-shot list and plays at the scale times the
      music multiplier. */
  function PlayOneShotMusic(m: Manager, source: Source, clip: Clip, volumeScale: real): (r: Outcome)
    ensures r.m == m.(musicOneShot := RemoveFirst(m.musicOneShot, source) + [source])
    ensures r.effects == [PlayOneShot(source, clip, volumeScale * m.musicVolume)]
    ensures |r.m.musicOneShot| == if source in m.musicOneShot then |m.musicOneShot| else |m.musicOneShot| + 1
  {
    Outcome(m.(musicOneShot := RemoveFirst(m.musicOneShot, source) + [source]),
            [PlayOneShot(source, clip, volumeScale * m.musicVolume)])
  }

  // ---------------------------------------------------------------------
  // Per-frame update and level loads

  /** Drop flags for Music in Update: a destroyed entry, or one whose
      Update() reports it finished. */
  function MusicReaped(probes: seq<Probe>): (r: seq<bool>)
    ensures |r| == |probes|
    ensures forall i :: 0 <= i < |probes| ==> (r[i] <==> probes[i] != Present(false))
  {
    seq(|probes|, i requires 0 <= i < |probes| => probes[i] != Present(false))
  }

  /** Sources of finished Music entries from an earlier level load, whose
      game objects Update destroys. */
  function StaleFinished(xs: seq<LoopEntry>, probes: seq<Probe>, tag: int): set<GameObject>
    requires |probes| == |xs|
  {
    set i | 0 <= i < |xs| && probes[i] == Present(true) && xs[i].tag != tag :: xs[i].source.gameObject
  }

  /** Drop flags for music one-shots: the source is no longer playing. */
  function Silent(xs: seq<Source>, playing: set<Source>): (r: seq<bool>)
    ensures |r| == |xs|
    ensures forall i :: 0 <= i < |xs| ==> (r[i] <==> xs[i] !in playing)
  {
    seq(|xs|, i requires 0 <= i < |xs| => xs[i] !in playing)
  }

  /** Music after Update's backwards loop: the entries still fading or
      playing, in order. */
  function ReapMusic(xs: seq<LoopEntry>, probes: seq<Probe>): (r: seq<LoopEntry>)
    requires |probes| == |xs|
    ensures r == Sift(xs, MusicReaped(probes))
    ensures forall i :: 0 <= i < |xs| && probes[i] == Present(false) ==> xs[i] in r
    ensures forall e :: e in r ==> exists i :: 0 <= i < |xs| && probes[i] == Present(false) && xs[i] == e
  {
    var flags := MusicReaped(probes);
    var r := Sift(xs, flags);
    SiftMembers(xs, flags);
    forall e | e in r
      ensures exists i :: 0 <= i < |xs| && probes[i] == Present(false) && xs[i] == e
    {
      var j :| 0 <= j < |r| && r[j] == e;
      var i :| 0 <= i < |xs| && !flags[i] && xs[i] == r[j];
    }
    r
  }

  /** MusicOneShot after Update's backwards loop: the sources still playing. */
  function ReapOneShots(xs: seq<Source>, playing: set<Source>): (r: seq<Source>)
    ensures r == Sift(xs, Silent(xs, playing))
    ensures forall s :: s in r <==> s in xs && s in playing
  {
    var flags := Silent(xs, playing);
    var r := Sift(xs, flags);
    SiftMembers(xs, flags);
    forall s | s in r
      ensures s in xs && s in playing
    {
      var j :| 0 <= j < |r| && r[j] == s;
      var i :| 0 <= i < |xs| && !flags[i] && xs[i] == r[j];
    }
    forall s | s in xs && s in playing
      ensures s in r
    {
      var i :| 0 <= i < |xs| && xs[i] == s;
      assert !flags[i];
    }
    r
  }

  /** Sounds after Update's backwards loop: the entries whose Update() did
      not report them finished. */
  function ReapSounds(xs: seq<LoopEntry>, done: seq<bool>): (r: seq<LoopEntry>)
    requires |done| == |xs|
    ensures r == Sift(xs, done)
    ensures forall i :: 0 <= i < |xs| && !done[i] ==> xs[i] in r
    ensures forall e :: e in r ==> exists i :: 0 <= i < |xs| && !done[i] && xs[i] == e
  {
    var r := Sift(xs, done);
    SiftMembers(xs, done);
    forall e | e in r
      ensures exists i :: 0 <= i < |xs| && !done[i] && xs[i] == e
    {
      var j :| 0 <= j < |r| && r[j] == e;
    }
    r
  }

  /** The MonoBehaviour Update. `soundDone[i]` is what `Sounds[i].Update()`
      returns, `musicProbes[i]` what Update sees of `Music[i]`, and
      `playing` the sources whose `isPlaying` holds. */
  function Update(m: Manager, soundDone: seq<bool>, musicProbes: seq<Probe>, playing: set<Source>): (r: Manager)
    requires |soundDone| == |m.sounds| && |musicProbes| == |m.music|
    ensures r.updated
    ensures r.sounds == ReapSounds(m.sounds, soundDone)
    ensures r.music == ReapMusic(m.music, musicProbes)
    ensures r.musicOneShot == ReapOneShots(m.musicOneShot, playing)
    ensures forall g :: g in r.destroyed <==> (g in m.destroyed ||
      exists i :: 0 <= i < |m.music| && musicProbes[i] == Present(true) && m.music[i].tag != m.persistTag && m.music[i].source.gameObject == g)
    ensures r == m.(updated := true, sounds := r.sounds, music := r.music, musicOneShot := r.musicOneShot, destroyed := r.destroyed)
  {
    m.(updated := true,
       sounds := ReapSounds(m.sounds, soundDone),
       music := ReapMusic(m.music, musicProbes),
       musicOneShot := ReapOneShots(m.musicOneShot, playing),
       destroyed := m.destroyed + StaleFinished(m.music, musicProbes, m.persistTag))
  }

  /** Drop flags for StopLoopingListOnLevelLoad: not persisted, or its
      source is no longer playing. */
  function Evicted(xs: seq<LoopEntry>, live: set<Source>): (r: seq<bool>)
    ensures |r| == |xs|
    ensures forall i :: 0 <= i < |xs| ==> (r[i] <==> !xs[i].persist || xs[i].source !in live)
  {
    seq(|xs|, i requires 0 <= i < |xs| => !xs[i].persist || xs[i].source !in live)
  }

  /** StopLoopingListOnLevelLoad: keeps exactly the persisted entries whose
      source is still playing, in order. */
  function SurvivorsOfLoad(xs: seq<LoopEntry>, live: set<Source>): (r: seq<LoopEntry>)
    ensures r == Sift(xs, Evicted(xs, live))
    ensures forall e :: e in r <==> e in xs && e.persist && e.source in live
  {
    var flags := Evicted(xs, live);
    var r := Sift(xs, flags);
    SiftMembers(xs, flags);
    assert forall e :: e in r ==> e in xs && e.persist && e.source in live by {
      forall e | e in r
        ensures e in xs && e.persist && e.source in live
      {
        var j :| 0 <= j < |r| && r[j] == e;
        var i :| 0 <= i < |xs| && !flags[i] && xs[i] == r[j];
      }
    }
    assert forall e :: e in xs && e.persist && e.source in live ==> e in r by {
      forall e | e in xs && e.persist && e.source in live
        ensures e in r
      {
        var i :| 0 <= i < |xs| && xs[i] == e;
        assert !flags[i];
      }
    }
    r
  }

  /** Sources that are playing once StopNonLoopingSounds has stopped every
      music one-shot source. */
  function LiveAfterStop(m: Manager, playing: set<Source>): (live: set<Source>)
    ensures forall s :: s in live <==> s in playing && s !in m.musicOneShot
  {
    playing - set s | s in m.musicOneShot
  }

  /** SceneManagerSceneLoaded. `playing` holds the sources whose
      `isPlaying` holds when the notification arrives. */
  function SceneLoaded(m: Manager, playing: set<Source>): (r: Outcome)
    ensures !m.updated || !m.stopSoundsOnLevelLoad ==> r == Outcome(m, [])
    ensures m.updated && m.stopSoundsOnLevelLoad ==>
      var live := LiveAfterStop(m, playing);
      && r.m.persistTag == m.persistTag + 1
      && !r.m.updated
      && r.effects == StopNonLoopingSounds(m).effects
      && r.m.sounds == SurvivorsOfLoad(m.sounds, live)
      && r.m.music == SurvivorsOfLoad(m.music, live)
      && r.m.oneShots == map[]
      && r.m.persisted == multiset{}
      && (forall s :: s in m.persisted && s !in live ==> s.gameObject in r.m.destroyed)
      && (forall g :: g in r.m.destroyed ==> g in m.destroyed || exists s :: s in m.persisted && s !in live && s.gameObject == g)
      && r.m == m.(persistTag := r.m.persistTag, updated := false, sounds := r.m.sounds, music := r.m.music,
                   oneShots := map[], persisted := multiset{}, destroyed := r.m.destroyed)
  {
    if !m.updated || !m.stopSoundsOnLevelLoad then Outcome(m, [])
    else
      var live := LiveAfterStop(m, playing);
      Outcome(m.(persistTag := m.persistTag + 1,
                 updated := false,
                 sounds := SurvivorsOfLoad(m.sounds, live),
                 music := SurvivorsOfLoad(m.music, live),
                 oneShots := map[],
                 destroyed := m.destroyed + (set s | s in m.persisted && s !in live :: s.gameObject),
                 persisted := multiset{}),
              StopNonLoopingSounds(m).effects)
  }
}
