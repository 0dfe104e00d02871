# AudioSystem core in Dafny

A Dafny model of the core of the AudioSystem package for Unity. The package has three layers.

- **Sound** (`Sound.cs`): one named logical sound with one AudioSource per clip variant. It crossfades between variants with three kinds of fade coroutine: a play fade, one stop fade per variant, and a pitch fade.
- **AudioManager** (`AudioManager.cs`): the static manager. It holds:
  - two lists of looping playbacks, Sounds and Music;
  - the music one-shot sources;
  - a duplicate throttle for one-shot sounds, which caps and damps copies of the same clip;
  - the global sound and music multipliers;
  - the persist tag, which decides what survives a level load.
- **Routing** (`AudioController.cs`, `LoopingAudio.cs`, `OneShotAudio.cs`): a name-keyed dictionary of Sounds, and index-modulo selection of a source or clip that is routed to the music or the sound channel.

Everything is modelled as immutable datatypes and pure transition functions over `real` volumes.

- **Coroutines are timers.** A coroutine is a `Fade.Timer`. `StartCoroutine` runs the routine synchronously up to its first `yield`, using the calling frame's `deltaTime` (`Fade.Begin`). Each later frame resumes it once (`Fade.Advance`). `StopCoroutine` makes it stop running (`Fade.Cancel`).
- **Coroutine handles are options.** A handle field of a Sound is an `Option<Timer>`. A routine that finishes before its first `yield` makes `StartCoroutine` return null, and the field becomes `None` (`Fade.Handle`). A handle kept for a routine that was stopped or finished later stays set, as a timer that no longer runs.
- **Exceptions are failures.** The exceptions the code raises by itself become `Failure` values of `Runtime.Result`:
  - division by zero on an empty array;
  - a negative index left by C#'s `%`;
  - a missing dictionary key;
  - a duplicate `Dictionary.Add`.

  An exception raised inside a coroutine step is different: the engine logs it and the caller of `StartCoroutine` returns normally. So `SetPitch` on a Sound without clips succeeds. Its routine throws on its first read, and the pitch handle becomes null.
- **C# remainder.** C#'s truncating `%` is modelled exactly (`Runtime.CsRem`).
- **Game objects.** An AudioSource sits on a game object (`AudioManager.GameObject`), and several sources may share one. Renaming and destroying act on the game object, so they reach every source on it.
- **The engine is an input or an output.**
  - What the manager asks of an AudioSource (`PlayOneShot`, `Stop`) is returned as an `Effect`.
  - What it reads from the engine comes in as a parameter: `isPlaying`, the result of `LoopingAudioSource.Update()`, and whether a Music entry is null.
  - Destroyed game objects are recorded in the manager's `destroyed` set.
- **List loops.** The backwards `RemoveAt` loops of the manager are modelled twice:
  - as an order-preserving filter (`Lists.Sift`), which the functional model uses;
  - as imperative loops in `ManagerLoops`, each proved equal to that filter.

Modules:

- `Runtime`: options, faults, C# remainder, the integer `Random.Range`.
- `Lists`: the filter, `List.Remove`, minimum and maximum.
- `Fade`: `Mathf.Clamp01`, `Mathf.Lerp`, fade timers.
- `Sound`: the Sound state machine.
- `SoundInvariants`: its invariant and crossfade properties.
- `AudioManager`: manager state and operations.
- `ManagerProperties`: throttle, registry and level-load properties.
- `ManagerLoops`: the loops as written.
- `AudioController`, `LoopingAudio`, `OneShotAudio`: the routing layers.

## Behaviour worth knowing

- **Zero blend time.** A blend time of 0 (or less) makes a fade routine write no value at all. The routine finishes inside `StartCoroutine`, which then hands back a null handle (`Fade.Handle`). So a Sound played with blend time 0 right after `Initialize` plays its variant at volume 0, does not count as playing, and a following `Stop` does nothing (`SoundInvariants.ZeroBlendPlaysSilently`).
- **Play on the current variant.** `Play` on the current variant while the play handle is set cancels the fade-in where it stands and returns. The fade is not restarted. The handle stays set, so the Sound still counts as playing.
- **Out-of-range indices fault.**
  - An empty clip or source array divides by zero.
  - A negative index leaves a negative remainder, and the array access throws.
  - `LoopingAudio.Play` records the negative index before it throws, so the next `Stop` throws too.
- **Unknown names throw.** An unknown name in `AudioController` throws `KeyNotFound`.
- **The cap test is an equality.** The duplicate cap is checked with `==` on an existing list. The first request for a clip therefore always plays, even with a cap of 0. A list that is already longer than a lowered cap never throttles.
- **Level loads keep persisted entries as they are.** A level load keeps the persisted, still-playing entries without retagging them. `Update` later destroys a stale-tagged Music entry only once its `Update()` reports it finished.

## Model

| member | source | states |
|---|---|---|
| Runtime.CsRem | Sound.cs:109 | C#'s `%` for a positive divisor: the remainder lies strictly between -n and n, takes the sign of the dividend, and is the dividend itself when that is already smaller than n in magnitude |
| Runtime.CsRemAgrees | Sound.cs:109 | the C# remainder differs from the dividend by a multiple of the divisor, and equals the ordinary remainder for a non-negative dividend |
| Runtime.IsDraw | Sound.cs:139 | a draw of the integer Random.Range(0, n) is a non-negative number that is its own C# remainder modulo a positive n |
| Lists.SiftMembers | AudioManager.cs:65-71 | removing the flagged positions keeps every unflagged element and nothing else |
| Lists.SiftExtremes | AudioManager.cs:91-97 | with no position flagged the list is unchanged; with every position flagged it becomes empty |
| Lists.RemoveFirst | AudioManager.cs:184 | `List.Remove(v)` takes exactly one occurrence of v out of the contents and leaves a list without v unchanged |
| Lists.SeqMin | AudioManager.cs:271-277 | the minimum of a non-empty list is one of its elements and no element is smaller |
| Lists.SeqMax | AudioManager.cs:271-277 | the maximum of a non-empty list is one of its elements and no element is larger |
| Fade.Clamp01 | Sound.cs:58-59 | the interpolation parameter is clamped into [0, 1] and left alone inside it |
| Fade.Lerp | Sound.cs:59 | an interpolated value never leaves the segment between its ends and is exactly the target once the parameter reaches 1 |
| Fade.Begin | Sound.cs:49-61 | starting a fade with a positive duration writes one value on the segment at elapsed time dt (the target itself when the first frame covers the duration) and leaves it running; a non-positive duration writes nothing and completes at once |
| Fade.Advance | Sound.cs:55-62 | a resumed fade either writes the next value on its segment (the target once elapsed time reaches the duration) or, once the duration is reached, exits without a write; a stopped fade does nothing |
| Fade.Cancel | Sound.cs:121 | a stopped coroutine no longer runs and keeps its progress |
| Fade.RunStaysIdle | Sound.cs:121 | a finished or stopped fade stays as it is for any number of frames |
| Fade.RunCompletes | Sound.cs:55-62 | every fade terminates: once n - 1 frames cover the remaining duration, it has finished after n frames, with elapsed time at least the duration |
| Fade.Handle | Sound.cs:123-128 | the handle StartCoroutine returns is null exactly when the routine already finished, and otherwise is the running routine |
| Fade.HandleOfBegin | Sound.cs:49-63 | a fade routine leaves a handle exactly when its duration is positive, and that handle is the routine after one frame of time |
| Sound.Initialize | Sound.cs:31-47 | one silent voice per clip at the configured pitch, variant 0 selected, no coroutine handle of any kind |
| Sound.WithPitch | Sound.cs:94-97 | a pitch write reaches every variant's source and changes nothing else |
| Sound.StartPlay | Sound.cs:49-63 | the play routine selects and starts the variant before returning, ramps it from 0 towards the configured volume and touches no other variant; the play handle is set exactly when the blend time is positive |
| Sound.StartStop | Sound.cs:65-82 | the stop routine fades the current variant from its present volume to 0 and stores its handle in that variant's stop slot; with a non-positive blend time the handle is null and the voice is stopped at once |
| Sound.Play | Sound.cs:107-130 | Play faults exactly on an empty Sound or a negative remainder; on success the selected variant is the C# remainder of the index, the selected variant has no stop fade, and the Sound counts as playing exactly when the blend time is positive or it was already playing that variant |
| Sound.PlaySameVariant | Sound.cs:119-122 | Play on the current variant while playing freezes the fade-in, keeps the handle set and leaves every voice as it was |
| Sound.PlaySwitchesVariant | Sound.cs:123-124 | Play on another variant while playing starts a stop fade on the old variant and a fresh play fade on the new one, which becomes current; other variants are untouched |
| Sound.PlayFromIdle | Sound.cs:126-129 | Play from idle starts a play fade on the selected variant; stop fades on other variants keep running |
| Sound.PlayIndex | Sound.cs:132-135 | Play(index) is Play with the default blend time and succeeds exactly on a non-empty Sound with a non-negative remainder |
| Sound.PlayBlend | Sound.cs:137-140 | a random draw always selects an existing variant; only an empty Sound faults, by division by zero |
| Sound.PlayAny | Sound.cs:142-145 | Play() selects the drawn variant with the default blend time and faults only on an empty Sound |
| Sound.Stop | Sound.cs:151-158 | Stop is a no-op when idle; otherwise the Sound is no longer playing and the current variant alone gets a stop fade, whose handle is null and whose voice is stopped when the blend time is not positive |
| Sound.StopDefault | Sound.cs:160-163 | Stop() uses the default blend time and always leaves the Sound not playing |
| Sound.SetPitch | Sound.cs:169-178 | a new pitch fade from the current variant's pitch replaces any running one, and its handle is set exactly when the Sound has clips and the blend time is positive; volumes and play state are untouched; on a Sound without clips the routine throws inside the engine, so SetPitch only drops the pitch handle |
| Sound.SetPitchDefault | Sound.cs:180-183 | SetPitch(target) fades towards the target with the default blend time; with a non-positive default it only drops the pitch handle |
| Sound.ResetPitch | Sound.cs:185-188 | ResetPitch fades towards the configured pitch; with a non-positive default blend time it only drops the pitch handle |
| Sound.StopStep | Sound.cs:71-81 | a frame of a stop fade either writes a volume or, on completion, stops the voice and clears its own slot |
| Sound.StopSteps | Sound.cs:65-82 | every variant's stop fade advances independently in one frame |
| Sound.PlayStep | Sound.cs:55-62 | a frame of the play fade writes only the current variant's volume and never clears the play handle |
| Sound.PitchStep | Sound.cs:89-102 | a frame of the pitch fade writes one pitch to every voice, never a volume, and clears the pitch handle on completion |
| Sound.Tick | Sound.cs:49-103 | one frame keeps the selected variant and whether a play handle is set; a completed stop fade leaves its voice stopped and a completed pitch fade clears the pitch handle |
| Sound.TickN | Sound.cs:49-103 | frames never change the selected variant or the Sound's configuration |
| SoundInvariants.InitializeEstablishesInv | Sound.cs:31-47 | an initialized Sound satisfies the invariant: no variant is both fading in and fading out, voice volumes stay within [0, volume], and all variants share one pitch |
| SoundInvariants.StartPlayKeepsInv | Sound.cs:49-63 | starting a play fade on a variant without a stop fade keeps the invariant |
| SoundInvariants.StartStopKeepsInv | Sound.cs:65-82 | starting a stop fade on the current variant keeps the invariant |
| SoundInvariants.PlayKeepsInv | Sound.cs:107-130 | every successful Play keeps the invariant |
| SoundInvariants.StopKeepsInv | Sound.cs:151-158 | Stop keeps the invariant |
| SoundInvariants.SetPitchKeepsInv | Sound.cs:169-178 | SetPitch keeps the invariant, so every variant keeps a common pitch |
| SoundInvariants.TickNKeepsInv | Sound.cs:49-103 | any number of frames keep the invariant, and the play handle carries the fade-in's progress |
| SoundInvariants.FadeInReachesVolume | Sound.cs:55-62 | once the fade-in's duration is covered, the playing variant sits at exactly the configured volume |
| SoundInvariants.StoppedStaysStopped | Sound.cs:80-81 | a stopped variant without a stop fade stays stopped over any number of frames |
| SoundInvariants.StopFadeEnds | Sound.cs:71-81 | once a stop fade's duration is covered, its voice is stopped and its slot cleared |
| SoundInvariants.QuietTicks | Sound.cs:55-62 | with no fade running, frames change no volume and start or stop no voice |
| SoundInvariants.ZeroBlendPlaysSilently | Sound.cs:49-63 | with blend time 0 the routine writes no volume and leaves no handle, so a variant played right after Initialize keeps playing at volume 0, the Sound does not count as playing, and Stop leaves it as it is |
| SoundInvariants.SwitchLeavesOneStopFade | Sound.cs:119-124 | switching variants leaves exactly one running play fade (new variant) and one running stop fade (old variant) |
| SoundInvariants.CrossfadeSetsUp | Sound.cs:126-129 | Play on a fresh Sound leaves it playing the chosen variant with no stop fade anywhere |
| SoundInvariants.CrossfadeSettles | Sound.cs:107-130 | Play(i) then Play(j), ticked past the blend time, leaves i stopped and j playing at exactly the configured volume |
| AudioController.RegisterSpec | AudioController.cs:13-17 | registration succeeds exactly when names are distinct and new, fails with a duplicate key otherwise, and on success maps each name to its freshly initialized Sound while keeping earlier entries |
| AudioController.RegisterSucceeds | AudioController.cs:13-17 | registration succeeds exactly when the configured names are pairwise distinct and none is already registered |
| AudioController.RegisterContents | AudioController.cs:13-17 | after a successful registration the dictionary's keys are the earlier ones plus the configured names, each bound to its freshly initialized Sound |
| AudioController.Register | AudioController.cs:13-17 | registering one Sound fails only with a duplicate key and otherwise keeps every earlier name bound to its Sound |
| AudioController.Awake | AudioController.cs:11-18 | Awake succeeds exactly on distinct names, and then every configured Sound is registered, initialized, under its own name |
| AudioController.Apply | AudioController.cs:20-63 | each forwarded operation keeps the Sound well shaped and its configuration unchanged |
| AudioController.Dispatch | AudioController.cs:20-63 | an unknown name fails with KeyNotFound; otherwise the named Sound's own operation decides success, and only that Sound changes |
| AudioController.StopAndPitchNeverFail | AudioController.cs:40-63 | the Stop and pitch calls never fail on a registered name; on a Sound without clips a pitch call only drops its pitch handle |
| AudioController.AwakeThenDispatch | AudioController.cs:11-63 | after Awake a call by name acts on the freshly initialized Sound configured under that name |
| AudioManager.Displace | AudioManager.cs:190-202 | the first pass of PlayLooping leaves no entry for the source, and with stopAll every survivor is stopping |
| AudioManager.DisplaceKeepsOthers | AudioManager.cs:190-202 | entries of other sources survive (stopped with stopAll); without stopAll nothing new appears and a list without the source is unchanged |
| AudioManager.Halt | AudioManager.cs:200 | telling an entry to stop raises its stopping flag and changes nothing else about it |
| AudioManager.Started | AudioManager.cs:207-209 | a new loop entry carries the given source, fades, persist flag and tag, targets the volume scale originally and now, and is neither stopping nor paused |
| AudioManager.IntText | AudioManager.cs:215 | an instance id is written as an optional minus sign, present exactly for a negative id, followed by decimal digits |
| AudioManager.NatTextRoundTrip | AudioManager.cs:215 | reading back the decimal digits written for a non-negative number gives that number |
| AudioManager.IntTextRoundTrip | AudioManager.cs:215 | reading back the text written for any instance id gives that id, so distinct ids give distinct names |
| AudioManager.PersistName | AudioManager.cs:213-216 | the persisted name always starts with the prefix, an already prefixed name is kept, and otherwise the old name follows the prefix |
| AudioManager.PlayLooping | AudioManager.cs:188-222 | the list becomes the displaced list plus one new entry for the source in the current tag; a persisted play adds the source to the persisted set and renames its game object with the prefix, so every source on that object sees the new name; no other game object's name changes |
| AudioManager.Retarget | AudioManager.cs:158 | an entry's target becomes its original target times the multiplier and nothing else about it changes |
| AudioManager.RetargetAll | AudioManager.cs:156-159 | every entry is retargeted, in place |
| AudioManager.RetargetActive | AudioManager.cs:164-170 | entries that are stopping keep their target; every other entry is retargeted |
| AudioManager.UpdateSounds | AudioManager.cs:154-160 | the Sounds list keeps its length, each entry's target becomes its own original target times the sound multiplier, every other field of each entry is kept, and the rest of the manager is unchanged |
| AudioManager.UpdateMusic | AudioManager.cs:162-176 | every Music entry that is not stopping follows the music multiplier, and every music one-shot source's volume is the multiplier itself; other sources' volumes are untouched |
| AudioManager.SoundLoopsAfterPlay | AudioManager.cs:188-210 | after a looping sound play and the volume refresh, the new entry is last and alone for its source, and every other entry survives with its target following the sound multiplier |
| AudioManager.MusicLoopsAfterPlay | AudioManager.cs:188-210 | after a looping music play and the volume refresh, the new entry is last, alone for its source and the only one not stopping; every other entry survives stopped |
| AudioManager.PlayLoopingSound | AudioManager.cs:297-301 | the new entry is last, the only one for its source, at scale times the sound multiplier; entries of other sources survive retargeted; Music and the persisted set are untouched |
| AudioManager.PlayLoopingMusic | AudioManager.cs:328-332 | the new track is last, the only one for its source, and every earlier Music entry is stopping; a persisted track joins the persisted set with the prefixed name |
| AudioManager.FirstWith | AudioManager.cs:226-234 | finds the lowest index bound to the source, or reports that none is |
| AudioManager.StopLooping | AudioManager.cs:224-240 | the first entry for the source is told to stop and nothing else changes; with no such entry the source itself is stopped |
| AudioManager.StopLoopingSound | AudioManager.cs:338-341 | StopLooping on the Sounds list; Music is untouched |
| AudioManager.StopLoopingMusic | AudioManager.cs:347-350 | StopLooping on the Music list; Sounds is untouched |
| AudioManager.StopAllLoopingSounds | AudioManager.cs:364-375 | every entry of both lists is told to stop, in place, and nothing else changes |
| AudioManager.StopNonLoopingSounds | AudioManager.cs:380-386 | every music one-shot source is stopped, in list order, and no state changes |
| AudioManager.StopAll | AudioManager.cs:355-359 | both of the above: every loop is stopping and every music one-shot source is stopped |
| AudioManager.SetPaused | AudioManager.cs:391-418 | pausing or resuming touches only the paused flag of every entry of both lists |
| AudioManager.PauseAll | AudioManager.cs:391-402 | both lists keep their length and every entry is paused with all its other fields kept; nothing else in the manager changes |
| AudioManager.ResumeAll | AudioManager.cs:407-418 | both lists keep their length and every entry is resumed with all its other fields kept; nothing else in the manager changes |
| AudioManager.SetSoundVolume | AudioManager.cs:436-444 | the sound multiplier is set and every Sounds entry's target becomes its original target times it |
| AudioManager.SetMusicVolume | AudioManager.cs:423-431 | the music multiplier is set; non-stopping Music entries follow it, stopping ones keep their target, and music one-shot sources play at the multiplier |
| AudioManager.RequestedVolume | AudioManager.cs:271-284 | no copy in flight, or none louder than 0.5, gives scale times the sound multiplier; otherwise (min + max) / (count + 2), strictly below the loudest copy |
| AudioManager.PlayOneShotSound | AudioManager.cs:258-289 | a full list drops the request with no effect and no change; otherwise the clip plays at the requested volume, which is appended to its list and scheduled for removal |
| AudioManager.RemoveVolumeFromClip | AudioManager.cs:178-186 | after the wait exactly one occurrence of the volume leaves the clip's list; a clip whose list was cleared is left alone |
| AudioManager.Elapse | AudioManager.cs:178-186 | one frame of waiting removals keeps the clips, leaves only removals not yet due, and never lengthens an in-flight list |
| AudioManager.ElapseSpec | AudioManager.cs:178-186 | after a frame the waiting removals are exactly the not-yet-due ones, in order, each advanced by the frame time, and each clip's in-flight volumes lose exactly the volumes of its due removals, as multisets |
| AudioManager.ElapseRemovals | AudioManager.cs:178-186 | the manager's frame of removals keeps the clips, leaves exactly the advanced not-yet-due removals in order, and takes exactly the due volumes out of each clip's list |
| AudioManager.ElapseAllDue | AudioManager.cs:178-186 | once every waiting removal is due, a frame leaves none waiting |
| AudioManager.PlayOneShotMusic | AudioManager.cs:309-319 | the source plays the clip at scale times the music multiplier and moves to the end of the music one-shot list, occurring there once |
| AudioManager.ReapSounds | AudioManager.cs:65-71 | a Sounds entry is removed exactly when its Update() reports it finished; survivors keep their order |
| AudioManager.ReapMusic | AudioManager.cs:73-89 | a Music entry is kept exactly when it exists and its Update() reports it unfinished; survivors keep their order |
| AudioManager.ReapOneShots | AudioManager.cs:91-97 | exactly the music one-shot sources still playing remain, in order |
| AudioManager.Update | AudioManager.cs:61-98 | Update sets the updated flag, reaps the three lists, and destroys exactly the game objects of the finished Music entries of an earlier tag |
| AudioManager.SurvivorsOfLoad | AudioManager.cs:113-122 | a level load keeps exactly the persisted entries whose source still plays, in order |
| AudioManager.SceneLoaded | AudioManager.cs:137-152 | without the guard nothing happens; otherwise the tag rises by one, the guard is cleared, music one-shots are stopped, both lists keep only persisted playing entries, the throttle and persisted set are emptied, and exactly the game objects of persisted sources no longer playing are added to the destroyed ones |
| ManagerLoops.RemoveFlaggedBackwards | AudioManager.cs:65-71 | the backwards RemoveAt loop computes the order-preserving filter |
| ManagerLoops.ReapMusicBackwards | AudioManager.cs:73-89 | the Music loop of Update computes the same list and destroys the same sources as the functional model |
| ManagerLoops.DisplaceBackwards | AudioManager.cs:190-202 | the first loop of PlayLooping computes Displace |
| ManagerLoops.FindFirst | AudioManager.cs:226-234 | the foreach-break scan finds the first entry bound to the source |
| ManagerLoops.FirstWithIsFirst | AudioManager.cs:226-234 | the first index carrying the source, and no earlier one, is what the scan reports |
| ManagerLoops.UpdateFrame | AudioManager.cs:61-98 | Update's three loops, run in sequence, give the functional Update |
| ManagerLoops.SceneLoadedSteps | AudioManager.cs:137-152 | the level-load handler's steps, in order, give the functional SceneLoaded |
| ManagerProperties.InitialRespectsCap | AudioManager.cs:25-33 | the empty throttle respects the cap |
| ManagerProperties.PlayOneShotSoundKeepsCap | AudioManager.cs:260-269 | with a cap of at least one, no clip's list ever grows past the cap |
| ManagerProperties.ElapseRemovalsKeepsCap | AudioManager.cs:178-186 | removals never push a list past the cap |
| ManagerProperties.SceneLoadedKeepsCap | AudioManager.cs:150 | a level load keeps the cap |
| ManagerProperties.CapIsTestedByEquality | AudioManager.cs:261-269 | a clip with no list, or a list longer than the cap, always plays |
| ManagerProperties.ZeroCapAdmitsFreshClip | AudioManager.cs:261-266 | with a cap of 0 the first request for a clip still plays and leaves a list one longer than the cap |
| ManagerProperties.RepeatedPlaysStopAtCap | AudioManager.cs:258-289 | n requests for one clip within a frame leave min(count + n, cap) volumes in flight |
| ManagerProperties.DampingExample | AudioManager.cs:279-283 | with 0.9 in flight a new copy gets (0.9 + 0.9) / 3 = 0.6 |
| ManagerProperties.QuietCopiesDoNotDamp | AudioManager.cs:279-284 | when no copy in flight is louder than 0.5 the volume is scale times the sound multiplier |
| ManagerProperties.InitialIsAccounted | AudioManager.cs:25 | initially every in-flight volume has a pending removal, vacuously |
| ManagerProperties.PlayOneShotSoundKeepsAccounted | AudioManager.cs:286-288 | a played copy schedules the removal of exactly the volume it adds |
| ManagerProperties.ElapseAccounts | AudioManager.cs:178-186 | a frame of removals keeps every in-flight volume matched by a pending removal of that volume |
| ManagerProperties.ElapseRemovalsKeepsAccounted | AudioManager.cs:178-186 | the manager's frame of removals keeps every in-flight volume accounted for |
| ManagerProperties.SceneLoadedKeepsAccounted | AudioManager.cs:150 | clearing the throttle at a level load keeps the accounting |
| ManagerProperties.ThrottleDrains | AudioManager.cs:178-186 | once every pending removal is due, one frame empties every clip's list: no throttle entry outlives its clip |
| ManagerProperties.SceneLoadedOncePerFrame | AudioManager.cs:139-143 | repeated level-load notifications without an Update move the tag by at most one |
| ManagerProperties.UpdateRearmsLevelLoad | AudioManager.cs:63 | after an Update the next level load bumps the tag by exactly one |
| ManagerProperties.LevelLoadKeeps | AudioManager.cs:113-122 | an entry survives a level load exactly when it was there, is persisted, and its source still plays after the music one-shots are stopped |
| ManagerProperties.UpdateSparesCurrentTag | AudioManager.cs:80-85 | Update never destroys a game object whose sources' Music entries all carry the current tag |
| ManagerProperties.PersistNameIdempotent | AudioManager.cs:213-216 | persisting twice never doubles the prefix |
| ManagerProperties.PersistNameExample | AudioManager.cs:215 | "Theme" with instance id 42 becomes "PersistedBySoundManager-Theme-42" |
| ManagerProperties.DisplaceIsSift | AudioManager.cs:190-202 | the first pass of PlayLooping is the order-preserving filter of the other sources' entries, stopped with stopAll |
| ManagerProperties.InitialRegistry | AudioManager.cs:21-23 | the empty lists satisfy the registry invariant: one entry per source in each list, at most one Music entry not stopping, no duplicate music one-shot source |
| ManagerProperties.PlayLoopingSoundKeepsRegistry | AudioManager.cs:297-301 | a looping sound keeps the registry invariant |
| ManagerProperties.PlayLoopingMusicKeepsRegistry | AudioManager.cs:328-332 | looping music keeps the registry invariant, so at most one track is not fading out |
| ManagerProperties.StopLoopingKeepsRegistry | AudioManager.cs:224-240 | stopping a loop keeps the registry invariant |
| ManagerProperties.PlayOneShotMusicKeepsRegistry | AudioManager.cs:309-319 | a music one-shot keeps the sources distinct and puts its source last and only there |
| ManagerProperties.UpdateKeepsRegistry | AudioManager.cs:61-98 | Update keeps the registry invariant |
| ManagerProperties.SceneLoadedKeepsRegistry | AudioManager.cs:137-152 | a level load keeps the registry invariant |
| ManagerProperties.StopAllKeepsRegistry | AudioManager.cs:355-375 | stopping all loops, with or without the music one-shots, keeps the registry invariant |
| ManagerProperties.PauseKeepsRegistry | AudioManager.cs:391-418 | pausing and resuming keep the registry invariant |
| ManagerProperties.SoundVolumeKeepsRegistry | AudioManager.cs:436-444 | setting the sound multiplier keeps the registry invariant |
| ManagerProperties.MusicVolumeKeepsRegistry | AudioManager.cs:423-431 | setting the music multiplier keeps the registry invariant |
| ManagerProperties.StopAllIdempotent | AudioManager.cs:355-386 | stopping everything twice is the same as once, in state and in effects, and every music one-shot source is told to stop |
| ManagerProperties.PauseResumeRoundTrip | AudioManager.cs:391-418 | pausing then resuming restores every entry that was not paused |
| ManagerProperties.SoundVolumeLastWins | AudioManager.cs:436-444 | setting the sound multiplier twice equals setting the second value |
| ManagerProperties.MusicVolumeLastWins | AudioManager.cs:423-431 | setting the music multiplier twice equals setting the second value |
| ManagerProperties.NewLoopEntry | AudioManager.cs:204-210 | a new loop has the given fades and persist flag, carries the current tag, is not stopping or paused, and targets scale times the multiplier |
| LoopingAudio.Play | LoopingAudio.cs:18-26 | the recorded index is the C# remainder, even when it is negative and the call throws; on success the selected source goes to the looping music or looping sound call with the configured scale |
| LoopingAudio.PlayAny | LoopingAudio.cs:13-16 | Play() selects the drawn source and fails only on an empty array |
| LoopingAudio.Stop | LoopingAudio.cs:28-34 | Stop stops the recorded source on the same channel and throws on an out-of-range recorded index |
| LoopingAudio.PlayThenStop | LoopingAudio.cs:18-34 | Stop after Play stops the loop that Play just started |
| LoopingAudio.NegativeIndexBreaksStop | LoopingAudio.cs:20-21 | a negative index with a non-zero remainder throws and leaves Stop throwing too |
| OneShotAudio.Play | OneShotAudio.cs:18-25 | the clip is the C# remainder of the index; an empty array or negative remainder throws; music goes to the music one-shot call and sound to the sound one, with the configured scale |
| OneShotAudio.PlayAny | OneShotAudio.cs:13-16 | Play() plays the drawn clip and fails only on an empty array |
| OneShotAudio.PlaysThroughConfiguredSource | OneShotAudio.cs:18-25 | every playback is through the one configured source with the selected clip; it plays unless a sound clip is throttled |
| OneShotAudio.IndexWraps | OneShotAudio.cs:20 | a non-negative index wraps around the clip array |

## Left out

- AudioSlider.cs and AudioSourceExtension.cs are not part of this model. The first is UI and `PlayerPrefs` binding; the second is one-line forwarders to the manager.
- **Unity plumbing:**
  - the `Awake` singleton of the manager;
  - `OnEnable`/`OnDisable` scene-event subscription;
  - `OnApplicationFocus` and `PauseSoundsOnApplicationPause` (the `PauseAll`/`ResumeAll` they call are modelled);
  - `Debug` logging;
  - `SetActive`, `DontDestroyOnLoad` and reparenting of persisted game objects.
- **LoopingAudioSource is abstract**, because its class is not part of the sources. Its fade logic is not modelled:
  - `Stop()` raises `stopping`;
  - `Pause()`/`Resume()` set `paused`;
  - `Play(scale, true)` sets the original and current target to the scale;
  - `Update()` is an input.
- **The `Stop()` call on the entry PlayLooping removes** (with `stopAll`) is not recorded: that entry leaves the list.
- **Engine calls:**
  - `AudioSource.Play/Stop/PlayOneShot` and the actual mixing are effects or flags;
  - `isPlaying` is an input set;
  - `GetInstanceID()` is a field of the game object.
- **Floating point.** Volumes are `real`. IEEE rounding and the `float.MaxValue`/`float.MinValue` sentinels are not modelled. With an empty list the sentinel maximum never exceeds 0.5, which is what the model states.
- **`Random.Range`.** Only the range of its draws is modelled, not their distribution.
- **Coroutine scheduling order.** Within one frame the model resumes a Sound's play fade, then its stop fades, then its pitch fade. These write different voices or different fields, so the order is not observable. `WaitForSeconds` is approximated: a removal fires in the first frame whose accumulated frame time reaches the clip length.
- **The partial state an exception leaves behind is not modelled.** Examples: the Sounds initialized and registered before a duplicate name throws in `Awake`. A failing call returns only the fault.
- **NullReferenceException is not modelled.** Any access to a destroyed entry, AudioSource or game object would throw it. Examples are `StopLoopingListOnLevelLoad`, `ClearPersistedSounds`, the Sounds and music one-shot loops of `Update`, and the volume write to music one-shot sources in `UpdateMusic`. The model lets these accesses go through.
- **`PersistedSounds`** is a `HashSet` of entries, modelled as a multiset of their sources. Only those sources are read: their `isPlaying` and the game object they sit on, for `Destroy`.
- **The `MusicVolume`/`SoundVolume` getters** only return the field.
- **`StartCoroutine` itself** is engine code. The model takes as given three things about it: it runs the routine up to its first `yield`; it returns null when the routine has already ended there; and it logs an exception raised in the routine instead of passing it on.
- PersistName: the prefix test is ordinal, character by character. The source's `StartsWith(string)` compares under the current culture, which skips characters that culture ignores, such as a leading soft hyphen (U+00AD). For such a name the model adds the prefix a second time where C# may not.
- IntText: the instance id is written as under the invariant culture, with an ASCII `-`. `int.ToString()` uses the current culture's negative sign, which is U+2212 in some cultures, so the model's `renamed` names can differ from the engine's in that one character.
- SceneLoaded: the persist tag is an unbounded integer. `_persistTag++` is a 32-bit `int` and would wrap after 2^31 level loads, where the tag-moves-by-at-most-one property of `SceneLoadedOncePerFrame` and the `+ 1` of `SceneLoaded` would fail. No wrap-around is modelled.
