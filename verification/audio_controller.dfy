/** AudioController: the serialized Sounds, registered by name on Awake,
    and the name-keyed calls that forward to them. */
module AudioController {
  import opened Runtime
  import Sound

  datatype Controller = Controller(sounds: map<string, Sound.Slot>)

  /** Every registered Sound is well shaped and registered under its own name. */
  predicate Valid(c: Controller)
  {
    forall n :: n in c.sounds ==> Sound.Shaped(c.sounds[n]) && c.sounds[n].config.name == n
  }

  /** No two configured Sounds share a name. */
  predicate DistinctNames(cs: seq<Sound.Config>)
  {
    forall i, j :: 0 <= i < j < |cs| ==> cs[i].name != cs[j].name
  }

  function Names(cs: seq<Sound.Config>): set<string>
  {
    set i | 0 <= i < |cs| :: cs[i].name
  }

  /** The loop of Awake from a given dictionary: each Sound is initialized
      and added under its name; adding a name already present throws. */
  function Register(c: Controller, cs: seq<Sound.Config>): (r: Result<Controller>)
    ensures r.Failure? ==> r.fault.DuplicateKey?
    ensures r.Success? ==> c.sounds.Keys <= r.value.sounds.Keys
    ensures r.Success? ==> forall n :: n in c.sounds ==> r.value.sounds[n] == c.sounds[n]
    decreases |cs|
  {
    if cs == [] then Success(c)
    else if cs[0].name in c.sounds then Failure(DuplicateKey(cs[0].name))
    else Register(c.(sounds := c.sounds[cs[0].name := Sound.Initialize(cs[0])]), cs[1..])
  }

  /** Registration succeeds exactly when the names are distinct and new;
      then the dictionary holds every earlier entry and each configured
      Sound, freshly initialized, under its name. */
  lemma RegisterSpec(c: Controller, cs: seq<Sound.Config>)
    ensures Register(c, cs).Success? <==> DistinctNames(cs) && (forall i :: 0 <= i < |cs| ==> cs[i].name !in c.sounds)
    ensures Register(c, cs).Failure? ==> Register(c, cs).fault.DuplicateKey?
    ensures Register(c, cs).Success? ==>
      && Register(c, cs).value.sounds.Keys == c.sounds.Keys + Names(cs)
      && (forall n :: n in c.sounds ==> Register(c, cs).value.sounds[n] == c.sounds[n])
      && (forall i :: 0 <= i < |cs| ==> Register(c, cs).value.sounds[cs[i].name] == Sound.Initialize(cs[i]))
  {
    RegisterSucceeds(c, cs);
    RegisterContents(c, cs);
  }

  /** The success condition of registration. */
  lemma {:induction false} RegisterSucceeds(c: Controller, cs: seq<Sound.Config>)
    ensures Register(c, cs).Success? <==> DistinctNames(cs) && (forall i :: 0 <= i < |cs| ==> cs[i].name !in c.sounds)
    decreases |cs|
  {
    if cs != [] {
      var h := cs[0];
      var rest := cs[1..];
      NamesCons(cs);
      if h.name !in c.sounds {
        RegisterSucceeds(c.(sounds := c.sounds[h.name := Sound.Initialize(h)]), rest);
      }
    }
  }

  /** What a successful registration leaves in the dictionary. */
  lemma {:induction false} RegisterContents(c: Controller, cs: seq<Sound.Config>)
    ensures Register(c, cs).Success? ==>
      && Register(c, cs).value.sounds.Keys == c.sounds.Keys + Names(cs)
      && (forall i :: 0 <= i < |cs| ==> Register(c, cs).value.sounds[cs[i].name] == Sound.Initialize(cs[i]))
    decreases |cs|
  {
    if cs != [] && cs[0].name !in c.sounds {
      var h := cs[0];
      var rest := cs[1..];
      var c1 := c.(sounds := c.sounds[h.name := Sound.Initialize(h)]);
      assert Register(c, cs) == Register(c1, rest);
      RegisterContents(c1, rest);
      if Register(c1, rest).Success? {
        var r := Register(c1, rest).value;
        NamesCons(cs);
        assert r.sounds.Keys == c.sounds.Keys + Names(cs);
        forall i | 0 <= i < |cs|
          ensures r.sounds[cs[i].name] == Sound.Initialize(cs[i])
        {
          if i > 0 {
            assert cs[i] == rest[i - 1];
          }
        }
      }
    }
  }

  /** Distinctness, freshness and the name set of a list, from its head
      and its tail. */
  lemma NamesCons(cs: seq<Sound.Config>)
    requires |cs| > 0
    ensures DistinctNames(cs) <==> DistinctNames(cs[1..]) && forall j :: 0 <= j < |cs| - 1 ==> cs[1..][j].name != cs[0].name
    ensures Names(cs) == {cs[0].name} + Names(cs[1..])
  {
    var rest := cs[1..];
    assert forall i :: 1 <= i < |cs| ==> cs[i] == rest[i - 1];
    if DistinctNames(rest) && forall j :: 0 <= j < |rest| ==> rest[j].name != cs[0].name {
      forall i, j | 0 <= i < j < |cs|
        ensures cs[i].name != cs[j].name
      {
        if i > 0 {
          assert cs[i] == rest[i - 1] && cs[j] == rest[j - 1];
        } else {
          assert cs[j] == rest[j - 1];
        }
      }
    }
    forall n | n in Names(cs)
      ensures n in {cs[0].name} + Names(rest)
    {
      var i :| 0 <= i < |cs| && cs[i].name == n;
      if i > 0 {
        assert rest[i - 1].name == n;
      }
    }
  }

  /** Awake: every configured Sound is registered under its name. */
  function Awake(cs: seq<Sound.Config>): (r: Result<Controller>)
    ensures r.Success? <==> DistinctNames(cs)
    ensures r.Failure? ==> r.fault.DuplicateKey?
    ensures r.Success? ==> Valid(r.value) && r.value.sounds.Keys == Names(cs)
    ensures r.Success? ==> forall i :: 0 <= i < |cs| ==> r.value.sounds[cs[i].name] == Sound.Initialize(cs[i])
  {
    RegisterFromEmpty(cs);
    Register(Controller(map[]), cs)
  }

  lemma RegisterFromEmpty(cs: seq<Sound.Config>)
    ensures var r := Register(Controller(map[]), cs);
      && (r.Success? <==> DistinctNames(cs))
      && (r.Failure? ==> r.fault.DuplicateKey?)
      && (r.Success? ==> Valid(r.value) && r.value.sounds.Keys == Names(cs))
      && (r.Success? ==> forall i :: 0 <= i < |cs| ==> r.value.sounds[cs[i].name] == Sound.Initialize(cs[i]))
  {
    var c := Controller(map[]);
    RegisterSpec(c, cs);
    var r := Register(c, cs);
    if r.Success? {
      forall n | n in r.value.sounds
        ensures Sound.Shaped(r.value.sounds[n]) && r.value.sounds[n].config.name == n
      {
        var i :| 0 <= i < |cs| && cs[i].name == n;
      }
    }
  }

  /** One of the name-keyed overloads, with its arguments. `draw` is the
      value Random.Range(0, Count) returned for the overloads that pick a
      random variant. */
  datatype Request =
    | PlayAny(draw: int)
    | PlayIndex(index: int)
    | PlayBlend(draw: int, blendTime: real)
    | PlayIndexBlend(index: int, blendTime: real)
    | StopDefault
    | StopBlend(blendTime: real)
    | SetPitchDefault(target: real)
    | SetPitchBlend(target: real, blendTime: real)
    | ResetPitch

  /** The random draw a request carries, if any, is one Random.Range could return. */
  predicate Drawable(s: Sound.Slot, q: Request)
  {
    match q
    case PlayAny(draw) => IsDraw(draw, Sound.Count(s))
    case PlayBlend(draw, _) => IsDraw(draw, Sound.Count(s))
    case _ => true
  }

  /** The Sound operation a request names, applied to one slot. */
  function Apply(s: Sound.Slot, q: Request, dt: real): (r: Result<Sound.Slot>)
    requires Sound.Shaped(s) && Drawable(s, q)
    ensures r.Success? ==> Sound.Shaped(r.value) && r.value.config == s.config
  {
    match q
    case PlayAny(draw) => Sound.PlayAny(s, draw, dt)
    case PlayIndex(index) => Sound.PlayIndex(s, index, dt)
    case PlayBlend(draw, blendTime) => Sound.PlayBlend(s, draw, blendTime, dt)
    case PlayIndexBlend(index, blendTime) => Sound.Play(s, index, blendTime, dt)
    case StopDefault => Success(Sound.StopDefault(s, dt))
    case StopBlend(blendTime) => Success(Sound.Stop(s, blendTime, dt))
    case SetPitchDefault(target) => Success(Sound.SetPitchDefault(s, target, dt))
    case SetPitchBlend(target, blendTime) => Success(Sound.SetPitch(s, target, blendTime, dt))
    case ResetPitch => Success(Sound.ResetPitch(s, dt))
  }

  /** `_sounds[soundName].<operation>(arguments)`: an unknown name throws
      before anything happens; otherwise only the named Sound changes. */
  function Dispatch(c: Controller, name: string, q: Request, dt: real): (r: Result<Controller>)
    requires Valid(c)
    requires name in c.sounds ==> Drawable(c.sounds[name], q)
    ensures name !in c.sounds ==> r == Failure(KeyNotFound(name))
    ensures name in c.sounds ==> (r.Success? <==> Apply(c.sounds[name], q, dt).Success?)
    ensures name in c.sounds && r.Failure? ==> r.fault == Apply(c.sounds[name], q, dt).fault
    ensures r.Success? ==> Valid(r.value) && r.value.sounds.Keys == c.sounds.Keys
    ensures r.Success? ==> r.value.sounds[name] == Apply(c.sounds[name], q, dt).value
    ensures r.Success? ==> forall n :: n in c.sounds && n != name ==> r.value.sounds[n] == c.sounds[n]
  {
    if name !in c.sounds then Failure(KeyNotFound(name))
    else
      match Apply(c.sounds[name], q, dt)
      case Failure(f) => Failure(f)
      case Success(s) => Success(c.(sounds := c.sounds[name := s]))
  }

  /** The Stop and pitch overloads never fail on a registered name, not
      even on a Sound without clips: there a pitch call only drops the
      pitch handle. */
  lemma StopAndPitchNeverFail(c: Controller, name: string, q: Request, dt: real)
    requires Valid(c) && name in c.sounds
    requires q.StopDefault? || q.StopBlend? || q.SetPitchDefault? || q.SetPitchBlend? || q.ResetPitch?
    ensures Dispatch(c, name, q, dt).Success?
    ensures !(q.StopDefault? || q.StopBlend?) && Sound.Count(c.sounds[name]) == 0 ==>
      Dispatch(c, name, q, dt).value.sounds[name] == c.sounds[name].(pitchFade := None)
  {
  }

  /** Awake followed by a call: the call acts on the Sound configured under
      that name, freshly initialized. */
  lemma AwakeThenDispatch(cs: seq<Sound.Config>, k: nat, q: Request, dt: real)
    requires DistinctNames(cs) && k < |cs|
    requires Drawable(Sound.Initialize(cs[k]), q)
    ensures var c := Awake(cs).value;
      Dispatch(c, cs[k].name, q, dt) ==
        match Apply(Sound.Initialize(cs[k]), q, dt)
        case Failure(f) => Failure(f)
        case Success(s) => Success(c.(sounds := c.sounds[cs[k].name := s]))
  {
  }
}
