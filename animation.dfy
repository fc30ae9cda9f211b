// Sprite animation state machine (js/core/AnimationManager.js): one named clip plays at a
// time, driven by a single repeating frame timer. The browser's `setInterval` callback is the
// explicit `Tick`, and the interval handle is an optional `Ticker` holding what the callback
// captured when `play` installed it.
module Animation {
  import opened Common

  const Walk: string := "WALK"
  const Idle: string := "IDLE"
  const Hurt: string := "HURT"
  const Death: string := "DEATH"

  /** The constructor's default frame period, in milliseconds. */
  const DefaultFrameDuration: nat := 100

  /** One clip of the table: its frame images and an optional frame period in milliseconds. */
  datatype ClipData = ClipData(frames: seq<string>, duration: Option<nat>)

  /** What the constructor is given: the clip table and the default frame period. */
  datatype Config = Config(animations: map<string, ClipData>, frameDuration: nat)
  {
    /** A finished one-shot clip plays WALK, so the table must have it. */
    predicate CanReturnToWalk()
    {
      Walk in animations
    }

    /** Every clip has at least one frame. */
    predicate ClipsNonEmpty()
    {
      forall name | name in animations :: |animations[name].frames| > 0
    }

    /** Every frame reference is a non-empty (truthy) string. */
    predicate FramesPresent()
    {
      forall name, i | name in animations && 0 <= i < |animations[name].frames| ::
        animations[name].frames[i] != ""
    }

    /** `duration || frameDuration`: a missing or zero duration falls back to the default. */
    function Period(name: string): (p: nat)
      requires name in animations
      ensures animations[name].duration.Some? && animations[name].duration.value != 0 ==>
                p == animations[name].duration.value
      ensures animations[name].duration.None? || animations[name].duration.value == 0 ==>
                p == frameDuration
    {
      match animations[name].duration
      case Some(d) => if d != 0 then d else frameDuration
      case None => frameDuration
    }
  }

  /** `["WALK", "IDLE"].includes(name)`. */
  predicate IsLooping(name: string)
  {
    name == Walk || name == Idle
  }

  /** A pending interval: its period and the clip name and looping flag its callback captured. */
  datatype Ticker = Ticker(clip: string, looping: bool, period: nat)

  /** The manager's mutable fields: clip name, frame index, sprite source and interval handle. */
  datatype AnimState = AnimState(name: Option<string>, index: int, sprite: string, interval: Option<Ticker>)
  {
    /** Frames of the current clip (`this.currentAnimation.frames`); none before the first play. */
    function Frames(cfg: Config): seq<string>
    {
      if name.Some? && name.value in cfg.animations then cfg.animations[name.value].frames else []
    }

    /** The current clip is in the table and a pending interval belongs to it. */
    predicate Coherent(cfg: Config)
    {
      (name.Some? ==> name.value in cfg.animations) &&
      (name.None? ==> index == 0 && interval.None?) &&
      (interval.Some? ==>
        name == Some(interval.value.clip) &&
        interval.value.looping == IsLooping(interval.value.clip) &&
        interval.value.period == cfg.Period(interval.value.clip))
    }

    /** Coherent, and the frame index is a frame of the clip (or 0 for a clip without frames). */
    predicate Valid(cfg: Config)
    {
      Coherent(cfg) && 0 <= index && (index < |Frames(cfg)| || index == 0)
    }

    /** The sprite shows the frame at the current index. */
    predicate Displays(cfg: Config)
    {
      0 <= index < |Frames(cfg)| ==> sprite == Frames(cfg)[index]
    }

    /** `play(n)` passes both guards: not a replay of the running loop, not blocked by DEATH. */
    predicate Accepts(n: string)
    {
      !(name == Some(n) && IsLooping(n)) &&
      !(name == Some(Death) && n != Walk && n != Idle)
    }

    /** `updateFrame`: show the current frame if there is one; otherwise change nothing. */
    function UpdateFrame(cfg: Config): (r: AnimState)
      ensures r == this.(sprite := r.sprite)
      ensures 0 <= index < |Frames(cfg)| && Frames(cfg)[index] != "" ==> r.sprite == Frames(cfg)[index]
      ensures !(0 <= index < |Frames(cfg)| && Frames(cfg)[index] != "") ==> r == this
      ensures cfg.FramesPresent() ==> r.Displays(cfg)
    {
      var frames := Frames(cfg);
      if 0 <= index < |frames| && frames[index] != "" then this.(sprite := frames[index]) else this
    }

    /** `stopInterval`: cancel the pending interval, if any. */
    function StopInterval(): (r: AnimState)
      ensures r.interval.None?
      ensures r == this.(interval := None)
    {
      if interval.Some? then this.(interval := None) else this
    }

    /** `play(n)`. */
    function Play(cfg: Config, n: string): (r: AnimState)
      requires n in cfg.animations
      ensures !Accepts(n) ==> r == this
      ensures Accepts(n) ==> r.name == Some(n) && r.index == 0 &&
                             r.interval == Some(Ticker(n, IsLooping(n), cfg.Period(n)))
      ensures Accepts(n) ==> r == this.(name := Some(n), index := 0, sprite := r.sprite, interval := r.interval)
      ensures Accepts(n) && cfg.FramesPresent() && |cfg.animations[n].frames| > 0 ==>
                r.sprite == cfg.animations[n].frames[0]
      ensures Accepts(n) ==> r.Valid(cfg)
      ensures Valid(cfg) ==> r.Valid(cfg)
      ensures Coherent(cfg) ==> r.Coherent(cfg)
      ensures cfg.FramesPresent() && Displays(cfg) ==> r.Displays(cfg)
    {
      if name == Some(n) && IsLooping(n) then
        this
      else if name == Some(Death) && n != Walk && n != Idle then
        this
      else
        var shown := StopInterval().(name := Some(n), index := 0).UpdateFrame(cfg);
        shown.(interval := Some(Ticker(n, IsLooping(n), cfg.Period(n))))
    }

    /** One firing of the pending interval's callback. */
    function Tick(cfg: Config): (r: AnimState)
      requires Valid(cfg) && interval.Some? && cfg.CanReturnToWalk()
      ensures r.Valid(cfg)
      ensures cfg.FramesPresent() && Displays(cfg) ==> r.Displays(cfg)
      // a tick never switches to a clip other than WALK
      ensures r.name == name || r.name == Some(Walk)
      // looping clip: advance, wrapping to 0 after the last frame
      ensures interval.value.looping && |Frames(cfg)| > 0 ==>
                r.name == name && r.interval == interval && r.index == (index + 1) % |Frames(cfg)|
      // any clip before its last frame: advance by one
      ensures index + 1 < |Frames(cfg)| ==>
                r.name == name && r.interval == interval && r.index == index + 1
      // DEATH past its last frame: stay on the last frame and stop the interval
      ensures interval.value.clip == Death && index + 1 >= |Frames(cfg)| ==>
                r.name == name && r.interval.None? && r.index == Max(0, |Frames(cfg)| - 1) && r.sprite == sprite
      // another one-shot clip past its last frame: back to WALK
      ensures !interval.value.looping && interval.value.clip != Death && index + 1 >= |Frames(cfg)| ==>
                r.name == Some(Walk) && r.index == 0 &&
                r.interval == Some(Ticker(Walk, true, cfg.Period(Walk)))
    {
      var t := interval.value;
      var next := this.(index := index + 1);
      if next.index >= |next.Frames(cfg)| then
        if t.looping then
          next.(index := 0).UpdateFrame(cfg)
        else if t.clip == Death then
          next.(index := next.index - 1).StopInterval()
        else
          next.Play(cfg, Walk)
      else
        next.UpdateFrame(cfg)
    }

    /** The state after `k` firings of the interval (fewer if it is cancelled on the way). */
    function Ticks(cfg: Config, k: nat): (r: AnimState)
      requires Valid(cfg) && cfg.CanReturnToWalk()
      ensures r.Valid(cfg)
      ensures cfg.FramesPresent() && Displays(cfg) ==> r.Displays(cfg)
      decreases k
    {
      if k == 0 then this
      else
        var p := Ticks(cfg, k - 1);
        if p.interval.None? then p else p.Tick(cfg)
    }
  }

  /** The manager before its first `play`. */
  function Initial(sprite: string): (s: AnimState)
    ensures s.name.None? && s.interval.None? && s.sprite == sprite
    ensures forall cfg: Config :: s.Valid(cfg)
  {
    AnimState(None, 0, sprite, None)
  }

  lemma {:induction false} OneShotAdvances(cfg: Config, s: AnimState, clip: string, k: nat)
    requires cfg.CanReturnToWalk() && s.Valid(cfg) && clip in cfg.animations
    requires !IsLooping(clip) && s.Accepts(clip)
    requires k < |cfg.animations[clip].frames|
    ensures var p := s.Play(cfg, clip);
            var r := p.Ticks(cfg, k);
            r.name == Some(clip) && r.index == k && r.interval == p.interval
  {
    var p := s.Play(cfg, clip);
    if k > 0 {
      OneShotAdvances(cfg, s, clip, k - 1);
    }
  }

  /** A one-shot clip other than DEATH with n frames returns to WALK at index 0 on its n-th tick. */
  lemma {:induction false} OneShotReturnsToWalk(cfg: Config, s: AnimState, clip: string)
    requires cfg.CanReturnToWalk() && s.Valid(cfg) && clip in cfg.animations
    requires !IsLooping(clip) && clip != Death && s.Accepts(clip)
    requires |cfg.animations[clip].frames| > 0
    ensures var p := s.Play(cfg, clip);
            var n := |cfg.animations[clip].frames|;
            (forall k :: 0 <= k < n ==> p.Ticks(cfg, k).name == Some(clip) && p.Ticks(cfg, k).index == k) &&
            p.Ticks(cfg, n).name == Some(Walk) && p.Ticks(cfg, n).index == 0 &&
            p.Ticks(cfg, n).interval == Some(Ticker(Walk, true, cfg.Period(Walk)))
  {
    var p := s.Play(cfg, clip);
    var n := |cfg.animations[clip].frames|;
    forall k | 0 <= k < n
      ensures p.Ticks(cfg, k).name == Some(clip) && p.Ticks(cfg, k).index == k
    {
      OneShotAdvances(cfg, s, clip, k);
    }
    OneShotAdvances(cfg, s, clip, n - 1);
  }

  /** A looping clip with n frames shows frame k % n after k ticks and never stops by itself. */
  lemma {:induction false} LoopCycles(cfg: Config, s: AnimState, clip: string, k: nat)
    requires cfg.CanReturnToWalk() && s.Valid(cfg) && clip in cfg.animations
    requires IsLooping(clip) && s.Accepts(clip)
    requires |cfg.animations[clip].frames| > 0
    ensures var p := s.Play(cfg, clip);
            var r := p.Ticks(cfg, k);
            r.name == Some(clip) && r.interval == p.interval &&
            r.index == k % |cfg.animations[clip].frames|
  {
    if k > 0 {
      LoopCycles(cfg, s, clip, k - 1);
      ModStep(k, |cfg.animations[clip].frames|);
    }
  }

  /** Counting modulo n: k % n is one more than (k - 1) % n, wrapping to 0 at n. */
  lemma ModStep(k: nat, n: nat)
    requires n > 0 && k > 0
    ensures (k - 1) % n + 1 < n ==> k % n == (k - 1) % n + 1
    ensures (k - 1) % n + 1 >= n ==> k % n == 0
  {
    var q, j := (k - 1) / n, (k - 1) % n;
    if j + 1 < n {
      DivModUnique(k, q, n, j + 1);
    } else {
      assert k == (q + 1) * n + 0;
      DivModUnique(k, q + 1, n, 0);
    }
  }

  /** DEATH with n frames: n ticks leave it on its last frame with no interval, for good. */
  lemma {:induction false} DeathFreezesOnLastFrame(cfg: Config, s: AnimState, extra: nat)
    requires cfg.CanReturnToWalk() && s.Valid(cfg) && Death in cfg.animations
    requires s.Accepts(Death)
    requires |cfg.animations[Death].frames| > 0
    ensures var p := s.Play(cfg, Death);
            var n := |cfg.animations[Death].frames|;
            var r := p.Ticks(cfg, n);
            r.name == Some(Death) && r.index == n - 1 && r.interval.None? &&
            p.Ticks(cfg, n + extra) == r
  {
    var p := s.Play(cfg, Death);
    var n := |cfg.animations[Death].frames|;
    OneShotAdvances(cfg, s, Death, n - 1);
    StoppedStaysStopped(cfg, p, n, extra);
  }

  /** Once the interval is cancelled, further ticks change nothing. */
  lemma {:induction false} StoppedStaysStopped(cfg: Config, p: AnimState, k: nat, extra: nat)
    requires cfg.CanReturnToWalk() && p.Valid(cfg)
    requires p.Ticks(cfg, k).interval.None?
    ensures p.Ticks(cfg, k + extra) == p.Ticks(cfg, k)
  {
    if extra > 0 {
      StoppedStaysStopped(cfg, p, k, extra - 1);
    }
  }

  // --- the character's clip table (`characterAnimations`) ---

  const FrameDirectory: string := "assets/Personnage/Chevalier/"

  function DigitChar(d: nat): char
    requires d < 10
  {
    (('0' as int) + d) as char
  }

  /** The path of frame `i` of a clip whose files start with `prefix`. */
  function FramePath(prefix: string, i: nat): (path: string)
    requires i < 10
    ensures |path| == |FrameDirectory| + |prefix| + 6
  {
    FrameDirectory + prefix + "_" + [DigitChar(i)] + ".png"
  }

  /** Frames 0 .. count-1 of a clip, in order. */
  function ChevalierFrames(prefix: string, count: nat): (frames: seq<string>)
    requires count <= 10
    ensures |frames| == count
    ensures forall i :: 0 <= i < count ==> frames[i] == FramePath(prefix, i)
  {
    if count == 0 then [] else ChevalierFrames(prefix, count - 1) + [FramePath(prefix, count - 1)]
  }

  /** The knight's seven clips with their frame counts and periods. */
  const CharacterAnimations: map<string, ClipData> := map[
    Idle := ClipData(ChevalierFrames("idle", 6), Some(150)),
    Walk := ClipData(ChevalierFrames("walk", 8), Some(150)),
    "ATTACK1" := ClipData(ChevalierFrames("attack1", 6), Some(120)),
    "ATTACK2" := ClipData(ChevalierFrames("attack2", 6), Some(120)),
    "ATTACK3" := ClipData(ChevalierFrames("attack3", 9), Some(100)),
    Hurt := ClipData(ChevalierFrames("hurt", 4), Some(150)),
    Death := ClipData(ChevalierFrames("death", 4), Some(300))
  ]

  /** The configuration the game engine builds its manager with. */
  const CharacterConfig: Config := Config(CharacterAnimations, DefaultFrameDuration)

  /** The table has exactly the seven clips, with these frame counts and periods. */
  lemma CharacterClips()
    ensures CharacterAnimations.Keys == {Idle, Walk, "ATTACK1", "ATTACK2", "ATTACK3", Hurt, Death}
    ensures |CharacterAnimations[Walk].frames| == 8 && CharacterConfig.Period(Walk) == 150
    ensures |CharacterAnimations[Idle].frames| == 6 && CharacterConfig.Period(Idle) == 150
    ensures |CharacterAnimations["ATTACK1"].frames| == 6 && CharacterConfig.Period("ATTACK1") == 120
    ensures |CharacterAnimations["ATTACK2"].frames| == 6 && CharacterConfig.Period("ATTACK2") == 120
    ensures |CharacterAnimations["ATTACK3"].frames| == 9 && CharacterConfig.Period("ATTACK3") == 100
    ensures |CharacterAnimations[Hurt].frames| == 4 && CharacterConfig.Period(Hurt) == 150
    ensures |CharacterAnimations[Death].frames| == 4 && CharacterConfig.Period(Death) == 300
  {
  }

  /** Every clip of the table is non-empty and every frame reference is truthy. */
  lemma CharacterConfigWellFormed()
    ensures CharacterConfig.CanReturnToWalk()
    ensures CharacterConfig.ClipsNonEmpty()
    ensures CharacterConfig.FramesPresent()
  {
    CharacterClips();
    forall name, i | name in CharacterAnimations && 0 <= i < |CharacterAnimations[name].frames|
      ensures CharacterAnimations[name].frames[i] != ""
    {
      var prefix :=
        if name == Idle then "idle" else if name == Walk then "walk"
        else if name == "ATTACK1" then "attack1" else if name == "ATTACK2" then "attack2"
        else if name == "ATTACK3" then "attack3" else if name == Hurt then "hurt" else "death";
      assert CharacterAnimations[name].frames[i] == FramePath(prefix, i);
    }
  }

  /** The manager object; `play` and the interval callback update its fields in place. */
  class AnimationManager {
    var sprite: string
    const animations: map<string, ClipData>
    const frameDuration: nat
    var currentAnimationName: Option<string>
    var currentAnimation: Option<ClipData>
    var currentFrameIndex: int
    var intervalId: Option<Ticker>
    /** Intervals registered with the browser and not yet cleared. */
    ghost var pendingIntervals: nat

    function Cfg(): Config
    {
      Config(animations, frameDuration)
    }

    function State(): AnimState
      reads this
    {
      AnimState(currentAnimationName, currentFrameIndex, sprite, intervalId)
    }

    /** The fields agree with the abstract state, and at most the one interval in `intervalId` is pending. */
    ghost predicate Coherent()
      reads this
    {
      State().Coherent(Cfg()) &&
      currentAnimation == (if currentAnimationName.Some? then Some(animations[currentAnimationName.value]) else None) &&
      pendingIntervals == (if intervalId.Some? then 1 else 0)
    }

    ghost predicate Valid()
      reads this
    {
      Coherent() && State().Valid(Cfg())
    }

    constructor (spriteElement: string, animationData: map<string, ClipData>, frameDuration: nat)
      ensures Valid()
      ensures animations == animationData && this.frameDuration == frameDuration
      ensures State() == Initial(spriteElement) && pendingIntervals == 0
    {
      sprite := spriteElement;
      animations := animationData;
      this.frameDuration := frameDuration;
      currentAnimationName := None;
      currentAnimation := None;
      currentFrameIndex := 0;
      intervalId := None;
      pendingIntervals := 0;
    }

    method Play(animationName: string)
      requires Coherent() && animationName in animations
      modifies this
      ensures Coherent()
      ensures State() == old(State()).Play(Cfg(), animationName)
      ensures old(Valid()) ==> Valid()
    {
      if currentAnimationName == Some(animationName) && IsLooping(animationName) {
        return;
      }
      if currentAnimationName == Some(Death) && animationName != Walk && animationName != Idle {
        return;
      }
      StopInterval();
      currentAnimationName := Some(animationName);
      currentAnimation := Some(animations[animationName]);
      currentFrameIndex := 0;
      UpdateFrame();
      var isLooping := IsLooping(animationName);
      var speed := match currentAnimation.value.duration
        case Some(d) => if d != 0 then d else frameDuration
        case None => frameDuration;
      intervalId := Some(Ticker(animationName, isLooping, speed));
      pendingIntervals := pendingIntervals + 1;
    }

    /** The body of the interval callback that `Play` installed. */
    method Tick()
      requires Valid() && intervalId.Some? && Walk in animations
      modifies this
      ensures Valid()
      ensures State() == old(State()).Tick(Cfg())
    {
      var captured := intervalId.value;
      currentFrameIndex := currentFrameIndex + 1;
      if currentFrameIndex >= |currentAnimation.value.frames| {
        if captured.looping {
          currentFrameIndex := 0;
          UpdateFrame();
        } else if captured.clip == Death {
          currentFrameIndex := currentFrameIndex - 1;
          StopInterval();
        } else {
          Play(Walk);
        }
      } else {
        UpdateFrame();
      }
    }

    method UpdateFrame()
      requires Coherent()
      modifies this`sprite
      ensures Coherent()
      ensures State() == old(State()).UpdateFrame(Cfg())
    {
      if currentAnimation.Some? && 0 <= currentFrameIndex < |currentAnimation.value.frames| &&
         currentAnimation.value.frames[currentFrameIndex] != "" {
        sprite := currentAnimation.value.frames[currentFrameIndex];
      }
    }

    method StopInterval()
      requires Coherent()
      modifies this`intervalId, this`pendingIntervals
      ensures Coherent() && pendingIntervals == 0
      ensures State() == old(State()).StopInterval()
    {
      if intervalId.Some? {
        intervalId := None;
        pendingIntervals := pendingIntervals - 1;
      }
    }
  }
}
