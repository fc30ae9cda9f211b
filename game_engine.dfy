// The combat loop (js/core/GameEngine.js): modes, match start, turns, answer checking, the
// per-turn countdown and game over. The countdown's `setInterval` callback is the explicit
// `TimerTick`, the countdown is kept in whole tenths of a second, and every `Math.random()`
// draw (the attack clip and the problem generator's three draws) is a parameter.
module Game {
  import opened Common
  import opened Entities
  import A = Animation
  import M = MathEngine

  /** The hero the engine creates: `new Hero(100)`. */
  const HeroMaxHp: int := 100
  /** Damage of a wrong answer or a timeout. */
  const FailureDamage: int := 15
  /** Healing on every tenth streak in CAMPAGNE mode. */
  const MilestoneHeal: int := 20
  const MilestoneEvery: int := 10
  /** Period of the countdown interval in milliseconds: one tenth of a second. */
  const CountdownPeriodMs: nat := 100
  const TenthsPerSecond: int := 10

  /** Seconds allowed for one turn: `Math.max(3, 10 - Math.floor(streak / 10))`. */
  function TurnBudget(streak: int): (seconds: int)
    ensures seconds >= 3
    ensures streak >= 0 ==> seconds <= 10
    ensures seconds > 3 ==> seconds == 10 - streak / 10
    ensures streak >= 0 ==> (seconds == 3 <==> streak >= 70)
  {
    Max(3, 10 - streak / 10)
  }

  /** A longer streak never gives more time. */
  lemma BudgetNonIncreasing(a: int, b: int)
    requires 0 <= a <= b
    ensures TurnBudget(b) <= TurnBudget(a)
  {
    assert a / 10 <= b / 10;
  }

  /** The attack clip number for the draw `roll`: `Math.floor(roll * 3) + 1`. */
  function AttackIndex(roll: real): (k: int)
    ensures M.IsRandom(roll) ==> 1 <= k <= 3
  {
    var k := (roll * 3.0).Floor + 1;
    assert k == M.RandInt(1, 3, roll);
    k
  }

  /** The clip name `ATTACK${k}`. */
  function AttackName(k: int): (name: string)
    requires 1 <= k <= 3
    ensures name == ["ATTACK1", "ATTACK2", "ATTACK3"][k - 1]
    ensures name in A.CharacterAnimations && !A.IsLooping(name) && name != A.Death
  {
    var name := "ATTACK" + M.DigitString(k);
    assert name == if k == 1 then "ATTACK1" else if k == 2 then "ATTACK2" else "ATTACK3";
    name
  }

  /** The engine's fields: the hero, the animation state, and the match state. Times are in tenths. */
  datatype Match = Match(
    hero: HeroState,
    anim: A.AnimState,
    mode: string,
    active: bool,
    timer: Option<nat>,
    currentTime: int,
    maxTime: int,
    highScore: int,
    problem: Option<M.Problem>)
  {
    /** Invariants every operation keeps, also between its steps. */
    predicate Sound()
    {
      hero.HealthInRange() && hero.maxHp == HeroMaxHp &&
      hero.streak >= 0 && hero.totalCorrect >= 0 &&
      anim.Valid(A.CharacterConfig) &&
      (timer.Some? ==> mode == Campagne && timer.value == CountdownPeriodMs && problem.Some?)
    }

    /** Sound, and an active match has a problem on screen, a living hero, and no DEATH clip. */
    predicate Valid()
    {
      Sound() && (active ==> problem.Some? && !hero.IsDead() && anim.name != Some(A.Death))
    }

    /** Sound, and an active match is not showing DEATH: the state in which a turn is posed. */
    predicate ReadyForTurn()
    {
      Sound() && (active ==> anim.name != Some(A.Death))
    }

    /** One firing of the animation manager's interval, which runs beside the match. */
    function AnimationTick(): (r: Match)
      requires Sound() && anim.interval.Some?
      ensures r == this.(anim := r.anim)
      ensures r.anim.name == anim.name || r.anim.name == Some(A.Walk)
      ensures r.Sound()
      ensures Valid() ==> r.Valid()
    {
      A.CharacterConfigWellFormed();
      this.(anim := anim.Tick(A.CharacterConfig))
    }

    /** `setMode(newMode)`. */
    function SetMode(newMode: string): (r: Match)
      ensures r.mode == newMode && !r.active && r.timer.None?
      ensures r.hero == hero && r.anim == anim && r.problem == problem && r.highScore == highScore
      ensures r.currentTime == currentTime && r.maxTime == maxTime
      ensures Sound() ==> r.Valid()
    {
      this.(mode := newMode).StopTimer().(active := false)
    }

    /** `stopTimer`. */
    function StopTimer(): (r: Match)
      ensures r.timer.None?
      ensures r == this.(timer := None)
    {
      if timer.Some? then this.(timer := None) else this
    }

    /** `startTimer`: a full budget for the current streak, counted in tenths. */
    function StartTimer(): (r: Match)
      ensures r.timer == Some(CountdownPeriodMs)
      ensures r.currentTime == r.maxTime == TenthsPerSecond * TurnBudget(hero.streak)
      ensures hero.streak >= 0 ==> 30 <= r.currentTime <= 100
      ensures r == this.(timer := r.timer, currentTime := r.currentTime, maxTime := r.maxTime)
    {
      var seconds := Max(3, 10 - hero.streak / 10);
      this.(currentTime := seconds * TenthsPerSecond, maxTime := seconds * TenthsPerSecond,
            timer := Some(CountdownPeriodMs))
    }

    /** The record test of `gameOver`. */
    predicate IsRecord()
    {
      hero.totalCorrect > highScore
    }

    /** `gameOver`. */
    function GameOver(): (r: Match)
      ensures !r.active && r.timer.None?
      ensures r.anim == anim.Play(A.CharacterConfig, A.Death) && r.anim.name == Some(A.Death)
      ensures r.highScore == Max(highScore, hero.totalCorrect)
      ensures r.highScore != highScore <==> IsRecord()
      ensures r.hero == hero && r.problem == problem && r.mode == mode
      ensures Sound() ==> r.Valid()
    {
      var over := StopTimer().(active := false, anim := anim.Play(A.CharacterConfig, A.Death));
      if hero.totalCorrect > highScore then over.(highScore := hero.totalCorrect) else over
    }

    /** `nextTurn`: game over for a dead hero, otherwise a new problem and, in CAMPAGNE, a new countdown. */
    function NextTurn(d: M.Draws): (r: Match)
      ensures hero.IsDead() ==> r == GameOver()
      ensures !hero.IsDead() ==>
                r.problem == Some(M.GenerateProblem(hero.streak, d)) &&
                r.hero == hero && r.anim == anim && r.mode == mode &&
                r.active == active && r.highScore == highScore &&
                (r.timer.Some? <==> mode == Campagne)
      ensures !hero.IsDead() && mode == Campagne ==>
                r.currentTime == r.maxTime == TenthsPerSecond * TurnBudget(hero.streak)
      ensures !hero.IsDead() && mode != Campagne ==>
                r.currentTime == currentTime && r.maxTime == maxTime
      ensures Sound() ==> r.Sound()
      ensures ReadyForTurn() ==> r.Valid()
    {
      if hero.IsDead() then
        GameOver()
      else
        var posed := StopTimer().(problem := Some(M.GenerateProblem(hero.streak, d)));
        if mode == Campagne then posed.StartTimer() else posed
    }

    /** `handleSuccess`: streak and total up, a random attack clip, and the milestone heal. */
    function HandleSuccess(roll: real): (r: Match)
      requires M.IsRandom(roll)
      ensures r.hero.streak == hero.streak + 1 && r.hero.totalCorrect == hero.totalCorrect + 1
      ensures mode == Campagne && (hero.streak + 1) % MilestoneEvery == 0 ==>
                r.hero.currentHp == hero.Healed(MilestoneHeal).currentHp
      ensures !(mode == Campagne && (hero.streak + 1) % MilestoneEvery == 0) ==>
                r.hero.currentHp == hero.currentHp
      ensures r.hero == hero.(streak := r.hero.streak, totalCorrect := r.hero.totalCorrect,
                              currentHp := r.hero.currentHp)
      ensures r.anim == anim.Play(A.CharacterConfig, AttackName(AttackIndex(roll)))
      ensures r == this.(hero := r.hero, anim := r.anim)
      ensures Sound() ==> r.Sound()
    {
      var counted := hero.(streak := hero.streak + 1, totalCorrect := hero.totalCorrect + 1);
      var attacked := anim.Play(A.CharacterConfig, AttackName(AttackIndex(roll)));
      var healed := if mode == Campagne && counted.streak % MilestoneEvery == 0
                    then counted.Healed(MilestoneHeal) else counted;
      this.(hero := healed, anim := attacked)
    }

    /** `handleFailure`: damage, streak cleared, HURT clip. */
    function HandleFailure(): (r: Match)
      ensures r.hero == hero.Damaged(FailureDamage).(streak := 0)
      ensures r.anim == anim.Play(A.CharacterConfig, A.Hurt)
      ensures r == this.(hero := r.hero, anim := r.anim)
      ensures Sound() ==> r.Sound()
    {
      this.(hero := hero.Damaged(FailureDamage).(streak := 0), anim := anim.Play(A.CharacterConfig, A.Hurt))
    }

    /** The hero after a correct answer. */
    function SucceededHero(): HeroState
    {
      var counted := hero.(streak := hero.streak + 1, totalCorrect := hero.totalCorrect + 1);
      if mode == Campagne && counted.streak % MilestoneEvery == 0 then counted.Healed(MilestoneHeal) else counted
    }

    /** `checkAnswer(val)`; `None` is `NaN`. */
    function CheckAnswer(val: Option<int>, roll: real, d: M.Draws): (r: Match)
      requires M.IsRandom(roll) && (val.Some? ==> problem.Some?)
      ensures val.None? ==> r == this
      ensures val.Some? && val.value == problem.value.answer ==> r.hero == SucceededHero()
      ensures val.Some? && val.value != problem.value.answer ==> r.hero == hero.Damaged(FailureDamage).(streak := 0)
      // the countdown that was running is gone; any running countdown is a fresh one for the next turn
      ensures val.Some? && r.timer.Some? ==> r.currentTime == TenthsPerSecond * TurnBudget(r.hero.streak)
      ensures val.Some? && !r.hero.IsDead() ==> r.problem == Some(M.GenerateProblem(r.hero.streak, d))
      ensures val.Some? && r.hero.IsDead() ==> !r.active && r.anim.name == Some(A.Death)
      ensures val.Some? && !r.hero.IsDead() ==>
                r.active == active && r.mode == mode && r.highScore == highScore &&
                (r.timer.Some? <==> mode == Campagne) &&
                r.anim == (if val.value == problem.value.answer
                           then anim.Play(A.CharacterConfig, AttackName(AttackIndex(roll)))
                           else anim.Play(A.CharacterConfig, A.Hurt))
      ensures Sound() ==> r.Sound()
      ensures Valid() ==> r.Valid()
    {
      if val.None? then this
      else
        var stopped := StopTimer();
        var resolved := if val.value == problem.value.answer then stopped.HandleSuccess(roll) else stopped.HandleFailure();
        resolved.NextTurn(d)
    }

    /** One firing of the countdown interval; the last one resolves the turn as a failure. */
    function TimerTick(d: M.Draws): (r: Match)
      requires timer.Some?
      ensures currentTime > 1 ==> r == this.(currentTime := currentTime - 1)
      ensures currentTime <= 1 ==> r == this.(currentTime := currentTime - 1).StopTimer().HandleFailure().NextTurn(d)
      ensures currentTime <= 1 ==> r.hero == hero.Damaged(FailureDamage).(streak := 0)
      ensures Sound() ==> r.Sound()
      ensures Valid() ==> r.Valid()
    {
      var counted := this.(currentTime := currentTime - 1);
      if counted.currentTime <= 0 then
        counted.StopTimer().HandleFailure().NextTurn(d)
      else
        counted
    }

    /** `start`: active, hero reset, WALK (lifting a DEATH lock), then the first turn. */
    function Start(d: M.Draws): (r: Match)
      ensures hero.maxHp > 0 ==>
                r.active && r.hero == hero.Reset() && r.anim.name == Some(A.Walk) &&
                r.problem == Some(M.GenerateProblem(0, d)) && (r.timer.Some? <==> mode == Campagne)
      ensures r.mode == mode
      ensures hero.maxHp > 0 ==> r.highScore == highScore
      ensures hero.maxHp > 0 && mode == Campagne ==>
                r.currentTime == r.maxTime == TenthsPerSecond * TurnBudget(0)
      ensures Sound() ==> r.Valid()
    {
      var started := this.(active := true, hero := hero.Reset(), anim := anim.Play(A.CharacterConfig, A.Walk));
      assert hero.maxHp > 0 ==> !started.hero.IsDead() && started.hero.streak == 0;
      started.NextTurn(d)
    }

    /** The Enter key: start a match when none is active. */
    function OnEnterKey(d: M.Draws): (r: Match)
      ensures active ==> r == this
      ensures !active ==> r == Start(d)
    {
      if !active then Start(d) else this
    }

    /** The form's submit: check a parsed answer, only while a match is active. */
    function OnSubmit(input: Option<int>, roll: real, d: M.Draws): (r: Match)
      requires M.IsRandom(roll) && (active ==> problem.Some?)
      ensures !active || input.None? ==> r == this
      ensures active && input.Some? ==> r == CheckAnswer(input, roll, d)
    {
      if active && input.Some? then CheckAnswer(input, roll, d) else this
    }

    /** Typing in CAMPAGNE mode: a correct answer is checked without submitting. */
    function OnInput(input: Option<int>, roll: real, d: M.Draws): (r: Match)
      requires M.IsRandom(roll) && (active ==> problem.Some?)
      ensures !(active && mode == Campagne && input.Some? && input.value == problem.value.answer) ==> r == this
      ensures active && mode == Campagne && input.Some? && input.value == problem.value.answer ==>
                r == CheckAnswer(input, roll, d) && r.hero == SucceededHero()
    {
      if active && mode == Campagne && input.Some? && input.value == problem.value.answer
      then CheckAnswer(input, roll, d) else this
    }
  }

  /** The state the constructor builds: a fresh hero, IDLE playing, SOLO mode, no match. */
  function NewMatch(sprite: string, storedHighScore: int): (m: Match)
    ensures m.Valid() && !m.active && m.mode == Solo && m.timer.None?
    ensures m.anim.name == Some(A.Idle) && m.hero == NewHero(HeroMaxHp)
    ensures m.highScore == storedHighScore && m.problem.None?
  {
    Match(NewHero(HeroMaxHp), A.Initial(sprite).Play(A.CharacterConfig, A.Idle), Solo, false, None,
          10 * TenthsPerSecond, 10 * TenthsPerSecond, storedHighScore, None)
  }

  // --- properties of the combat loop ---

  /** A wrong answer at 15 health or less ends the match: HURT, then the DEATH clip, and the record check. */
  lemma WrongAnswerCanEndMatch(m: Match, v: int, roll: real, d: M.Draws)
    requires m.Valid() && m.active && M.IsRandom(roll)
    requires v != m.problem.value.answer && m.hero.currentHp <= FailureDamage
    ensures m.StopTimer().HandleFailure().anim.name == Some(A.Hurt)
    ensures var r := m.CheckAnswer(Some(v), roll, d);
            !r.active && r.timer.None? && r.hero.currentHp == 0 && r.hero.IsDead() &&
            r.anim.name == Some(A.Death) &&
            r.highScore == Max(m.highScore, m.hero.totalCorrect)
  {
  }

  /** In CAMPAGNE, a correct answer reaching a multiple of ten heals 20 (capped at the maximum). */
  lemma MilestoneAnswerHeals(m: Match, roll: real, d: M.Draws)
    requires m.Valid() && m.active && M.IsRandom(roll) && m.mode == Campagne
    requires (m.hero.streak + 1) % MilestoneEvery == 0
    ensures var r := m.CheckAnswer(Some(m.problem.value.answer), roll, d);
            r.active && r.hero.streak == m.hero.streak + 1 &&
            r.hero.currentHp == Min(HeroMaxHp, m.hero.currentHp + MilestoneHeal) &&
            r.timer.Some? && r.currentTime == TenthsPerSecond * TurnBudget(m.hero.streak + 1)
  {
  }

  /** Outside CAMPAGNE a correct answer never heals and starts no countdown. */
  lemma SoloAnswerNeverHeals(m: Match, roll: real, d: M.Draws)
    requires m.Valid() && m.active && M.IsRandom(roll) && m.mode != Campagne
    ensures var r := m.CheckAnswer(Some(m.problem.value.answer), roll, d);
            r.active && r.hero.currentHp == m.hero.currentHp && r.timer.None? &&
            r.hero.streak == m.hero.streak + 1
  {
  }

  /** After game over only WALK or IDLE can play: attack and hurt clips are refused until `start`. */
  lemma GameOverLocksAnimation(m: Match, roll: real, d: M.Draws)
    requires m.Sound() && M.IsRandom(roll)
    ensures var over := m.GameOver();
            over.HandleSuccess(roll).anim == over.anim &&
            over.HandleFailure().anim == over.anim &&
            over.GameOver().anim == over.anim
    ensures var restarted := m.GameOver().Start(d);
            restarted.active && restarted.anim.name == Some(A.Walk) &&
            restarted.HandleSuccess(roll).anim.name == Some(AttackName(AttackIndex(roll)))
  {
  }

  /** `k` firings of the countdown interval (fewer once it is cancelled). */
  function Countdown(m: Match, k: nat, d: M.Draws): Match
    decreases k
  {
    if k == 0 then m
    else
      var p := Countdown(m, k - 1, d);
      if p.timer.None? then p else p.TimerTick(d)
  }

  /** While time remains, the countdown only lowers the remaining time. */
  lemma {:induction false} CountdownWhileTimeRemains(m: Match, k: nat, d: M.Draws)
    requires m.timer.Some? && k < m.currentTime
    ensures Countdown(m, k, d) == m.(currentTime := m.currentTime - k)
  {
    if k > 0 {
      CountdownWhileTimeRemains(m, k - 1, d);
    }
  }

  /**
   * A CAMPAGNE turn lasts exactly its budget: after budget * 10 - 1 ticks the same problem is still
   * open, and the next tick resolves it as a wrong answer followed by a new turn.
   */
  lemma {:induction false} TimedTurnLastsItsBudget(m: Match, d: M.Draws, later: M.Draws)
    requires m.Sound() && m.mode == Campagne && !m.hero.IsDead()
    ensures var turn := m.NextTurn(d);
            var tenths := TenthsPerSecond * TurnBudget(m.hero.streak);
            turn.timer.Some? && turn.currentTime == tenths &&
            Countdown(turn, tenths - 1, later) == turn.(currentTime := 1) &&
            Countdown(turn, tenths, later) ==
              turn.(currentTime := 0).StopTimer().HandleFailure().NextTurn(later) &&
            Countdown(turn, tenths, later).hero == m.hero.Damaged(FailureDamage).(streak := 0)
  {
    var turn := m.NextTurn(d);
    var tenths := TenthsPerSecond * TurnBudget(m.hero.streak);
    CountdownWhileTimeRemains(turn, tenths - 1, later);
    var last := Countdown(turn, tenths - 1, later);
    assert Countdown(turn, tenths, later) == last.TimerTick(later);
    assert last.(currentTime := 0) == turn.(currentTime := 0);
  }

  /** The engine object; its methods update its fields and the shared hero and animation manager. */
  class GameEngine {
    const hero: Hero
    const animManager: A.AnimationManager
    var isGameActive: bool
    var mode: string
    var timerInterval: Option<nat>
    /** Remaining and full time of the turn, in tenths of a second. */
    var currentTime: int
    var maxTime: int
    var highScore: int
    var currentProblem: Option<M.Problem>
    /** Countdown intervals registered with the browser and not yet cleared. */
    ghost var liveTimers: nat

    function State(): Match
      reads this, hero, animManager
    {
      Match(hero.State(), animManager.State(), mode, isGameActive, timerInterval,
            currentTime, maxTime, highScore, currentProblem)
    }

    /** The objects agree with the abstract state, and at most one countdown is pending. */
    ghost predicate Wellformed()
      reads this, hero, animManager
    {
      animManager.Coherent() && animManager.Cfg() == A.CharacterConfig &&
      liveTimers == (if timerInterval.Some? then 1 else 0)
    }

    ghost predicate Sound()
      reads this, hero, animManager
    {
      Wellformed() && State().Sound()
    }

    ghost predicate Valid()
      reads this, hero, animManager
    {
      Wellformed() && State().Valid()
    }

    constructor (spriteElement: string, storedHighScore: int)
      ensures Valid() && State() == NewMatch(spriteElement, storedHighScore)
    {
      hero := new Hero(HeroMaxHp);
      isGameActive := false;
      mode := Solo;
      timerInterval := None;
      currentTime := 10 * TenthsPerSecond;
      maxTime := 10 * TenthsPerSecond;
      highScore := storedHighScore;
      currentProblem := None;
      liveTimers := 0;
      animManager := new A.AnimationManager(spriteElement, A.CharacterAnimations, A.DefaultFrameDuration);
      new;
      animManager.Play(A.Idle);
    }

    method SetMode(newMode: string)
      requires Sound()
      modifies this
      ensures Valid()
      ensures State() == old(State()).SetMode(newMode)
    {
      mode := newMode;
      StopTimer();
      isGameActive := false;
    }

    method Start(d: M.Draws)
      requires Sound()
      modifies this, hero, animManager
      ensures Valid()
      ensures State() == old(State()).Start(d)
    {
      isGameActive := true;
      hero.Reset();
      animManager.Play(A.Walk);
      NextTurn(d);
    }

    method NextTurn(d: M.Draws)
      requires Sound()
      modifies this, hero, animManager
      ensures Sound()
      ensures old(State().ReadyForTurn()) ==> Valid()
      ensures State() == old(State()).NextTurn(d)
    {
      if hero.IsDead() {
        GameOver();
        return;
      }
      StopTimer();
      currentProblem := Some(M.GenerateProblem(hero.streak, d));
      if mode == Campagne {
        StartTimer();
      }
    }

    method CheckAnswer(val: Option<int>, attackRoll: real, d: M.Draws)
      requires Sound() && M.IsRandom(attackRoll) && (val.Some? ==> currentProblem.Some?)
      modifies this, hero, animManager
      ensures Sound()
      ensures State() == old(State()).CheckAnswer(val, attackRoll, d)
      ensures old(Valid()) ==> Valid()
    {
      if val.None? {
        return;
      }
      StopTimer();
      if val.value == currentProblem.value.answer {
        HandleSuccess(attackRoll);
      } else {
        HandleFailure();
      }
      NextTurn(d);
    }

    method HandleSuccess(attackRoll: real)
      requires Sound() && M.IsRandom(attackRoll)
      modifies hero, animManager
      ensures Sound()
      ensures State() == old(State()).HandleSuccess(attackRoll)
    {
      ghost var before := State();
      hero.streak := hero.streak + 1;
      hero.totalCorrect := hero.totalCorrect + 1;
      ghost var counted := hero.State();
      assert counted == before.hero.(streak := before.hero.streak + 1, totalCorrect := before.hero.totalCorrect + 1);
      var randAtk := AttackIndex(attackRoll);
      animManager.Play(AttackName(randAtk));
      assert animManager.State() == before.anim.Play(A.CharacterConfig, AttackName(AttackIndex(attackRoll)));
      if mode == Campagne && hero.streak % MilestoneEvery == 0 {
        hero.Heal(MilestoneHeal);
        assert hero.State() == counted.Healed(MilestoneHeal);
      }
    }

    method HandleFailure()
      requires Sound()
      modifies hero, animManager
      ensures Sound()
      ensures State() == old(State()).HandleFailure()
    {
      hero.TakeDamage(FailureDamage);
      hero.streak := 0;
      animManager.Play(A.Hurt);
    }

    /** Install the countdown; it is only ever called after `StopTimer`. */
    method StartTimer()
      requires Sound() && timerInterval.None? && mode == Campagne && currentProblem.Some?
      modifies this
      ensures Sound()
      ensures State() == old(State()).StartTimer()
    {
      currentTime := Max(3, 10 - hero.streak / 10) * TenthsPerSecond;
      maxTime := currentTime;
      timerInterval := Some(CountdownPeriodMs);
      liveTimers := liveTimers + 1;
    }

    /** The countdown interval's callback. */
    method TimerTick(d: M.Draws)
      requires Sound() && timerInterval.Some?
      modifies this, hero, animManager
      ensures Sound()
      ensures State() == old(State()).TimerTick(d)
      ensures old(Valid()) ==> Valid()
    {
      currentTime := currentTime - 1;
      if currentTime <= 0 {
        StopTimer();
        HandleFailure();
        NextTurn(d);
      }
    }

    method StopTimer()
      requires Wellformed()
      modifies this
      ensures Wellformed() && liveTimers == 0
      ensures State() == old(State()).StopTimer()
    {
      if timerInterval.Some? {
        timerInterval := None;
        liveTimers := liveTimers - 1;
      }
    }

    method GameOver()
      requires Sound()
      modifies this, animManager
      ensures Valid()
      ensures State() == old(State()).GameOver()
    {
      StopTimer();
      isGameActive := false;
      animManager.Play(A.Death);
      if hero.totalCorrect > highScore {
        highScore := hero.totalCorrect;
      }
    }

    /** The animation manager's interval firing during or after a match. */
    method AnimationTick()
      requires Sound() && animManager.intervalId.Some?
      modifies animManager
      ensures Sound()
      ensures State() == old(State()).AnimationTick()
      ensures old(Valid()) ==> Valid()
    {
      A.CharacterConfigWellFormed();
      animManager.Tick();
    }

    method OnEnterKey(d: M.Draws)
      requires Sound()
      modifies this, hero, animManager
      ensures Sound()
      ensures State() == old(State()).OnEnterKey(d)
      ensures old(Valid()) ==> Valid()
    {
      if !isGameActive {
        Start(d);
      }
    }

    method OnSubmit(input: Option<int>, attackRoll: real, d: M.Draws)
      requires Valid() && M.IsRandom(attackRoll)
      modifies this, hero, animManager
      ensures Valid()
      ensures State() == old(State()).OnSubmit(input, attackRoll, d)
    {
      if isGameActive {
        if input.Some? {
          CheckAnswer(input, attackRoll, d);
        }
      }
    }

    method OnInput(input: Option<int>, attackRoll: real, d: M.Draws)
      requires Valid() && M.IsRandom(attackRoll)
      modifies this, hero, animManager
      ensures Valid()
      ensures State() == old(State()).OnInput(input, attackRoll, d)
    {
      if isGameActive && mode == Campagne {
        if input.Some? && input.value == currentProblem.value.answer {
          CheckAnswer(input, attackRoll, d);
        }
      }
    }
  }
}
