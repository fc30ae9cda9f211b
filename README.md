# MathArena game core in Dafny

MathArena is a browser arithmetic game. A knight (the hero) walks through an arena. Each turn
poses an arithmetic problem whose difficulty grows with the current streak of correct answers.
A correct answer makes the knight attack. A wrong answer, or in CAMPAGNE mode an expired
countdown, costs health and plays the hurt clip. The match ends with the DEATH clip and a
high-score check when health reaches zero.

This project models the game's logic and proves properties of it:

- `hero.dfy` (module `Entities`): the hero. `HeroState` is its value and `Hero` is the object
  whose methods update its fields in place.
- `animation.dfy` (module `Animation`): the sprite animation state machine. `AnimState` is the
  manager's fields, `AnimationManager` is the object, and `CharacterAnimations` is the knight's
  clip table. The `setInterval` callback is the explicit `Tick`, and the interval handle is an
  `Option<Ticker>` holding the values the callback captured. A ghost counter of registered
  intervals is tied to the handle, which checks that `play` always cancels before it installs.
- `math_engine.dfy` (module `MathEngine`): problem generation. Every `Math.random()` draw is a
  real parameter in [0, 1).
- `stats.dfy` (module `Stats`): the statistics record-keeping, without storage.
- `game_engine.dfy` (module `Game`): the combat loop. `Match` is the engine's fields together
  with the hero and the animation state, and `GameEngine` is the object. Its countdown callback
  is the explicit `TimerTick`, counted in whole tenths of a second. The animation interval
  firing during a match is `AnimationTick`.
- `common.dfy` (module `Common`): `Option`, `Max`, `Min`, the two mode names, and the uniqueness of
  Euclidean division used by the modulo and exact-division proofs.

Each class method is proved to leave the object in exactly the state that the specification
function of its datatype computes. The properties are then stated about those functions, as
their contracts and as lemmas that relate several steps.

## Model

| member | source | states |
|---|---|---|
| `Entities.NewHero` | js/entities/Hero.js:2-9 | A new hero has full health, level 1 and zero streak, correct and attempt counters, and is alive iff its maximum is positive. |
| `Entities.Hero.constructor` | js/entities/Hero.js:2-9 | The object's fields are those of `NewHero(maxHp)`. |
| `Entities.HeroState.Damaged` | js/entities/Hero.js:11-14 | Only health changes. The new health is `currentHp - amount`, or 0 exactly when the damage reaches the current health. It is never negative, never rises for non-negative damage, and stays within [0, maxHp]. |
| `Entities.Hero.TakeDamage` | js/entities/Hero.js:11-14 | The in-place subtract-then-clamp leaves exactly `Damaged(amount)`, writing only `currentHp`. |
| `Entities.HeroState.Healed` | js/entities/Hero.js:16-19 | Only health changes. The new health is `currentHp + amount`, or `maxHp` exactly when the sum reaches it. It never exceeds the maximum and keeps health in [0, maxHp] for non-negative amounts. |
| `Entities.Hero.Heal` | js/entities/Hero.js:16-19 | The in-place add-then-clamp leaves exactly `Healed(amount)`, writing only `currentHp`. |
| `Entities.HeroState.IsDead` | js/entities/Hero.js:21-23 | With health in range, dead iff health is exactly 0. Positive health is never dead. |
| `Entities.Hero.IsDead` | js/entities/Hero.js:21-23 | Agrees with the value's `IsDead`. For non-negative health, dead iff health is 0. |
| `Entities.HeroState.Reset` | js/entities/Hero.js:25-30 | Health back to the maximum and the three counters at 0. Maximum and level are kept. The result is in range, and alive iff the maximum is positive. |
| `Entities.Hero.Reset` | js/entities/Hero.js:25-30 | The object ends in `old(State()).Reset()`, writing only the four reset fields. |
| `Entities.HealUndoesDamage` | js/entities/Hero.js:11-19 | Healing unclamped damage restores the hero exactly. |
| `Entities.DamageAccumulates` | js/entities/Hero.js:11-14 | Two non-negative hits equal one hit of their sum, clamp included. |
| `Animation.Config.Period` | js/core/AnimationManager.js:41 | The tick period is the clip's duration when it is set and non-zero, otherwise the manager's default frame duration. |
| `Animation.AnimState.UpdateFrame` | js/core/AnimationManager.js:67-74 | Only the sprite changes. It becomes the current frame when that frame exists and is non-empty; otherwise nothing changes. |
| `Animation.AnimState.StopInterval` | js/core/AnimationManager.js:76-81 | No interval is pending afterwards and nothing else changes. |
| `Animation.AnimState.Play` | js/core/AnimationManager.js:12-43 | A replay of the running WALK or IDLE loop is a no-op. While DEATH is current, every clip except WALK and IDLE (DEATH included) is refused. Otherwise the clip becomes current at frame 0, showing its first frame, with exactly one pending interval carrying its looping flag and period. Validity and coherence are preserved. |
| `Animation.AnimState.Tick` | js/core/AnimationManager.js:43-64 | A loop advances modulo its frame count. Any clip before its last frame advances by one. DEATH past its last frame stays on the last frame and cancels its interval. Another one-shot clip past its last frame switches to WALK at frame 0 with the WALK interval. A tick keeps the state valid and never selects a clip other than the current one or WALK. |
| `Animation.AnimState.Ticks` | js/core/AnimationManager.js:43-64 | Any number of interval firings keeps the state valid and the sprite showing the current frame. |
| `Animation.Initial` | js/core/AnimationManager.js:2-10 | Before the first `play` there is no clip, no interval and the given sprite, and the state is valid for every table. |
| `Animation.OneShotAdvances` | js/core/AnimationManager.js:43-63 | After `play` of a one-shot clip, tick k (k below its frame count) shows frame k of the same clip under the same interval. |
| `Animation.OneShotReturnsToWalk` | js/core/AnimationManager.js:43-58 | A one-shot clip other than DEATH with n frames stays on frames 0..n-1 for n-1 ticks, and its n-th tick makes WALK current at frame 0 with a WALK interval. |
| `Animation.LoopCycles` | js/core/AnimationManager.js:44-51 | After `play` of WALK or IDLE with n frames, k ticks show frame `k % n` of the same clip under the same interval. |
| `Animation.DeathFreezesOnLastFrame` | js/core/AnimationManager.js:52-55 | DEATH with n frames is on frame n-1 with no interval after n ticks, and further ticks change nothing. |
| `Animation.StoppedStaysStopped` | js/core/AnimationManager.js:76-81 | Once the interval is cancelled, more ticks leave the state as it is. |
| `Animation.ChevalierFrames` | js/core/AnimationManager.js:88-165 | A clip's frame list holds `count` paths, the i-th being the clip's `_i.png` file. |
| `Animation.CharacterClips` | js/core/AnimationManager.js:87-166 | The table has exactly the seven clips, with frame counts 6, 8, 6, 6, 9, 4, 4 and periods 150, 150, 120, 120, 100, 150, 300 ms. |
| `Animation.CharacterConfigWellFormed` | js/core/AnimationManager.js:87-166 | The table contains WALK, every clip is non-empty, and every frame reference is a non-empty path. |
| `Animation.AnimationManager.constructor` | js/core/AnimationManager.js:2-10 | The manager starts with no clip, no interval, the given table and default period, and no registered interval. |
| `Animation.AnimationManager.Play` | js/core/AnimationManager.js:12-65 | The in-place `play` ends in the state `AnimState.Play` computes. The registered-interval count stays at most one. |
| `Animation.AnimationManager.Tick` | js/core/AnimationManager.js:43-64 | The in-place interval callback ends in the state `AnimState.Tick` computes and keeps the manager valid. |
| `Animation.AnimationManager.UpdateFrame` | js/core/AnimationManager.js:67-74 | The in-place `updateFrame` ends in the state `AnimState.UpdateFrame` computes. |
| `Animation.AnimationManager.StopInterval` | js/core/AnimationManager.js:76-81 | Clears the handle and leaves no registered interval. |
| `MathEngine.DifficultyStage` | js/core/MathEngine.js:30-35 | The stage is in 1..4. Each value holds exactly for its streak band: below 10, 10-19, 20-39, 40 and above. |
| `MathEngine.StageNonDecreasing` | js/core/MathEngine.js:30-35 | A longer streak never gives a lower stage. |
| `MathEngine.RandInt` | js/core/MathEngine.js:65-67 | For `min <= max` and a draw in [0, 1), `randInt` lies in [min, max]. |
| `MathEngine.RandomSubtraction` | js/core/MathEngine.js:43-49 | The larger operand is written first, and the answer is their difference, never negative. |
| `MathEngine.RandomDivision` | js/core/MathEngine.js:57-63 | The text shows `divisor * answer ÷ divisor`, and the answer is the second draw's operand. |
| `MathEngine.ChooseBuilder` | js/core/MathEngine.js:9-27 | Every branch picks a range within [1, 200]. Multiplication and division ranges stay within 12. Multiplication appears only from stage 3 and division only at stage 4. Stage 1, and any stage outside 1..4, is addition over [1, 10]. |
| `MathEngine.RandomAddition` | js/core/MathEngine.js:37-41 | The answer is the sum of the two drawn operands the text shows. For valid draws it lies in [2 min, 2 max]. |
| `MathEngine.SubtractionInRange` | js/core/MathEngine.js:43-49 | The answer lies in [0, max - min]. |
| `MathEngine.RandomMultiplication` | js/core/MathEngine.js:51-55 | The answer is the product of the two drawn operands the text shows. For valid draws and 0 <= min it lies in [min², max²]. |
| `MathEngine.DivisionIsExact` | js/core/MathEngine.js:57-63 | The divisor is at least 2, the dividend is divisible by it with remainder 0, and the quotient is the answer, within [min, max]. |
| `MathEngine.StageOneIsSmallAddition` | js/core/MathEngine.js:5-11 | Below streak 10 the problem is an addition over [1, 10], with an answer in [2, 20]. |
| `MathEngine.DivisionOnlyAtStageFour` | js/core/MathEngine.js:5-35 | Division is chosen iff the streak is at least 40 and the choice draw is at least 0.75. |
| `MathEngine.GenerateProblem` | js/core/MathEngine.js:5-28 | For valid draws, every generated problem has an answer in [0, 400], whatever the stage and branch. |
| `Stats.DefaultData` | js/core/StatsManager.js:8-22 | SOLO and CAMPAGNE high scores are 0, the longest streak is 0, and the four operations are each at count 0, level 1, which is level-consistent. |
| `Stats.StatsData.WithHighScore` | js/core/StatsManager.js:43-50 | The mode's score is replaced exactly when the new score is strictly greater (never for an unknown mode). The set of modes is kept and no score decreases. |
| `Stats.StatsData.WithMaxStreak` | js/core/StatsManager.js:52-57 | Only the longest streak changes, to the maximum of the old value and the new streak. |
| `Stats.StatsData.WithCorrectOperation` | js/core/StatsManager.js:61-71 | An unknown operation changes nothing. A known one gains one count and the level `1 + count / 10`, and every other operation and field is kept. Level consistency is preserved and the level never drops. |
| `Stats.RegisteredTimesCounts` | js/core/StatsManager.js:61-71 | k registrations add k to the count and keep the level consistent and everything else unchanged. |
| `Stats.LevelAfterCorrectAnswers` | js/core/StatsManager.js:8-71 | From the defaults, k correct answers of an operation leave it at count k, level `1 + k / 10`. |
| `Stats.StatsManager.constructor` | js/core/StatsManager.js:2-5 | Without stored data, the manager holds the default data. |
| `Stats.StatsManager.ResetData` | js/core/StatsManager.js:36-39 | The data becomes the default data. |
| `Stats.StatsManager.UpdateHighScore` | js/core/StatsManager.js:43-50 | Returns true iff the score is a new record, updates the data as `WithHighScore` does, and keeps it valid. |
| `Stats.StatsManager.UpdateMaxStreak` | js/core/StatsManager.js:52-57 | Updates the data as `WithMaxStreak` does and keeps it valid. |
| `Stats.StatsManager.RegisterCorrectOperation` | js/core/StatsManager.js:61-71 | The two in-place writes (count, then level) leave the data that `WithCorrectOperation` computes, and keep it valid. |
| `Stats.StatsManager.GetStats` | js/core/StatsManager.js:74-76 | Returns the current data, which is level-consistent when the manager is valid. |
| `Game.TurnBudget` | js/core/GameEngine.js:117 | A turn gets between 3 and 10 seconds: `10 - streak / 10` while that exceeds 3, and exactly 3 iff the streak is at least 70. |
| `Game.BudgetNonIncreasing` | js/core/GameEngine.js:117 | A longer streak never gets more time. |
| `Game.AttackIndex` | js/core/GameEngine.js:97 | A draw in [0, 1) gives an attack number in 1..3. |
| `Game.AttackName` | js/core/GameEngine.js:97-98 | Attack number k names `ATTACK1`, `ATTACK2` or `ATTACK3`, which are clips of the table, one-shot and not DEATH. |
| `Game.NewMatch` | js/core/GameEngine.js:6-33 | The engine starts in SOLO mode, inactive, with no timer and no problem. The high score is the stored record, the hero is a fresh 100-health one, IDLE is playing, and the state is valid. |
| `Game.Match.SetMode` | js/core/GameEngine.js:39-42 | Sets the mode, clears the timer and deactivates the match. Hero, animation, problem, high score and both times are kept, and the result is valid. |
| `Game.Match.StopTimer` | js/core/GameEngine.js:134-139 | No countdown is pending afterwards and nothing else changes. |
| `Game.Match.StartTimer` | js/core/GameEngine.js:116-120 | Installs the 100 ms countdown with remaining and full time both `10 * TurnBudget(streak)` tenths, between 30 and 100. |
| `Game.Match.GameOver` | js/core/GameEngine.js:171-184 | Stops the countdown, deactivates the match and plays DEATH. The high score becomes the larger of itself and the total correct, and changes exactly on a record. The result is valid. |
| `Game.Match.NextTurn` | js/core/GameEngine.js:65-77 | A dead hero leads to game over. Otherwise the problem is the one generated for the current streak, and hero, animation, mode, active flag and high score are kept. A countdown with the full budget runs iff the mode is CAMPAGNE; outside CAMPAGNE both times are kept. |
| `Game.Match.HandleSuccess` | js/core/GameEngine.js:92-106 | Streak and total correct go up by one and the drawn attack clip is played. The hero heals 20 (clamped) exactly in CAMPAGNE at a streak that is a multiple of 10; otherwise health is unchanged. |
| `Game.Match.HandleFailure` | js/core/GameEngine.js:108-114 | The hero takes 15 clamped damage and the streak is cleared, HURT is played, and nothing else changes. |
| `Game.Match.CheckAnswer` | js/core/GameEngine.js:79-90 | NaN changes nothing. Otherwise the hero succeeds iff the value is the answer and fails otherwise. A dead hero ends the match on DEATH. A surviving hero gets the problem for the new streak, with the drawn attack clip (on success) or HURT (on failure) playing. Mode, active flag and high score are kept, and a fresh full countdown runs iff CAMPAGNE. Validity is preserved. |
| `Game.Match.TimerTick` | js/core/GameEngine.js:120-131 | A tick lowers the remaining time by one tenth. The tick that reaches zero stops the countdown, resolves the turn as a failure and starts the next turn. Validity is preserved. |
| `Game.Match.Start` | js/core/GameEngine.js:56-63 | Activates the match, resets the hero, makes WALK current (lifting a DEATH lock) and poses the first problem for streak 0. The mode and high score are kept. A countdown of `TurnBudget(0)` = 10 seconds runs iff CAMPAGNE. The result is valid. |
| `Game.Match.OnEnterKey` | js/core/GameEngine.js:191-195 | Enter starts a match only when none is active. |
| `Game.Match.OnSubmit` | js/core/GameEngine.js:198-207 | A submitted number is checked only while a match is active; NaN or an inactive match changes nothing. |
| `Game.Match.OnInput` | js/core/GameEngine.js:210-217 | In an active CAMPAGNE match, typing the exact answer checks it as a success; any other input changes nothing. |
| `Game.Match.AnimationTick` | js/core/AnimationManager.js:43-64 | The animation interval firing during a match changes only the animation. It keeps the match valid and never makes DEATH current. |
| `Game.WrongAnswerCanEndMatch` | js/core/GameEngine.js:65-187 | In a running match, a wrong answer at 15 health or less plays HURT and then, through the next turn, ends the match. Afterwards health is 0, DEATH is current, no countdown runs, and the high score is the larger of itself and the total correct. |
| `Game.MilestoneAnswerHeals` | js/core/GameEngine.js:92-106 | In CAMPAGNE, a correct answer that brings the streak to a multiple of 10 heals to `min(100, hp + 20)`, and the next turn gets a fresh budget for the new streak. |
| `Game.SoloAnswerNeverHeals` | js/core/GameEngine.js:92-106 | Outside CAMPAGNE, a correct answer never changes health and starts no countdown. |
| `Game.GameOverLocksAnimation` | js/core/AnimationManager.js:21-29 | After game over, attacks, HURT and DEATH are refused. A new `start` makes WALK current, after which attacks play again. |
| `Game.CountdownWhileTimeRemains` | js/core/GameEngine.js:120-131 | While time remains, k countdown ticks only lower the remaining time by k tenths. |
| `Game.TimedTurnLastsItsBudget` | js/core/GameEngine.js:116-131 | A CAMPAGNE turn stays open for exactly `10 * budget - 1` ticks. Tick `10 * budget` resolves it as a failure (15 damage, streak cleared) followed by the next turn. |
| `Game.GameEngine.constructor` | js/core/GameEngine.js:6-33 | The engine's objects and fields form `NewMatch` with the stored high score, in a valid state. |
| `Game.GameEngine.SetMode` | js/core/GameEngine.js:39-42 | Ends in `Match.SetMode`'s state, valid. |
| `Game.GameEngine.Start` | js/core/GameEngine.js:56-63 | Ends in `Match.Start`'s state, valid. |
| `Game.GameEngine.NextTurn` | js/core/GameEngine.js:65-77 | Ends in `Match.NextTurn`'s state, valid when the match was ready for a turn. |
| `Game.GameEngine.CheckAnswer` | js/core/GameEngine.js:79-90 | Ends in `Match.CheckAnswer`'s state and preserves validity. |
| `Game.GameEngine.HandleSuccess` | js/core/GameEngine.js:92-106 | Ends in `Match.HandleSuccess`'s state. |
| `Game.GameEngine.HandleFailure` | js/core/GameEngine.js:108-114 | Ends in `Match.HandleFailure`'s state. |
| `Game.GameEngine.StartTimer` | js/core/GameEngine.js:116-120 | Ends in `Match.StartTimer`'s state, with at most one countdown registered. |
| `Game.GameEngine.TimerTick` | js/core/GameEngine.js:120-131 | Ends in `Match.TimerTick`'s state and preserves validity. |
| `Game.GameEngine.StopTimer` | js/core/GameEngine.js:134-139 | Ends in `Match.StopTimer`'s state with no countdown registered. |
| `Game.GameEngine.GameOver` | js/core/GameEngine.js:171-184 | Ends in `Match.GameOver`'s state, valid. |
| `Game.GameEngine.AnimationTick` | js/core/AnimationManager.js:43-64 | Ends in `Match.AnimationTick`'s state and preserves validity. |
| `Game.GameEngine.OnEnterKey` | js/core/GameEngine.js:191-195 | Ends in `Match.OnEnterKey`'s state. |
| `Game.GameEngine.OnSubmit` | js/core/GameEngine.js:198-207 | Ends in `Match.OnSubmit`'s state, valid. |
| `Game.GameEngine.OnInput` | js/core/GameEngine.js:210-217 | Ends in `Match.OnInput`'s state, valid. |

## Left out

- js/core/GameLoop.js is not part of this model. It is an older copy of the engine that still holds merge-conflict markers.
- The network and server code (js/core/AuthManager.js, js/core/Game_client.js, server/server.js), the menu wiring in js/main.js and the separate quiz in script.js are not part of this model.
- DOM effects are not modelled: the HP bar, streak and record displays, message texts, the timer bar width, input visibility and focus, `flashUI` and `triggerDamageAnimation`. The sprite element is modelled only by its `src` string.
- Local storage is not modelled. The engine's stored high score is a constructor parameter, already converted to a number (the source reads a string and relies on `>` coercing it). `StatsManager`'s `loadData` merge and `saveData` are omitted, so `Stats.StatsManager.constructor` covers only the case where storage is empty.
- Real timers are not modelled. `setInterval` and `clearInterval` become handles and explicit tick operations. The interleaving of the countdown and animation intervals is whatever order the caller invokes `TimerTick` and `AnimationTick`. The handle's identity is not modelled.
- `Math.random()` is replaced by parameters: the attack draw, and `Draws` for the problem generator's choice and operand draws.
- `parseInt` on the input box is represented by its result, `Option<int>`, where `None` stands for NaN.
- Game.TimedTurnLastsItsBudget: the countdown is counted in whole tenths, so it expires after exactly `10 * budget` ticks. The source subtracts `0.1` from a binary floating-point number. Its accumulated rounding error can leave the value just above zero at tick `10 * budget`, so the last tick can come one tick later. That float behaviour is not modelled.
- Stats.StatsManager.GetStats: returns a copy of the data value. The source returns the live object, so changes through the returned reference (aliasing) are not modelled.
- Animation clip names must be in the clip table (a precondition of `Play`), and `Tick` needs WALK in the table. The source would dereference `undefined` in those cases.
- `Hero.level` and `Hero.totalAttempts` are kept and reset as in the source. Nothing in the modelled core changes the level or counts attempts.
