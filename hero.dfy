// The player's character: health, combo streak and answer counters (js/entities/Hero.js).
module Entities {

  /** The value of a hero's fields at one moment. */
  datatype HeroState = HeroState(
    maxHp: int,
    currentHp: int,
    level: int,
    streak: int,
    totalCorrect: int,
    totalAttempts: int)
  {
    /** The health invariant: health never goes below 0 or above the maximum. */
    predicate HealthInRange()
    {
      0 <= currentHp <= maxHp
    }

    /** `isDead`: the hero has no health left. */
    function IsDead(): (dead: bool)
      ensures HealthInRange() ==> (dead <==> currentHp == 0)
      ensures currentHp > 0 ==> !dead
    {
      currentHp <= 0
    }

    /** `takeDamage(amount)`: subtract, then clamp at zero. */
    function Damaged(amount: int): (r: HeroState)
      ensures r == this.(currentHp := r.currentHp)
      ensures r.currentHp >= 0
      ensures r.currentHp == 0 <==> currentHp <= amount
      ensures r.currentHp > 0 ==> r.currentHp == currentHp - amount
      ensures amount >= 0 && currentHp >= 0 ==> r.currentHp <= currentHp
      ensures HealthInRange() && amount >= 0 ==> r.HealthInRange()
    {
      var hp := currentHp - amount;
      this.(currentHp := if hp < 0 then 0 else hp)
    }

    /** `heal(amount)`: add, then clamp at the maximum. */
    function Healed(amount: int): (r: HeroState)
      ensures r == this.(currentHp := r.currentHp)
      ensures r.currentHp <= maxHp
      ensures r.currentHp == maxHp <==> currentHp + amount >= maxHp
      ensures r.currentHp < maxHp ==> r.currentHp == currentHp + amount
      ensures amount >= 0 ==> r.currentHp >= currentHp || currentHp > maxHp
      ensures HealthInRange() && amount >= 0 ==> r.HealthInRange()
    {
      var hp := currentHp + amount;
      this.(currentHp := if hp > maxHp then maxHp else hp)
    }

    /** `reset`: full health and cleared counters; the maximum and the level are kept. */
    function Reset(): (r: HeroState)
      ensures r.maxHp == maxHp && r.level == level
      ensures r.currentHp == maxHp
      ensures r.streak == 0 && r.totalCorrect == 0 && r.totalAttempts == 0
      ensures maxHp >= 0 ==> r.HealthInRange()
      ensures !r.IsDead() <==> maxHp > 0
    {
      this.(currentHp := maxHp, streak := 0, totalCorrect := 0, totalAttempts := 0)
    }
  }

  /** The state the constructor `Hero(maxHp)` builds. */
  function NewHero(maxHp: int): (h: HeroState)
    ensures h.maxHp == maxHp && h.level == 1
    ensures h.currentHp == maxHp && h.streak == 0 && h.totalCorrect == 0 && h.totalAttempts == 0
    ensures h.Reset() == h
    ensures maxHp >= 0 ==> h.HealthInRange()
    ensures h.IsDead() <==> maxHp <= 0
  {
    HeroState(maxHp, maxHp, 1, 0, 0, 0)
  }

  /** Healing the damage just taken restores the hero, as long as the damage was not clamped. */
  lemma HealUndoesDamage(h: HeroState, amount: int)
    requires h.HealthInRange() && 0 <= amount <= h.currentHp
    ensures h.Damaged(amount).Healed(amount) == h
  {
  }

  /** Two hits of non-negative damage are one hit of their sum. */
  lemma DamageAccumulates(h: HeroState, a: int, b: int)
    requires 0 <= a && 0 <= b
    ensures h.Damaged(a).Damaged(b) == h.Damaged(a + b)
  {
  }

  /** The hero object; its methods update its fields in place. */
  class Hero {
    var maxHp: int
    var currentHp: int
    var level: int
    var streak: int
    var totalCorrect: int
    var totalAttempts: int

    /** The abstract value of the object. */
    function State(): HeroState
      reads this
    {
      HeroState(maxHp, currentHp, level, streak, totalCorrect, totalAttempts)
    }

    constructor (maxHp: int)
      ensures State() == NewHero(maxHp)
    {
      this.maxHp := maxHp;
      this.currentHp := maxHp;
      this.level := 1;
      this.streak := 0;
      this.totalCorrect := 0;
      this.totalAttempts := 0;
    }

    method TakeDamage(amount: int)
      modifies this`currentHp
      ensures State() == old(State()).Damaged(amount)
    {
      currentHp := currentHp - amount;
      if currentHp < 0 {
        currentHp := 0;
      }
    }

    method Heal(amount: int)
      modifies this`currentHp
      ensures State() == old(State()).Healed(amount)
    {
      currentHp := currentHp + amount;
      if currentHp > maxHp {
        currentHp := maxHp;
      }
    }

    function IsDead(): (dead: bool)
      reads this
      ensures 0 <= currentHp ==> (dead <==> currentHp == 0)
      ensures dead == State().IsDead()
    {
      currentHp <= 0
    }

    method Reset()
      modifies this`currentHp, this`streak, this`totalCorrect, this`totalAttempts
      ensures State() == old(State()).Reset()
    {
      currentHp := maxHp;
      streak := 0;
      totalCorrect := 0;
      totalAttempts := 0;
    }
  }
}
