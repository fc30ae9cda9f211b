// Arithmetic problem generation (js/core/MathEngine.js). Every `Math.random()` draw is a
// parameter: a real number in [0, 1).
module MathEngine {
  import opened Common

  /** A generated problem: the text shown to the player and the expected answer. */
  datatype Problem = Problem(text: string, answer: int)

  /** The four builders `randomAddition` .. `randomDivision`. */
  datatype Operation = Addition | Subtraction | Multiplication | Division

  /** A builder with the operand range `generateProblem` passes to it. */
  datatype Builder = Builder(op: Operation, min: int, max: int)

  /** What `Math.random()` can return. */
  predicate IsRandom(r: real)
  {
    0.0 <= r < 1.0
  }

  /** The three draws one `generateProblem` call makes: the branch choice and two operand draws. */
  datatype Draws = Draws(choice: real, first: real, second: real)
  {
    predicate Valid()
    {
      IsRandom(choice) && IsRandom(first) && IsRandom(second)
    }
  }

  /** `getDifficultyStage`: the streak thresholds 10, 20 and 40. */
  function DifficultyStage(streak: int): (stage: int)
    ensures 1 <= stage <= 4
    ensures stage == 1 <==> streak < 10
    ensures stage == 2 <==> 10 <= streak < 20
    ensures stage == 3 <==> 20 <= streak < 40
    ensures stage == 4 <==> 40 <= streak
  {
    if streak < 10 then 1
    else if streak < 20 then 2
    else if streak < 40 then 3
    else 4
  }

  /** A longer streak never lowers the stage. */
  lemma StageNonDecreasing(a: int, b: int)
    requires a <= b
    ensures DifficultyStage(a) <= DifficultyStage(b)
  {
  }

  lemma ProductBelow(r: real, k: real)
    requires IsRandom(r) && k >= 1.0
    ensures 0.0 <= r * k < k
  {
    assert k - r * k == (1.0 - r) * k;
  }

  /** `randInt(min, max)` for the draw `r`: `Math.floor(r * (max - min + 1)) + min`. */
  function RandInt(min: int, max: int, r: real): (v: int)
    ensures IsRandom(r) && min <= max ==> min <= v <= max
  {
    var x := r * (max - min + 1) as real;
    assert IsRandom(r) && min <= max ==> 0 <= x.Floor <= max - min by {
      if IsRandom(r) && min <= max {
        ProductBelow(r, (max - min + 1) as real);
        assert x.Floor as real <= x < x.Floor as real + 1.0;
      }
    }
    x.Floor + min
  }

  function DigitString(d: nat): string
    requires d < 10
  {
    [(('0' as int) + d) as char]
  }

  /** The decimal text of a number, as `${n}` prints an integer. */
  function Show(n: int): string
    decreases if n < 0 then 1 - n else n
  {
    if n < 0 then "-" + Show(-n)
    else if n < 10 then DigitString(n)
    else Show(n / 10) + DigitString(n % 10)
  }

  /** `randomAddition(min, max)`: the sum of two operands drawn from [min, max]. */
  function RandomAddition(min: int, max: int, r1: real, r2: real): (p: Problem)
    ensures var a, b := RandInt(min, max, r1), RandInt(min, max, r2);
            p.text == Show(a) + " + " + Show(b) && p.answer == a + b
    ensures IsRandom(r1) && IsRandom(r2) && min <= max ==> 2 * min <= p.answer <= 2 * max
  {
    var a := RandInt(min, max, r1);
    var b := RandInt(min, max, r2);
    Problem(Show(a) + " + " + Show(b), a + b)
  }

  /** `randomSubtraction(min, max)`: the larger operand first, so the answer is never negative. */
  function RandomSubtraction(min: int, max: int, r1: real, r2: real): (p: Problem)
    ensures p.answer >= 0
    ensures var a, b := RandInt(min, max, r1), RandInt(min, max, r2);
            p.text == Show(Max(a, b)) + " - " + Show(Min(a, b)) &&
            (p.answer == a - b || p.answer == b - a)
  {
    var a := RandInt(min, max, r1);
    var b := RandInt(min, max, r2);
    var large := Max(a, b);
    var small := Min(a, b);
    Problem(Show(large) + " - " + Show(small), large - small)
  }

  /** `randomMultiplication(min, max)`: the product of two operands drawn from [min, max]. */
  function RandomMultiplication(min: int, max: int, r1: real, r2: real): (p: Problem)
    ensures var a, b := RandInt(min, max, r1), RandInt(min, max, r2);
            p.text == Show(a) + " × " + Show(b) && p.answer == a * b
    ensures IsRandom(r1) && IsRandom(r2) && 0 <= min <= max ==> min * min <= p.answer <= max * max
  {
    var a := RandInt(min, max, r1);
    var b := RandInt(min, max, r2);
    assert IsRandom(r1) && IsRandom(r2) && 0 <= min <= max ==> min * min <= a * b <= max * max by {
      if IsRandom(r1) && IsRandom(r2) && 0 <= min <= max {
        MulMonotone(min, min, a, b);
        MulMonotone(a, b, max, max);
      }
    }
    Problem(Show(a) + " × " + Show(b), a * b)
  }

  /** The divisor `randomDivision(min, max)` draws: at least 2. */
  function DivisionDivisor(min: int, max: int, r1: real): int
  {
    RandInt(Max(2, min), max, r1)
  }

  /** `randomDivision(min, max)`: the dividend is built as divisor * answer. */
  function RandomDivision(min: int, max: int, r1: real, r2: real): (p: Problem)
    ensures var divisor := DivisionDivisor(min, max, r1);
            p.text == Show(divisor * p.answer) + " ÷ " + Show(divisor) &&
            p.answer == RandInt(min, max, r2)
  {
    var realMin := Max(2, min);
    var divisor := RandInt(realMin, max, r1);
    var result := RandInt(min, max, r2);
    var dividend := divisor * result;
    Problem(Show(dividend) + " ÷ " + Show(divisor), result)
  }

  /** The `switch` of `generateProblem`: which builder and range a stage and a choice draw select. */
  function ChooseBuilder(stage: int, rand: real): (b: Builder)
    ensures 1 <= b.min <= b.max <= 200
    ensures b.op == Multiplication || b.op == Division ==> b.max <= 12
    ensures b.op == Division ==> stage == 4
    ensures stage == 1 ==> b == Builder(Addition, 1, 10)
    ensures b.op == Multiplication ==> stage == 3 || stage == 4
    ensures stage !in {1, 2, 3, 4} ==> b == Builder(Addition, 1, 10)
  {
    match stage
    case 1 => Builder(Addition, 1, 10)
    case 2 =>
      if rand < 0.5 then Builder(Addition, 10, 50) else Builder(Subtraction, 1, 20)
    case 3 =>
      if rand < 0.33 then Builder(Addition, 20, 100)
      else if rand < 0.66 then Builder(Subtraction, 10, 50)
      else Builder(Multiplication, 2, 9)
    case 4 =>
      if rand < 0.25 then Builder(Addition, 50, 200)
      else if rand < 0.50 then Builder(Subtraction, 50, 200)
      else if rand < 0.75 then Builder(Multiplication, 3, 12)
      else Builder(Division, 2, 12)
    case _ => Builder(Addition, 1, 10)
  }

  /** Call the selected builder with its range and the two operand draws. */
  function Build(b: Builder, r1: real, r2: real): Problem
  {
    match b.op
    case Addition => RandomAddition(b.min, b.max, r1, r2)
    case Subtraction => RandomSubtraction(b.min, b.max, r1, r2)
    case Multiplication => RandomMultiplication(b.min, b.max, r1, r2)
    case Division => RandomDivision(b.min, b.max, r1, r2)
  }

  /** `generateProblem(streak)`: from valid draws, every answer lies in [0, 400]. */
  function GenerateProblem(streak: int, d: Draws): (p: Problem)
    ensures d.Valid() ==> 0 <= p.answer <= 400
  {
    var difficulty := DifficultyStage(streak);
    var b := ChooseBuilder(difficulty, d.choice);
    var p := Build(b, d.first, d.second);
    assert d.Valid() ==> 0 <= p.answer <= 400 by {
      if d.Valid() {
        if b.op == Subtraction {
          SubtractionInRange(b.min, b.max, d.first, d.second);
        } else if b.op == Multiplication {
          MulMonotone(b.max, b.max, 12, 12);
        } else if b.op == Division {
          DivisionIsExact(b.min, b.max, d.first, d.second);
        }
      }
    }
    p
  }

  // --- properties of the generated problems ---

  /** A subtraction over [min, max] has an answer in [0, max - min]. */
  lemma SubtractionInRange(min: int, max: int, r1: real, r2: real)
    requires IsRandom(r1) && IsRandom(r2) && min <= max
    ensures 0 <= RandomSubtraction(min, max, r1, r2).answer <= max - min
  {
  }

  lemma MulMonotone(a: int, b: int, c: int, d: int)
    requires 0 <= a <= c && 0 <= b <= d
    ensures a * b <= c * d
  {
    assert c * d - a * b == (c - a) * d + a * (d - b);
  }

  /** A division problem divides exactly: divisor >= 2, remainder 0, quotient the answer in [min, max]. */
  lemma DivisionIsExact(min: int, max: int, r1: real, r2: real)
    requires IsRandom(r1) && IsRandom(r2) && min <= max && 2 <= max
    ensures var p := RandomDivision(min, max, r1, r2);
            var divisor := DivisionDivisor(min, max, r1);
            divisor >= 2 &&
            (divisor * p.answer) % divisor == 0 &&
            (divisor * p.answer) / divisor == p.answer &&
            min <= p.answer <= max
  {
    var p := RandomDivision(min, max, r1, r2);
    var divisor := DivisionDivisor(min, max, r1);
    DivModUnique(divisor * p.answer, p.answer, divisor, 0);
  }

  /** Stage 1 (streak below 10) always poses an addition of two operands in [1, 10]. */
  lemma StageOneIsSmallAddition(streak: int, d: Draws)
    requires streak < 10 && d.Valid()
    ensures GenerateProblem(streak, d) == RandomAddition(1, 10, d.first, d.second)
    ensures 2 <= GenerateProblem(streak, d).answer <= 20
  {
  }

  /** Division is posed only from stage 4 (streak 40 or more), and then exactly when the choice draw is at least 0.75. */
  lemma DivisionOnlyAtStageFour(streak: int, rand: real)
    ensures ChooseBuilder(DifficultyStage(streak), rand).op == Division <==> streak >= 40 && rand >= 0.75
  {
  }
}
