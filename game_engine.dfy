/**
 * The problem generator and scoring rules of the math game
 * (FRONTEND/math-adventure/src/lib/gameEngine.ts).
 *
 * `Math.random` is not modelled: every random draw is a caller-supplied
 * offset `draw`, standing for `Math.floor(Math.random() * (max - min + 1))`,
 * so that `getRandomNumber(min, max)` is `min + draw` with `draw <= max - min`.
 */
module GameEngine {
  import opened Wrappers
  import opened Decimal

  datatype Operation = Addition | Subtraction | Multiplication | Division

  /** A grade tier. */
  type Difficulty = d: int | 1 <= d <= 6 witness 1

  function Min(a: int, b: int): int {
    if a <= b then a else b
  }

  function Max(a: int, b: int): int {
    if a <= b then b else a
  }

  datatype NumberRange = NumberRange(min: int, max: int)

  /** Operand magnitudes for each grade tier. */
  function GetNumberRange(difficulty: Difficulty): (r: NumberRange)
    ensures r.min == 1 && r.max in {10, 20, 50, 100, 500, 1000}
  {
    if difficulty == 1 then NumberRange(1, 10)
    else if difficulty == 2 then NumberRange(1, 20)
    else if difficulty == 3 then NumberRange(1, 50)
    else if difficulty == 4 then NumberRange(1, 100)
    else if difficulty == 5 then NumberRange(1, 500)
    else NumberRange(1, 1000)
  }

  lemma NumberRangeGrowsWithDifficulty(d1: Difficulty, d2: Difficulty)
    requires d1 < d2
    ensures GetNumberRange(d1).max < GetNumberRange(d2).max
  {
  }

  /** `getRandomNumber(min, max)` once the random draw has been made. */
  function RandomNumber(min: int, max: int, draw: nat): (r: int)
    requires draw <= max - min
    ensures min <= r <= max
    ensures r - min == draw
  {
    draw + min
  }

  function OperationSymbol(operation: Operation): (s: string)
    ensures |s| == 1 && s[0] != ' '
  {
    match operation
    case Addition => "+"
    case Subtraction => "\U{2212}"
    case Multiplication => "\U{00D7}"
    case Division => "\U{00F7}"
  }

  function SymbolOperation(s: string): (r: Option<Operation>)
    ensures r.Some? ==> OperationSymbol(r.value) == s
  {
    if s == "+" then Some(Addition)
    else if s == "\U{2212}" then Some(Subtraction)
    else if s == "\U{00D7}" then Some(Multiplication)
    else if s == "\U{00F7}" then Some(Division)
    else None
  }

  /** The text shown to the player: first operand, space, symbol, space, second operand. */
  function DisplayString(num1: int, operation: Operation, num2: int): string {
    IntToString(num1) + " " + OperationSymbol(operation) + " " + IntToString(num2)
  }

  /** Splits `s` at its first space into the word before and the text after it. */
  function SplitAtSpace(s: string): Option<(string, string)> {
    var i := IndexOfSpace(s);
    if i == |s| then None else Some((s[..i], s[i + 1..]))
  }

  lemma SplitAtSpaceAfterWord(w: string, rest: string)
    requires NoSpace(w)
    ensures SplitAtSpace(w + " " + rest) == Some((w, rest))
  {
    var s := w + " " + rest;
    IndexOfSpaceAfterWord(w, rest);
    assert s[..|w|] == w;
    assert s[|w| + 1..] == rest;
  }

  /** Reads a shown problem back into its operands and operation. */
  function DecodeDisplay(s: string): Option<(int, Operation, int)> {
    match SplitAtSpace(s)
    case None => None
    case Some((left, rest)) =>
      match SplitAtSpace(rest)
      case None => None
      case Some((sym, right)) =>
        match (DecodeInteger(left), SymbolOperation(sym), DecodeInteger(right))
        case (Some(a), Some(op), Some(b)) => Some((a, op, b))
        case _ => None
  }

  lemma SymbolRoundTrip(operation: Operation)
    ensures SymbolOperation(OperationSymbol(operation)) == Some(operation)
  {
  }

  lemma DisplayStringRoundTrip(num1: int, operation: Operation, num2: int)
    ensures DecodeDisplay(DisplayString(num1, operation, num2)) == Some((num1, operation, num2))
  {
    var a, sym, b := IntToString(num1), OperationSymbol(operation), IntToString(num2);
    assert DisplayString(num1, operation, num2) == a + " " + (sym + " " + b);
    SplitAtSpaceAfterWord(a, sym + " " + b);
    SplitAtSpaceAfterWord(sym, b);
    IntToStringRoundTrip(num1);
    IntToStringRoundTrip(num2);
    SymbolRoundTrip(operation);
  }

  datatype MathProblem = MathProblem(num1: int, num2: int, operation: Operation, answer: int, displayString: string)

  /** `v` is the exact result of `a operation b`; for division, `b` divides `a` with quotient `v`. */
  predicate IsResult(operation: Operation, a: int, b: int, v: int) {
    match operation
    case Addition => v == a + b
    case Subtraction => v == a - b
    case Multiplication => v == a * b
    case Division => b != 0 && a == b * v
  }

  /** Operand ceiling for multiplication: at most 12, and at most half the tier's maximum. */
  function MultiplicationMax(max: int): int {
    Min(12, max / 2)
  }

  /** Ceiling for the divisor and the quotient. */
  function DivisionMax(max: int): int {
    Min(12, max)
  }

  /** The operand bounds a generated problem of this operation respects at this tier. */
  predicate WithinTier(difficulty: Difficulty, p: MathProblem) {
    var r := GetNumberRange(difficulty);
    match p.operation
    case Addition => r.min <= p.num1 <= r.max && r.min <= p.num2 <= r.max
    case Subtraction => r.min <= p.num2 <= p.num1 <= r.max
    case Multiplication =>
      1 <= p.num1 <= MultiplicationMax(r.max) && 1 <= p.num2 <= MultiplicationMax(r.max)
    case Division =>
      1 <= p.num2 <= DivisionMax(r.max) && 1 <= p.answer <= DivisionMax(r.max)
  }

  /** What every problem of the generator satisfies. */
  predicate Generated(difficulty: Difficulty, p: MathProblem) {
    && IsResult(p.operation, p.num1, p.num2, p.answer)
    && WithinTier(difficulty, p)
    && p.displayString == DisplayString(p.num1, p.operation, p.num2)
  }

  /**
   * The two random draws `generateProblem` makes, each within the range of its
   * `getRandomNumber` call. For division the first draw picks the divisor and the
   * second the quotient.
   */
  predicate DrawsFit(difficulty: Difficulty, operation: Operation, first: nat, second: nat) {
    var r := GetNumberRange(difficulty);
    match operation
    case Addition => first <= r.max - r.min && second <= r.max - r.min
    case Subtraction => first <= r.max - r.min && second <= Min(r.min + first, r.max) - r.min
    case Multiplication =>
      first <= MultiplicationMax(r.max) - 1 && second <= MultiplicationMax(r.max) - 1
    case Division => first <= DivisionMax(r.max) - 1 && second <= DivisionMax(r.max) - 1
  }

  function GenerateProblem(difficulty: Difficulty, operation: Operation, first: nat, second: nat): (p: MathProblem)
    requires DrawsFit(difficulty, operation, first, second)
    ensures p.operation == operation && Generated(difficulty, p)
  {
    var r := GetNumberRange(difficulty);
    var (num1, num2, answer) :=
      match operation
      case Addition =>
        var n1 := RandomNumber(r.min, r.max, first);
        var n2 := RandomNumber(r.min, r.max, second);
        (n1, n2, n1 + n2)
      case Subtraction =>
        var n1 := RandomNumber(r.min, r.max, first);
        var n2 := RandomNumber(r.min, Min(n1, r.max), second);
        (n1, n2, n1 - n2)
      case Multiplication =>
        var multMax := MultiplicationMax(r.max);
        var n1 := RandomNumber(1, multMax, first);
        var n2 := RandomNumber(1, multMax, second);
        (n1, n2, n1 * n2)
      case Division =>
        var divisor := RandomNumber(1, DivisionMax(r.max), first);
        var quotient := RandomNumber(1, DivisionMax(r.max), second);
        (divisor * quotient, divisor, quotient);
    MathProblem(num1, num2, operation, answer, DisplayString(num1, operation, num2))
  }

  /** The draws that make the generator produce `p`: every problem within the tier can come up. */
  function DrawsFor(difficulty: Difficulty, p: MathProblem): (draws: (nat, nat))
    requires Generated(difficulty, p)
    ensures DrawsFit(difficulty, p.operation, draws.0, draws.1)
    ensures GenerateProblem(difficulty, p.operation, draws.0, draws.1) == p
  {
    var r := GetNumberRange(difficulty);
    match p.operation
    case Addition => (p.num1 - r.min, p.num2 - r.min)
    case Subtraction => (p.num1 - r.min, p.num2 - r.min)
    case Multiplication => (p.num1 - 1, p.num2 - 1)
    case Division => (p.num2 - 1, p.answer - 1)
  }

  lemma ProductOfSmallFactors(a: int, b: int)
    requires 1 <= a <= 12 && 1 <= b <= 12
    ensures 1 <= a * b <= 144
  {
    assert a * b <= 12 * b by {
      assert (12 - a) * b >= 0;
    }
  }

  lemma MultipleAtLeastFactor(b: int, k: int)
    requires b >= 1 && k >= 1
    ensures b * k >= b
  {
    assert b * k == b * (k - 1) + b;
  }

  /** A multiple of `b` strictly between `-b` and `b` is zero. */
  lemma SmallMultipleIsZero(b: int, k: int)
    requires b >= 1 && -b < b * k < b
    ensures k == 0
  {
    if k >= 1 {
      MultipleAtLeastFactor(b, k);
    } else if k <= -1 {
      MultipleAtLeastFactor(b, -k);
    }
  }

  lemma ExactQuotient(divisor: int, quotient: int)
    requires divisor >= 1
    ensures (divisor * quotient) % divisor == 0 && (divisor * quotient) / divisor == quotient
  {
    var n := divisor * quotient;
    var q, m := n / divisor, n % divisor;
    assert divisor * (quotient - q) == m;
    SmallMultipleIsZero(divisor, quotient - q);
  }

  /** Consequences of the construction for each operation. */
  lemma GeneratedProblemFacts(difficulty: Difficulty, p: MathProblem)
    requires Generated(difficulty, p)
    ensures p.num1 >= 1 && p.num2 >= 1
    ensures p.operation == Subtraction ==> p.answer >= 0
    ensures p.operation == Multiplication ==> 1 <= p.answer <= 144
    ensures p.operation == Division ==> p.num1 % p.num2 == 0 && p.num1 / p.num2 == p.answer
  {
    match p.operation
    case Addition =>
    case Subtraction =>
    case Multiplication =>
      ProductOfSmallFactors(p.num1, p.num2);
    case Division =>
      ExactQuotient(p.num2, p.answer);
      ProductOfSmallFactors(p.num2, p.answer);
  }

  lemma SubtractionFromOne(difficulty: Difficulty, p: MathProblem)
    requires Generated(difficulty, p) && p.operation == Subtraction && p.num1 == 1
    ensures p.num2 == 1 && p.answer == 0
  {
  }

  lemma MultiplicationCeilings(difficulty: Difficulty)
    ensures MultiplicationMax(GetNumberRange(difficulty).max)
         == if difficulty == 1 then 5 else if difficulty == 2 then 10 else 12
  {
  }

  /** Strict equality with the stored answer. */
  function CheckAnswer(problem: MathProblem, userAnswer: int): bool {
    problem.answer == userAnswer
  }

  /** For a generated problem, an answer is accepted exactly when it is the arithmetic result. */
  lemma CheckAnswerAcceptsExactResult(difficulty: Difficulty, p: MathProblem, v: int)
    requires Generated(difficulty, p)
    ensures CheckAnswer(p, v) <==> IsResult(p.operation, p.num1, p.num2, v)
  {
    if p.operation == Division && IsResult(Division, p.num1, p.num2, v) {
      QuotientUnique(p.num2, p.answer, v);
    }
  }

  /** Division by a positive divisor has at most one exact quotient. */
  lemma QuotientUnique(divisor: int, q1: int, q2: int)
    requires divisor >= 1 && divisor * q1 == divisor * q2
    ensures q1 == q2
  {
    assert divisor * (q1 - q2) == divisor * q1 - divisor * q2;
    SmallMultipleIsZero(divisor, q1 - q2);
  }

  /** Stars for an accuracy percentage: 90% or more gives 3, 70% gives 2, 50% gives 1. */
  function CalculateStars(correctAnswers: nat, totalQuestions: nat): (stars: nat)
    requires totalQuestions >= 1
    ensures stars <= 3
    ensures stars == 3 <==> 100 * correctAnswers >= 90 * totalQuestions
    ensures stars >= 2 <==> 100 * correctAnswers >= 70 * totalQuestions
    ensures stars >= 1 <==> 100 * correctAnswers >= 50 * totalQuestions
  {
    var percentage := (correctAnswers as real / totalQuestions as real) * 100.0;
    PercentageAtLeast(correctAnswers, totalQuestions, 90);
    PercentageAtLeast(correctAnswers, totalQuestions, 70);
    PercentageAtLeast(correctAnswers, totalQuestions, 50);
    if percentage >= 90.0 then 3
    else if percentage >= 70.0 then 2
    else if percentage >= 50.0 then 1
    else 0
  }

  lemma PercentageAtLeast(correct: nat, total: nat, bound: nat)
    requires total >= 1
    ensures (correct as real / total as real) * 100.0 >= bound as real
        <==> 100 * correct >= bound * total
  {
    var q := correct as real / total as real;
    assert q * total as real == correct as real;
    assert (q * 100.0 >= bound as real) <==> (q * 100.0 * total as real >= bound as real * total as real);
  }

  lemma CalculateStarsMonotone(c1: nat, c2: nat, total: nat)
    requires total >= 1 && c1 <= c2
    ensures CalculateStars(c1, total) <= CalculateStars(c2, total)
  {
  }

  lemma CalculateStarsBoundaries()
    ensures CalculateStars(9, 10) == 3 && CalculateStars(7, 10) == 2
    ensures CalculateStars(5, 10) == 1 && CalculateStars(4, 10) == 0
  {
  }

  /** Points for a correct answer: ten per grade tier plus five per streak step, the streak counting up to five. */
  function CalculateScore(streak: nat, difficulty: Difficulty): (score: nat)
    ensures 10 * difficulty <= score <= 10 * difficulty + 25
    ensures 10 <= score <= 85
  {
    var baseScore := difficulty * 10;
    var streakBonus := Min(streak, 5) * 5;
    baseScore + streakBonus
  }

  lemma CalculateScoreMonotone(s1: nat, s2: nat, difficulty: Difficulty)
    requires s1 <= s2
    ensures CalculateScore(s1, difficulty) <= CalculateScore(s2, difficulty)
    ensures s1 < s2 <= 5 ==> CalculateScore(s1, difficulty) < CalculateScore(s2, difficulty)
  {
  }

  lemma CalculateScoreStreakCap(streak: nat, difficulty: Difficulty)
    requires streak >= 5
    ensures CalculateScore(streak, difficulty) == CalculateScore(5, difficulty) == 10 * difficulty + 25
  {
  }

  lemma CalculateScoreExamples()
    ensures CalculateScore(0, 1) == 10 && CalculateScore(6, 3) == 55
  {
  }

  /** Length of a quick-play round, in seconds. */
  const RoundSeconds := 60

  datatype GameState = GameState(
    score: nat,
    streak: nat,
    questionsAnswered: nat,
    correctAnswers: nat,
    wrongAnswers: nat,
    timeLeft: int,
    currentProblem: Option<MathProblem>,
    difficulty: Difficulty,
    operation: Operation,
    isGameOver: bool,
    stars: nat)

  function CreateInitialGameState(difficulty: Difficulty, operation: Operation, first: nat, second: nat): (g: GameState)
    requires DrawsFit(difficulty, operation, first, second)
    ensures g.score == 0 && g.streak == 0 && g.stars == 0
    ensures g.questionsAnswered == 0 && g.correctAnswers == 0 && g.wrongAnswers == 0
    ensures g.timeLeft == RoundSeconds && !g.isGameOver
    ensures g.difficulty == difficulty && g.operation == operation
    ensures g.currentProblem.Some? && g.currentProblem.value.operation == operation
    ensures Generated(difficulty, g.currentProblem.value)
  {
    GameState(0, 0, 0, 0, 0, RoundSeconds, Some(GenerateProblem(difficulty, operation, first, second)),
              difficulty, operation, false, 0)
  }
}
