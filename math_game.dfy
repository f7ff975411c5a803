/**
 * The client game logic of app/static/js/math.js: the correct answer of an
 * equation, the three answer options offered for it, and the score
 * bookkeeping. `Math.random` is replaced by supplied draws and a supplied
 * permutation; the DOM and `fetch` are left out.
 */
module MathGame {
  import opened Common
  import Decimal

  // ---------------------------------------------------------------------
  // The correct answer

  /** The operator the equation shows for an operation. */
  function OperatorSymbol(operation: string): string
  {
    if operation == "subtraction" then "-" else "+"
  }

  /** The value of `n1 <symbol> n2` for the two operators the game shows. */
  function Evaluate(n1: int, symbol: string, n2: int): Option<int>
  {
    if symbol == "+" then Some(n1 + n2)
    else if symbol == "-" then Some(n1 - n2)
    else None
  }

  /**
   * The answer marked correct for the numbers of a fetched equation. It is
   * the value of the equation as displayed, and it is never negative for a
   * pair in the descending order the number endpoint returns.
   */
  function CorrectAnswer(operation: string, number1: int, number2: int): (r: int)
    ensures Evaluate(number1, OperatorSymbol(operation), number2) == Some(r)
    ensures number1 >= number2 >= 0 ==> r >= 0
  {
    if operation == "subtraction" then number1 - number2 else number1 + number2
  }

  // ---------------------------------------------------------------------
  // generateOptions

  /** One answer offered to the player. */
  datatype AnswerOption = AnswerOption(value: int, isCorrect: bool)

  function Abs(x: int): nat
  {
    if x < 0 then -x else x
  }

  /** The wrong answer a draw `k` of `Math.floor(Math.random() * 10)` proposes. */
  function Candidate(correct: int, k: int): nat
  {
    Abs(correct + k - 5)
  }

  /** `options.some(option => option.value === v)`. */
  predicate HasValue(options: seq<AnswerOption>, v: int)
  {
    exists i :: 0 <= i < |options| && options[i].value == v
  }

  function ValueSet(options: seq<AnswerOption>): set<int>
  {
    set i | 0 <= i < |options| :: options[i].value
  }

  /**
   * The loop of generateOptions as a function: `options` built so far,
   * `draws[n..]` still to come. Stops at three options or when the draws
   * run out.
   */
  function Built(correct: int, options: seq<AnswerOption>, draws: seq<int>, n: nat): seq<AnswerOption>
    requires n <= |draws|
    decreases |draws| - n
  {
    if |options| >= 3 || n == |draws| then options
    else
      var v := Candidate(correct, draws[n]);
      if HasValue(options, v) then Built(correct, options, draws, n + 1)
      else Built(correct, options + [AnswerOption(v, false)], draws, n + 1)
  }

  /** The list the loop builds before the shuffle. */
  function Unshuffled(correct: int, draws: seq<int>): seq<AnswerOption>
  {
    Built(correct, [AnswerOption(correct, true)], draws, 0)
  }

  /** The wrong answers the draws `draws[n..]` propose, repetitions merged. */
  function Candidates(correct: int, draws: seq<int>, n: nat): set<int>
    requires n <= |draws|
    decreases |draws| - n
  {
    if n == |draws| then {} else {Candidate(correct, draws[n])} + Candidates(correct, draws, n + 1)
  }

  /** The draws propose at least two distinct values other than the correct answer. */
  predicate Sufficient(correct: int, draws: seq<int>)
  {
    |Candidates(correct, draws, 0) - {correct}| >= 2
  }

  /**
   * The shape the loop keeps: the correct option first, then wrong options
   * whose values are proposed by some draw, all values pairwise distinct.
   */
  predicate Shape(correct: int, options: seq<AnswerOption>, draws: seq<int>)
  {
    && 1 <= |options| <= 3
    && options[0] == AnswerOption(correct, true)
    && (forall i :: 1 <= i < |options| ==> !options[i].isCorrect)
    && (forall i, j :: 0 <= i < j < |options| ==> options[i].value != options[j].value)
    && (forall i :: 1 <= i < |options| ==>
          exists j :: 0 <= j < |draws| && options[i].value == Candidate(correct, draws[j]))
  }

  lemma {:induction false} BuiltKeepsShape(correct: int, options: seq<AnswerOption>, draws: seq<int>, n: nat)
    requires n <= |draws|
    requires Shape(correct, options, draws)
    ensures Shape(correct, Built(correct, options, draws, n), draws)
    decreases |draws| - n
  {
    if |options| < 3 && n < |draws| {
      var v := Candidate(correct, draws[n]);
      if HasValue(options, v) {
        BuiltKeepsShape(correct, options, draws, n + 1);
      } else {
        var next := options + [AnswerOption(v, false)];
        assert next[|options|].value == Candidate(correct, draws[n]);
        BuiltKeepsShape(correct, next, draws, n + 1);
      }
    }
  }

  lemma {:induction false} BuiltReachesThree(correct: int, options: seq<AnswerOption>, draws: seq<int>, n: nat)
    requires n <= |draws|
    requires |options| <= 3
    requires |Candidates(correct, draws, n) - ValueSet(options)| >= 3 - |options|
    ensures |Built(correct, options, draws, n)| == 3
    decreases |draws| - n
  {
    if |options| < 3 {
      if n < |draws| {
        var v := Candidate(correct, draws[n]);
        var rest := Candidates(correct, draws, n + 1);
        var here := Candidates(correct, draws, n);
        assert here == {v} + rest;
        if HasValue(options, v) {
          assert v in ValueSet(options);
          assert here - ValueSet(options) == rest - ValueSet(options);
          BuiltReachesThree(correct, options, draws, n + 1);
        } else {
          var next := options + [AnswerOption(v, false)];
          assert v !in ValueSet(options);
          ValueSetSnoc(options, AnswerOption(v, false));
          var left := here - ValueSet(options);
          assert v in left;
          assert rest - ValueSet(next) == left - {v};
          assert left == (left - {v}) + {v};
          BuiltReachesThree(correct, next, draws, n + 1);
        }
      }
    }
  }

  lemma ValueSetSnoc(options: seq<AnswerOption>, o: AnswerOption)
    ensures ValueSet(options + [o]) == ValueSet(options) + {o.value}
  {
    var next := options + [o];
    forall x | x in ValueSet(next) ensures x in ValueSet(options) + {o.value} {
      var i :| 0 <= i < |next| && next[i].value == x;
      if i < |options| { assert options[i].value == x; }
    }
    forall x | x in ValueSet(options) ensures x in ValueSet(next) {
      var i :| 0 <= i < |options| && options[i].value == x;
      assert next[i].value == x;
    }
    assert next[|options|].value == o.value;
  }

  /**
   * When the draws propose two distinct wrong values, the loop ends with
   * three options: the correct one first, then two distinct wrong values,
   * each proposed by a draw.
   */
  lemma UnshuffledShape(correct: int, draws: seq<int>)
    requires Sufficient(correct, draws)
    ensures |Unshuffled(correct, draws)| == 3
    ensures Shape(correct, Unshuffled(correct, draws), draws)
  {
    var start := [AnswerOption(correct, true)];
    assert start[0].value == correct;
    assert ValueSet(start) == {correct};
    BuiltReachesThree(correct, start, draws, 0);
    BuiltKeepsShape(correct, start, draws, 0);
  }

  /** `perm` lists each index below `n` exactly once. */
  predicate IsPermutation(perm: seq<nat>, n: nat)
  {
    && |perm| == n
    && (forall k :: 0 <= k < n ==> perm[k] < n)
    && (forall k, m :: 0 <= k < m < n ==> perm[k] != perm[m])
  }

  lemma ReorderedTriples<T>(b0: T, b1: T, b2: T)
    ensures multiset{b0, b2, b1} == multiset{b0, b1, b2}
    ensures multiset{b1, b0, b2} == multiset{b0, b1, b2}
    ensures multiset{b1, b2, b0} == multiset{b0, b1, b2}
    ensures multiset{b2, b0, b1} == multiset{b0, b1, b2}
    ensures multiset{b2, b1, b0} == multiset{b0, b1, b2}
  {
  }

  /** Reordering three values by a permutation keeps the same values. */
  lemma {:induction false} ShuffleKeepsValues<T>(built: seq<T>, perm: seq<nat>)
    requires |built| == 3 && IsPermutation(perm, 3)
    ensures multiset([built[perm[0]], built[perm[1]], built[perm[2]]]) == multiset(built)
  {
    var b0, b1, b2 := built[0], built[1], built[2];
    assert built == [b0, b1, b2];
    assert multiset(built) == multiset{b0, b1, b2};
    var x0, x1, x2 := built[perm[0]], built[perm[1]], built[perm[2]];
    assert multiset([x0, x1, x2]) == multiset{x0, x1, x2};
    ReorderedTriples(b0, b1, b2);
    var p0, p1, p2 := perm[0], perm[1], perm[2];
    assert p0 < 3 && p1 < 3 && p2 < 3 && p0 != p1 && p0 != p2 && p1 != p2;
  }

  /**
   * generateOptions(correctAnswer): the loop pushes the wrong answer of each
   * draw that is not yet an option's value, until there are three options;
   * the shuffle (`sort` with a random comparator) is the supplied `perm`.
   * The draws are the successive values of `Math.floor(Math.random() * 10)`.
   */
  method GenerateOptions(correctAnswer: int, draws: seq<int>, perm: seq<nat>) returns (options: seq<AnswerOption>)
    requires forall j :: 0 <= j < |draws| ==> 0 <= draws[j] <= 9
    requires Sufficient(correctAnswer, draws)
    requires IsPermutation(perm, 3)
    ensures |options| == 3 && |Unshuffled(correctAnswer, draws)| == 3
    ensures forall k :: 0 <= k < 3 ==> options[k] == Unshuffled(correctAnswer, draws)[perm[k]]
    ensures multiset(options) == multiset(Unshuffled(correctAnswer, draws))
    ensures forall k, m :: 0 <= k < m < 3 ==> options[k].value != options[m].value
    ensures forall k :: 0 <= k < 3 ==> (options[k].isCorrect <==> options[k].value == correctAnswer)
    ensures exists k :: 0 <= k < 3 && options[k].isCorrect
    ensures forall k :: 0 <= k < 3 && !options[k].isCorrect ==>
              exists j :: 0 <= j < |draws| && options[k].value == Candidate(correctAnswer, draws[j])
  {
    UnshuffledShape(correctAnswer, draws);
    ghost var target := Unshuffled(correctAnswer, draws);
    var built := [AnswerOption(correctAnswer, true)];
    var n := 0;
    while |built| < 3
      invariant n <= |draws|
      invariant Built(correctAnswer, built, draws, n) == target
      decreases |draws| - n
    {
      var incorrectOption := Abs(correctAnswer + draws[n] - 5);
      var isUnique := !HasValue(built, incorrectOption);
      if isUnique {
        built := built + [AnswerOption(incorrectOption, false)];
      }
      n := n + 1;
    }
    options := [built[perm[0]], built[perm[1]], built[perm[2]]];
    ShuffleKeepsValues(built, perm);
    assert exists k :: 0 <= k < 3 && perm[k] == 0;
  }

  // ---------------------------------------------------------------------
  // updateScore

  /**
   * The score shown after an answer: the percentage of correct answers,
   * rounded to the nearest integer with halves rounded up, and 0 before
   * any answer.
   */
  function ScorePercent(numCorrect: nat, numWrong: nat): (r: int)
    ensures 0 <= r <= 100
    ensures numCorrect + numWrong > 0 ==>
              (numCorrect + numWrong) * (2 * r - 1) <= 200 * numCorrect < (numCorrect + numWrong) * (2 * r + 1)
    ensures numCorrect + numWrong > 0 && numWrong == 0 ==> r == 100
    ensures numCorrect == 0 ==> r == 0
  {
    var total := numCorrect + numWrong;
    if total > 0 then RoundedPercent(numCorrect, total) else 0
  }

  /** `Math.round(sum * 100 / total)` on exact rationals. */
  function RoundedPercent(part: nat, total: nat): (r: int)
    requires 0 < total && part <= total
    ensures 0 <= r <= 100
    ensures total * (2 * r - 1) <= 200 * part < total * (2 * r + 1)
    ensures part == total ==> r == 100
    ensures part == 0 ==> r == 0
  {
    RoundingBounds(part, total);
    (200 * part + total) / (2 * total)
  }

  lemma RoundingBounds(part: nat, total: nat)
    requires 0 < total && part <= total
    ensures var q := (200 * part + total) / (2 * total);
            && 0 <= q <= 100
            && total * (2 * q - 1) <= 200 * part < total * (2 * q + 1)
            && (part == total ==> q == 100)
            && (part == 0 ==> q == 0)
  {
    var x, d := 200 * part + total, 2 * total;
    var q := x / d;
    DivisionBounds(x, d);
    assert d * q == total * (2 * q);
    assert total * (2 * q - 1) == d * q - total;
    assert total * (2 * q + 1) == d * q + d - total;
    if q > 100 {
      MonotoneProduct(d, 101, q);
    }
    if part == total {
      assert d * 100 <= x < d * 101;
      if q < 100 { MonotoneProduct(d, q + 1, 100); }
    }
    if part == 0 {
      assert x < d;
      if q > 0 { MonotoneProduct(d, 1, q); }
    }
  }

  lemma DivisionBounds(x: nat, d: nat)
    requires d > 0
    ensures d * (x / d) <= x < d * (x / d) + d
  {
  }

  lemma MonotoneProduct(d: int, a: int, b: int)
    ensures 0 <= d && a <= b ==> d * a <= d * b
  {
  }

  // ---------------------------------------------------------------------
  // prepareOptions

  /** What an `.options` element shows: its text and its `data-correct` attribute. */
  datatype OptionElement = OptionElement(text: string, dataCorrect: string)

  /** An element filled from an answer: `textContent = answer.value`, `dataset.correct = answer.isCorrect`. */
  function Prepared(answer: AnswerOption): OptionElement
  {
    OptionElement(Decimal.IntToString(answer.value), BoolAttribute(answer.isCorrect))
  }

  /**
   * The flag written into an element reads back as the answer's mark, and
   * its text reads back as the answer's value.
   */
  lemma PreparedOptionScoredAsMarked(answer: AnswerOption)
    ensures (Prepared(answer).dataCorrect == "true") == answer.isCorrect
    ensures Decimal.ParseInt(Prepared(answer).text) == Some(answer.value)
  {
    Decimal.IntRoundTrip(answer.value);
  }

  /**
   * prepareOptions(correctAnswer): generate the options and fill the first
   * three `.options` elements with them. Afterwards exactly one of them is
   * flagged correct, and an element is flagged correct exactly when its
   * text reads as the correct answer.
   */
  method PrepareOptions(elements: array<OptionElement>, correctAnswer: int, draws: seq<int>, perm: seq<nat>)
    returns (answers: seq<AnswerOption>)
    requires elements.Length >= 3
    requires forall j :: 0 <= j < |draws| ==> 0 <= draws[j] <= 9
    requires Sufficient(correctAnswer, draws)
    requires IsPermutation(perm, 3)
    modifies elements
    ensures |answers| == 3 && |Unshuffled(correctAnswer, draws)| == 3
    ensures forall k :: 0 <= k < 3 ==> answers[k] == Unshuffled(correctAnswer, draws)[perm[k]]
    ensures forall i :: 0 <= i < elements.Length ==>
              elements[i] == if i < 3 then Prepared(answers[i]) else old(elements[i])
    ensures forall i :: 0 <= i < 3 ==>
              (elements[i].dataCorrect == "true" <==> Decimal.ParseInt(elements[i].text) == Some(correctAnswer))
    ensures exists i :: 0 <= i < 3 && elements[i].dataCorrect == "true"
  {
    answers := GenerateOptions(correctAnswer, draws, perm);
    var index := 0;
    while index < |answers|
      invariant 0 <= index <= 3
      invariant forall i :: 0 <= i < index ==> elements[i] == Prepared(answers[i])
      invariant forall i :: index <= i < elements.Length ==> elements[i] == old(elements[i])
    {
      elements[index] := OptionElement(Decimal.IntToString(answers[index].value), BoolAttribute(answers[index].isCorrect));
      index := index + 1;
    }
    forall i | 0 <= i < 3
      ensures elements[i].dataCorrect == "true" <==> Decimal.ParseInt(elements[i].text) == Some(correctAnswer)
    {
      PreparedOptionScoredAsMarked(answers[i]);
    }
    var k :| 0 <= k < 3 && answers[k].isCorrect;
    assert elements[k].dataCorrect == "true";
  }

  /** The module-level state of math.js. */
  class GameState {
    var currentDifficulty: string
    var currentOperation: string
    var numCorrect: nat
    var numWrong: nat
    var score: int

    /** The score shown is always the rounded percentage of correct answers. */
    predicate Valid()
      reads this
    {
      score == ScorePercent(numCorrect, numWrong)
    }

    /** The initial values of the globals. */
    constructor ()
      ensures Valid()
      ensures currentDifficulty == "easy" && currentOperation == "addition"
      ensures numCorrect == 0 && numWrong == 0 && score == 0
    {
      currentDifficulty := "easy";
      currentOperation := "addition";
      numCorrect, numWrong, score := 0, 0, 0;
    }

    /** startGame: record the choice; the URL is that of the equation fetched next. */
    method StartGame(difficulty: string, operation: string) returns (url: string)
      modifies this
      ensures currentDifficulty == difficulty && currentOperation == operation
      ensures numCorrect == old(numCorrect) && numWrong == old(numWrong) && score == old(score)
      ensures url == "/api/mock_generate_numbers?difficulty=" + difficulty
    {
      currentDifficulty := difficulty;
      currentOperation := operation;
      url := "/api/mock_generate_numbers?difficulty=" + currentDifficulty;
    }

    /** updateScore: count the answer and recompute the percentage. */
    method UpdateScore(isCorrect: bool)
      requires Valid()
      modifies this
      ensures Valid()
      ensures numCorrect == old(numCorrect) + (if isCorrect then 1 else 0)
      ensures numWrong == old(numWrong) + (if isCorrect then 0 else 1)
      ensures numCorrect + numWrong == old(numCorrect + numWrong) + 1
      ensures 0 <= score <= 100
      ensures numWrong == 0 ==> score == 100
      ensures currentDifficulty == old(currentDifficulty) && currentOperation == old(currentOperation)
    {
      if isCorrect {
        numCorrect := numCorrect + 1;
      } else {
        numWrong := numWrong + 1;
      }
      var total := numCorrect + numWrong;
      score := if total > 0 then RoundedPercent(numCorrect, total) else 0;
    }

    /**
     * checkAnswer(option): the picked element counts as correct exactly when
     * its `data-correct` is "true"; the next equation is fetched for the
     * current difficulty.
     */
    method CheckAnswer(picked: OptionElement) returns (nextUrl: string)
      requires Valid()
      modifies this
      ensures Valid()
      ensures numCorrect == old(numCorrect) + (if picked.dataCorrect == "true" then 1 else 0)
      ensures numWrong == old(numWrong) + (if picked.dataCorrect == "true" then 0 else 1)
      ensures currentDifficulty == old(currentDifficulty) && currentOperation == old(currentOperation)
      ensures nextUrl == "/api/mock_generate_numbers?difficulty=" + currentDifficulty
    {
      var isCorrect := picked.dataCorrect == "true";
      UpdateScore(isCorrect);
      nextUrl := "/api/mock_generate_numbers?difficulty=" + currentDifficulty;
    }
  }
}
