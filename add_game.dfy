/**
 * The alternate scoreboard of app/static/js/add.js. Its counters live in
 * the page: `updateScore` reads the two counts back from their elements'
 * text, increments one, writes both back and shows correct minus
 * incorrect as the score. `fetchNextProblem` fills the option slots from
 * a reply's `options` and hides the slots it has no option for.
 */
module AddGame {
  import opened Common
  import Decimal
  import MathGame

  /** The texts of the `correct-count`, `incorrect-count` and `score` elements. */
  class Scoreboard {
    var correctText: string
    var incorrectText: string
    var scoreText: string

    /** Both counters show a decimal integer, as `parseInt(text, 10)` reads it. */
    predicate Valid()
      reads this
    {
      Decimal.ParseInt(correctText).Some? && Decimal.ParseInt(incorrectText).Some?
    }

    function CorrectCount(): int
      reads this
      requires Valid()
    {
      Decimal.ParseInt(correctText).value
    }

    function IncorrectCount(): int
      reads this
      requires Valid()
    {
      Decimal.ParseInt(incorrectText).value
    }

    /** The page as served: both counts and the score show 0. */
    constructor ()
      ensures Valid() && CorrectCount() == 0 && IncorrectCount() == 0 && scoreText == "0"
    {
      correctText, incorrectText, scoreText := "0", "0", "0";
    }

    /** updateScore(isCorrect). */
    method UpdateScore(isCorrect: bool)
      requires Valid()
      modifies this
      ensures Valid()
      ensures CorrectCount() == old(CorrectCount()) + (if isCorrect then 1 else 0)
      ensures IncorrectCount() == old(IncorrectCount()) + (if isCorrect then 0 else 1)
      ensures Decimal.ParseInt(scoreText) == Some(CorrectCount() - IncorrectCount())
      ensures correctText == Decimal.IntToString(CorrectCount())
      ensures incorrectText == Decimal.IntToString(IncorrectCount())
      ensures scoreText == Decimal.IntToString(CorrectCount() - IncorrectCount())
    {
      var correctCount := Decimal.ParseInt(correctText).value;
      var incorrectCount := Decimal.ParseInt(incorrectText).value;
      if isCorrect {
        correctCount := correctCount + 1;
      } else {
        incorrectCount := incorrectCount + 1;
      }
      correctText := Decimal.IntToString(correctCount);
      incorrectText := Decimal.IntToString(incorrectCount);
      scoreText := Decimal.IntToString(correctCount - incorrectCount);
      Decimal.IntRoundTrip(correctCount);
      Decimal.IntRoundTrip(incorrectCount);
      Decimal.IntRoundTrip(correctCount - incorrectCount);
    }

    /**
     * checkAnswer(selectedOption): the option counts as correct exactly
     * when its `data-answer` attribute is "true"; the next problem is
     * always requested at difficulty "easy".
     */
    method CheckAnswer(dataAnswer: string) returns (nextDifficulty: string)
      requires Valid()
      modifies this
      ensures Valid()
      ensures CorrectCount() == old(CorrectCount()) + (if dataAnswer == "true" then 1 else 0)
      ensures IncorrectCount() == old(IncorrectCount()) + (if dataAnswer == "true" then 0 else 1)
      ensures Decimal.ParseInt(scoreText) == Some(CorrectCount() - IncorrectCount())
      ensures nextDifficulty == "easy"
    {
      var isCorrect := dataAnswer == "true";
      UpdateScore(isCorrect);
      nextDifficulty := "easy";
    }
  }

  /** What an option slot shows: its heading text, `data-answer`, and `style.display`. */
  datatype Slot = Slot(text: string, dataAnswer: string, display: string)

  /** A slot filled from an option and made visible. */
  function Shown(option: MathGame.AnswerOption): Slot
  {
    Slot(Decimal.IntToString(option.value), BoolAttribute(option.isCorrect), "block")
  }

  /**
   * A filled slot, once picked, is scored as the option it was filled from
   * was marked, and its text reads back as the option's value.
   */
  lemma ShownSlotScoredAsMarked(option: MathGame.AnswerOption)
    ensures (Shown(option).dataAnswer == "true") == option.isCorrect
    ensures Decimal.ParseInt(Shown(option).text) == Some(option.value)
    ensures Shown(option).display == "block"
  {
    Decimal.IntRoundTrip(option.value);
  }

  /**
   * The option loop of fetchNextProblem: slot i is filled and shown when
   * the reply has options and i is below their number; otherwise it is
   * hidden and keeps its old text and attribute.
   */
  method ShowOptions(slots: array<Slot>, options: Option<seq<MathGame.AnswerOption>>)
    modifies slots
    ensures forall i :: 0 <= i < slots.Length ==>
              if options.Some? && i < |options.value| then slots[i] == Shown(options.value[i])
              else slots[i] == old(slots[i]).(display := "none")
  {
    var index := 0;
    while index < slots.Length
      invariant 0 <= index <= slots.Length
      invariant forall i :: 0 <= i < index ==>
                  if options.Some? && i < |options.value| then slots[i] == Shown(options.value[i])
                  else slots[i] == old(slots[i]).(display := "none")
      invariant forall i :: index <= i < slots.Length ==> slots[i] == old(slots[i])
    {
      if options.Some? && index < |options.value| {
        var option := options.value[index];
        slots[index] := Slot(Decimal.IntToString(option.value), BoolAttribute(option.isCorrect), "block");
      } else {
        slots[index] := slots[index].(display := "none");
      }
      index := index + 1;
    }
  }
}
