/**
 * The countdown of app/static/js/timer.js: `setTimer`, one firing of the
 * interval set by `startTimer`, `stopTimer`, and the `m:ss` text of
 * `updateTimerDisplay`. `setInterval` itself is left out: each call of
 * `Tick` is one firing, allowed only while an interval is set.
 */
module Timer {
  import opened Common
  import Decimal
  import MathGame

  // ---------------------------------------------------------------------
  // updateTimerDisplay

  /** The quotient of `a / b` rounded toward zero, for `b > 0`. */
  function TruncQuotient(a: int, b: int): int
    requires b > 0
  {
    if a >= 0 then a / b else -((-a) / b)
  }

  /**
   * JavaScript's `a % b` for `b > 0`: the remainder of the quotient rounded
   * toward zero, so it has the sign of `a`.
   */
  function JsRemainder(a: int, b: int): (r: int)
    requires b > 0
    ensures a == b * TruncQuotient(a, b) + r
    ensures a >= 0 ==> 0 <= r < b
    ensures a < 0 ==> -b < r <= 0
    ensures a >= 0 ==> r == a % b
  {
    if a >= 0 then a % b else -((-a) % b)
  }

  /**
   * The display text: `Math.floor(remaining / 60)`, ":", a "0" when the
   * seconds are below 10, and `remaining % 60`.
   */
  function TimerText(remaining: int): string
  {
    var minutes := remaining / 60;
    var seconds := JsRemainder(remaining, 60);
    Decimal.IntToString(minutes) + ":" + (if seconds < 10 then "0" else "") + Decimal.IntToString(seconds)
  }

  /**
   * For a non-negative time the text is the whole minutes, ":", and the
   * seconds as exactly two digits.
   */
  lemma {:induction false} TimerTextShape(remaining: int)
    requires remaining >= 0
    ensures TimerText(remaining) ==
            Decimal.NatToString(remaining / 60) + ":" +
            [Decimal.DigitChar(remaining % 60 / 10), Decimal.DigitChar(remaining % 60 % 10)]
  {
    var seconds := remaining % 60;
    assert JsRemainder(remaining, 60) == seconds;
    if seconds >= 10 {
      assert Decimal.NatToString(seconds) ==
             Decimal.NatToString(seconds / 10) + [Decimal.DigitChar(seconds % 10)];
      assert Decimal.NatToString(seconds / 10) == [Decimal.DigitChar(seconds / 10)];
    } else {
      assert "0" == [Decimal.DigitChar(0)];
    }
  }

  /** Reads a display text back: digits, ":", two digits below 60. */
  function ParseTimerText(s: string): Option<int>
  {
    if |s| >= 4 && s[|s| - 3] == ':' then
      match (Decimal.ParseNat(s[..|s| - 3]), Decimal.ParseNat(s[|s| - 2..]))
      case (Some(m), Some(sec)) => if sec < 60 && |s[|s| - 2..]| == 2 then Some(m * 60 + sec) else None
      case _ => None
    else
      None
  }

  /** A non-negative remaining time is recovered exactly from its display text. */
  lemma {:induction false} TimerTextRoundTrip(remaining: int)
    requires remaining >= 0
    ensures ParseTimerText(TimerText(remaining)) == Some(remaining)
  {
    TimerTextShape(remaining);
    var m := Decimal.NatToString(remaining / 60);
    var tens, ones := Decimal.DigitChar(remaining % 60 / 10), Decimal.DigitChar(remaining % 60 % 10);
    var s := TimerText(remaining);
    assert s == m + ":" + [tens, ones];
    assert s[..|s| - 3] == m;
    assert s[|s| - 2..] == [tens, ones];
    var sec := remaining % 60;
    assert [tens, ones][..1] == [tens];
    assert [tens][..0] == [];
    assert Decimal.DigitsValue([tens]) == sec / 10;
    assert Decimal.DigitsValue([tens, ones]) == (sec / 10) * 10 + sec % 10;
    Decimal.NatRoundTrip(remaining / 60);
  }

  // ---------------------------------------------------------------------
  // The countdown state machine

  /** `gameTimeRemaining`, `gameActive`, and whether an interval is set. */
  datatype Clock = Clock(remaining: int, active: bool, running: bool)

  /** setTimer(minutes): minutes in seconds, active, a fresh interval set. */
  function Started(minutes: int): Clock
  {
    Clock(minutes * 60, true, true)
  }

  /** One firing of the interval: one second less; at or below zero the game ends and the interval is cleared. */
  function Ticked(c: Clock): Clock
    requires c.running
  {
    var r := c.remaining - 1;
    if r <= 0 then Clock(r, false, false) else Clock(r, c.active, true)
  }

  /** stopTimer: interval cleared and game inactive, whatever the state was. */
  function Stopped(c: Clock): Clock
  {
    Clock(c.remaining, false, false)
  }

  /** The state after `k` seconds of wall-clock time: the interval fires until it is cleared. */
  function AfterTicks(c: Clock, k: nat): Clock
    decreases k
  {
    if k == 0 || !c.running then c else AfterTicks(Ticked(c), k - 1)
  }

  /**
   * A running countdown with `r >= 1` seconds left loses exactly one second
   * per firing, keeps running for exactly `r - 1` firings, and stops at 0.
   */
  lemma {:induction false} Countdown(c: Clock, k: nat)
    requires c.running && c.remaining >= 1
    ensures k < c.remaining ==> AfterTicks(c, k) == Clock(c.remaining - k, c.active, true)
    ensures k >= c.remaining ==> AfterTicks(c, k) == Clock(0, false, false)
    decreases k
  {
    if k > 0 {
      var next := Ticked(c);
      if next.running {
        Countdown(next, k - 1);
      } else {
        assert c.remaining == 1;
        assert AfterTicks(next, k - 1) == next;
      }
    }
  }

  /**
   * After setTimer(m) with m >= 1, the game stays active for exactly 60*m
   * seconds, the remaining time after k seconds is max(60*m - k, 0), and it
   * never goes below zero.
   */
  lemma CountdownFromStart(minutes: int, k: nat)
    requires minutes >= 1
    ensures var c := AfterTicks(Started(minutes), k);
            && c.remaining == (if k < 60 * minutes then 60 * minutes - k else 0)
            && (c.active <==> k < 60 * minutes)
            && (c.running <==> k < 60 * minutes)
  {
    Countdown(Started(minutes), k);
  }

  /** After setTimer(m) with m <= 0 the first firing already ends the game, one second below 60*m. */
  lemma {:induction false} ShortTimerEndsAtFirstTick(minutes: int, k: nat)
    requires minutes <= 0 && k >= 1
    ensures AfterTicks(Started(minutes), k) == Clock(60 * minutes - 1, false, false)
  {
    var next := Ticked(Started(minutes));
    assert !next.running;
    assert AfterTicks(next, k - 1) == next;
  }

  /** Time's up: the counters and score the alert reports. */
  datatype Report = Report(answered: int, outOf: int, score: int)

  /** The alert's figures as written: the total is `numWrong + numWrong`. */
  function TimesUpReport(numCorrect: int, numWrong: int, score: int): Report
  {
    Report(numCorrect, numWrong + numWrong, score)
  }

  /** The alert's figures with the evidently intended total `numCorrect + numWrong`. */
  function TimesUpReportIntended(numCorrect: int, numWrong: int, score: int): Report
  {
    Report(numCorrect, numCorrect + numWrong, score)
  }

  /** The alert text, spacing as written. */
  function AlertText(rep: Report): string
  {
    "Time's up! You answered " + Decimal.IntToString(rep.answered) + "out of " +
    Decimal.IntToString(rep.outOf) + "correct! Your score: " + Decimal.IntToString(rep.score) + "%"
  }

  /**
   * The total the alert reports as written is the number of answers given
   * exactly when there were as many correct as wrong answers; one correct
   * answer and none wrong is reported as "1 out of 0".
   */
  lemma TimesUpReportMiscounts(numCorrect: int, numWrong: int, score: int)
    ensures TimesUpReport(numCorrect, numWrong, score).outOf == numCorrect + numWrong <==> numCorrect == numWrong
    ensures TimesUpReport(1, 0, score).answered > TimesUpReport(1, 0, score).outOf
    ensures TimesUpReport(1, 0, MathGame.ScorePercent(1, 0)) == Report(1, 0, 100)
  {
  }

  /**
   * With the intended total, and the score math.js keeps, the alert's three
   * figures agree: the correct answers are at most the total, and the score
   * is their percentage of it, rounded to the nearest integer.
   */
  lemma TimesUpReportIntendedCounts(numCorrect: nat, numWrong: nat)
    ensures var rep := TimesUpReportIntended(numCorrect, numWrong, MathGame.ScorePercent(numCorrect, numWrong));
            && 0 <= rep.answered <= rep.outOf
            && (rep.outOf == 0 ==> rep.score == 0)
            && (rep.outOf > 0 ==>
                  rep.outOf * (2 * rep.score - 1) <= 200 * rep.answered < rep.outOf * (2 * rep.score + 1))
  {
  }

  /** The globals of timer.js and the text of the timer display. */
  class CountdownTimer {
    var gameTimeRemaining: int
    var gameActive: bool
    var intervalRunning: bool
    var displayText: string

    function State(): Clock
      reads this
    {
      Clock(gameTimeRemaining, gameActive, intervalRunning)
    }

    /** Page load: no interval, game inactive, nothing displayed yet. */
    constructor ()
      ensures State() == Clock(0, false, false) && displayText == ""
    {
      gameTimeRemaining, gameActive, intervalRunning := 0, false, false;
      displayText := "";
    }

    /** setTimer(minutes), including the display update and startTimer's fresh interval. */
    method SetTimer(minutes: int)
      modifies this
      ensures State() == Started(minutes)
      ensures displayText == TimerText(minutes * 60)
    {
      gameTimeRemaining := minutes * 60;
      gameActive := true;
      displayText := TimerText(gameTimeRemaining);
      intervalRunning := true;
    }

    /** One firing of the interval; `timesUp` says whether the alert is raised. */
    method Tick() returns (timesUp: bool)
      requires intervalRunning
      modifies this
      ensures State() == Ticked(old(State()))
      ensures gameTimeRemaining == old(gameTimeRemaining) - 1
      ensures displayText == TimerText(gameTimeRemaining)
      ensures timesUp <==> gameTimeRemaining <= 0
      ensures timesUp ==> !gameActive && !intervalRunning
    {
      gameTimeRemaining := gameTimeRemaining - 1;
      displayText := TimerText(gameTimeRemaining);
      timesUp := gameTimeRemaining <= 0;
      if timesUp {
        intervalRunning := false;
        gameActive := false;
      }
    }

    /** stopTimer. */
    method StopTimer()
      modifies this
      ensures State() == Stopped(old(State()))
      ensures !gameActive && !intervalRunning
      ensures displayText == "Timer stopped"
    {
      intervalRunning := false;
      gameActive := false;
      displayText := "Timer stopped";
    }
  }
}
