# Math practice game: the game rules, verified in Dafny

The math practice game is a Flask application. Its game logic is a few small rules that are spread over the server and the browser scripts:

- **Number generation.** A difficulty label selects a range, and two numbers come out. There are two variants. The HTTP mock endpoint maps every unknown label to the easy range and returns the pair in descending order. The request/reply service accepts only the exact labels `easy`, `medium` and `hard`, and answers anything else with `Invalid request`.
- **Problem routes.** The client reads the reply's status and fields, and the two problem routes format the pair as `"{num1} + {num2}"`.
- **Session recording.** `submit_game` either adds the submitted counters into the user's most recent session from the last day, or appends a new session.
- **Browser game (math.js).** The correct answer depends on the operation. Three answer options are built: the correct one plus two distinct wrong ones. The score is kept as a rounded percentage.
- **Countdown (timer.js).** A countdown timer with an `m:ss` display.
- **Alternate scoreboard (add.js).** It keeps its counts in the page text, scores correct minus incorrect, and shows or hides answer slots.

Randomness, the clock and all I/O are parameters. Each random draw is an input, with a precondition that it lies in its range. A shuffle is a supplied permutation. The "most recent session" query result is given as an index. The HTTP reply of the number service is given as a value.

Modules, one per source file, plus two shared ones:

| file | module | models |
|---|---|---|
| common.dfy | `Common` | an optional value (missing query parameter, form field or JSON key) and an inclusive range |
| decimal.dfy | `Decimal` | integers as decimal text, as Python's `str` and JavaScript's `String` print them, and the inverse parse |
| routes.dfy | `Routes` | app/routes.py: the mock generator, the client's status branch, the problem routes, `submit_game` |
| microservice.dfy | `Microservice` | microservice.py: the per-message dispatch, the serve loop, the wire text of a reply |
| math_game.dfy | `MathGame` | app/static/js/math.js: the correct answer, `generateOptions`, `prepareOptions`, `checkAnswer`, `updateScore`, `startGame` |
| timer.dfy | `Timer` | app/static/js/timer.js: `setTimer`, one interval firing, `stopTimer`, the display text |
| add_game.dfy | `AddGame` | app/static/js/add.js: `updateScore`, `checkAnswer`, the option-slot loop |

Notes on the code as written:

- The easy range is 1..9 in the mock endpoint and 0..9 in the request/reply service. Each is modelled with its own range.
- The mock endpoint sorts the pair in descending order. The request/reply service does not.
- When the number service answers with a status other than 200, the client returns `(None, None)`. The route then answers status 200 with the problem text `"None + None"` (`Routes.GetMathProblem`).
- app/routes.py:44 calls `get` on Flask's request object, which has no such attribute, so both problem routes answer 500 as written. The section Findings records this. `Routes.GetMathProblem` and `Routes.StartGame` model the evidently intended HTTP GET, with the number service's reply as a parameter.

## Model

| member | source | states |
|---|---|---|
| `Routes.MockGenerate` | app/routes.py:81-92 | The pair is always in descending order and is a permutation of the two draws. With `hard` both numbers are in [100, 999], with `medium` in [10, 99]. With any other label, or with no label (read as `easy`), they are in [1, 9]. |
| `Routes.MockResponse` | app/routes.py:90-95 | The mock answers status 200 with both fields set, in descending order, and they are a permutation of the draws. |
| `Routes.FetchNumbers` | app/routes.py:42-49 | A status other than 200 gives `(None, None)`, and only such a status does. A 200 reply gives its `number1`/`number2` fields. A 200 reply missing either field raises. |
| `Routes.ProblemTextRoundTrip` | app/routes.py:58 | The problem text is exactly the text of num1, then `" + "`, then the text of num2: reading it back gives both operands, and `None` operands are covered too. |
| `Routes.GetMathProblem` | app/routes.py:52-59 | The difficulty defaults to `"easy"` and is echoed back. A non-200 service reply gives the problem `"None + None"`. A missing JSON field gives status 500. Otherwise the problem is the text of the two fetched values. |
| `Routes.StartGame` | app/routes.py:62-71 | Without the `difficulty` form field the reply is 400. With it, the reply is the same as `get_math_problem` with that difficulty. |
| `Routes.RequestGetAlwaysFails` | app/routes.py:44-71 | As written, `GET /get_math_problem` answers 500 for every difficulty, and so does `POST /start_game` whenever the form field is present, because the call at line 44 raises. The intended client, talking to the mock endpoint that `MICROSERVICE_URL` names, always yields a problem. |
| `Routes.MockedProblem` | app/routes.py:52-92 | When the client talks to the mock, the route always returns a problem: the larger draw, `" + "`, the smaller draw. It also echoes the difficulty. |
| `Routes.MergeIntoRecent` | app/routes.py:223-226 | With a recent session, each of its total/correct/wrong counters grows by exactly the submitted amount. No row is added, and every other row is unchanged. |
| `Routes.MergeWithoutRecent` | app/routes.py:227-236 | Without a recent session, exactly one row is appended after the old ones. It belongs to the current user, is dated now and holds exactly the submitted counters. |
| `Routes.MergeAccumulates` | app/routes.py:211-236 | In either branch, the user's totals over the whole table grow by exactly the submitted counters, and every other user's totals are unchanged. |
| `Routes.SessionTable.SubmitGame` | app/routes.py:204-246 | The reply is 200 with the success message exactly when all three counters are present. A missing key before the commit gives 500 and leaves the table as it was. A complete submission leaves the table merged as above. |
| `Microservice.Dispatch` | microservice.py:9-23 | A reply carries numbers exactly for `easy`, `medium` and `hard`, matched exactly and case-sensitively. The ranges are [0, 9], [10, 99] and [100, 999], and the draws stay in order. Every other message gets the text `"Invalid request"`. |
| `Microservice.Serve` | microservice.py:8-23 | The loop sends exactly one reply per received message, in order. Each reply is that message's dispatch. |
| `Microservice.WireRoundTrip` | microservice.py:13-23 | Every reply the service sends, whether the JSON `{"num1": …, "num2": …}` or the plain error text, reads back as exactly that reply. |
| `MathGame.CorrectAnswer` | app/static/js/math.js:44-47 | The correct answer is the value of the equation as displayed: number1 − number2 under `-` for `"subtraction"`, and number1 + number2 under `+` for anything else. It is non-negative for a descending non-negative pair. |
| `MathGame.UnshuffledShape` | app/static/js/math.js:83-99 | If the draws propose two distinct wrong values, the loop ends with 3 options. The correct one comes first and has value `correctAnswer`. The two wrong ones are distinct, differ from it, and each equals abs(correctAnswer + k − 5) for a draw k. |
| `MathGame.GenerateOptions` | app/static/js/math.js:83-103 | Exactly 3 options, with pairwise distinct values. An option is marked correct exactly when its value is `correctAnswer`, and one of them is. Every wrong option equals abs(correctAnswer + k − 5) for some draw k in 0..9, so it is non-negative. The result is the built list reordered by the shuffle permutation, with the same multiset. |
| `MathGame.ShuffleKeepsValues` | app/static/js/math.js:102 | Reordering the three options by a permutation keeps exactly the same options. |
| `MathGame.PreparedOptionScoredAsMarked` | app/static/js/math.js:64-65 | An element filled from an answer has `data-correct` equal to `"true"` exactly when the answer is marked correct, and its text reads back as the answer's value. |
| `MathGame.PrepareOptions` | app/static/js/math.js:61-69 | The first three `.options` elements show the generated options in order, and the other elements are unchanged. An element is flagged correct exactly when its text reads as the correct answer, and one element is. |
| `MathGame.ScorePercent` | app/static/js/math.js:134-135 | The score is 0 before any answer. Otherwise it is 100·correct/total rounded to the nearest integer, halves up. It lies in [0, 100], is 100 when there is no wrong answer and 0 when there is no correct one. |
| `MathGame.RoundedPercent` | app/static/js/math.js:135 | `Math.round(correct / total * 100)` on exact rationals: the integer nearest to the percentage, rounding halves up, within [0, 100]. |
| `MathGame.GameState.constructor` | app/static/js/math.js:2-6 | The difficulty starts as `"easy"` and the operation as `"addition"`. Both counters and the score start at 0. |
| `MathGame.GameState.StartGame` | app/static/js/math.js:32-39 | Records the difficulty and operation, leaves the counters alone, and requests the mock endpoint with that difficulty. |
| `MathGame.GameState.UpdateScore` | app/static/js/math.js:129-137 | Exactly one of `numCorrect`/`numWrong` grows by one, depending on the answer, so their sum counts the answers given. The score becomes the rounded percentage of correct answers: within [0, 100], and 100 when `numWrong` is 0. |
| `MathGame.GameState.CheckAnswer` | app/static/js/math.js:105-120 | The picked element is scored as correct exactly when its `data-correct` is `"true"`, with the counters and score updated as in `updateScore`. The next equation is requested for the current difficulty. |
| `Timer.JsRemainder` | app/static/js/timer.js:36 | JavaScript's `%` on the seconds: the remainder of the division rounded toward zero, so a = 60·trunc(a/60) + r. It lies in [0, 60) for a non-negative time and in (−60, 0] for a negative one. |
| `Timer.TimerTextShape` | app/static/js/timer.js:34-40 | For a remaining time ≥ 0, the display is the minutes (remaining div 60), then `":"`, then the seconds (remaining mod 60) as exactly two digits. |
| `Timer.TimerTextRoundTrip` | app/static/js/timer.js:34-40 | A non-negative remaining time can be recovered exactly from its display text. |
| `Timer.Countdown` | app/static/js/timer.js:14-31 | A running countdown with r ≥ 1 seconds loses exactly one second per firing and stays active and running for r − 1 firings. At 0 it becomes inactive and its interval is cleared. |
| `Timer.CountdownFromStart` | app/static/js/timer.js:5-31 | After `setTimer(m)` with m ≥ 1 the game is active for exactly 60·m seconds. After k seconds the remaining time is max(60·m − k, 0), so it never goes negative. |
| `Timer.ShortTimerEndsAtFirstTick` | app/static/js/timer.js:5-20 | After `setTimer(m)` with m ≤ 0, the first firing already ends the game and clears the interval. |
| `Timer.TimesUpReportMiscounts` | app/static/js/timer.js:21-29 | As written, the alert's total is `numWrong + numWrong`. It equals the number of answers exactly when there are as many correct as wrong answers. One correct answer and none wrong is reported as 1 out of 0, with score 100. |
| `Timer.TimesUpReportIntendedCounts` | app/static/js/timer.js:21-29 | With the intended total and the score math.js keeps, the alert's figures agree. The correct answers are at most the total, and the score is their percentage of it, rounded to the nearest integer (0 with no answers). |
| `Timer.CountdownTimer.constructor` | app/static/js/timer.js:1-3 | Starts with no interval and the game inactive. |
| `Timer.CountdownTimer.SetTimer` | app/static/js/timer.js:5-10 | The remaining time becomes minutes·60 and the game becomes active. An interval is set, and the display shows the new time. |
| `Timer.CountdownTimer.Tick` | app/static/js/timer.js:14-31 | The remaining time drops by exactly 1 and the display is updated. When the remaining time is then ≤ 0, the game becomes inactive, the interval is cleared and the alert is due. |
| `Timer.CountdownTimer.StopTimer` | app/static/js/timer.js:42-46 | Whatever the state, the game becomes inactive, the interval is cleared and the display reads `"Timer stopped"`. The remaining time is kept. |
| `AddGame.Scoreboard.UpdateScore` | app/static/js/add.js:13-32 | A correct answer adds one to the correct count and leaves the incorrect count alone. A wrong one does the reverse. The counts are written back as decimal text, and the shown score is correct − incorrect. |
| `AddGame.Scoreboard.CheckAnswer` | app/static/js/add.js:5-11 | The answer counts as correct exactly when `data-answer` is `"true"`. The next problem is always requested at `"easy"`. |
| `AddGame.ShownSlotScoredAsMarked` | app/static/js/add.js:46-48 | A filled slot shows the option's value and is visible. When picked, it is scored as the option was marked. |
| `AddGame.ShowOptions` | app/static/js/add.js:43-51 | Slot i shows `options[i]`'s value and flag, and is made visible, exactly when the reply has options and i is below their number. Every other slot is hidden and keeps its old text. |
| `Decimal.IntToString` | app/routes.py:58 | The text of an integer starts with `-` exactly when the integer is negative. Every other character is a digit. |
| `Decimal.IntRoundTrip` | app/static/js/add.js:18-28 | Written back as text and parsed again with base 10, every count comes back unchanged. |
| `Decimal.IntToStringInjective` | app/routes.py:58 | Distinct numbers have distinct texts. |

## Left out

- Flask and ORM plumbing: login, logout, registration, password reset, the profile and user pages, `before_request` and `@login_required`. These are framework and database I/O with no game rule.
- app/models.py and app/commands.py are not part of this model. They are ORM schema, werkzeug hashing, md5 avatars, JWT tokens and a subprocess call.
- Transport and timing: the ZMQ socket setup and send/receive, the HTTP call to the number service, browser `fetch`, DOM reads and writes, `alert`, `setTimeout` and `setInterval`. Only the logic they wrap is modelled. A `Tick` call stands for one firing of the interval.
- Randomness: `random.randint`, `Math.random` and the random-comparator sort. They are replaced by supplied draws and a supplied permutation.
- Microservice.Serve: the `while True` loop runs forever. The model serves a finite prefix of the received messages.
- Routes.FetchNumbers: a body that is not JSON, or JSON fields that are not integers, are not modelled. Only a missing field is.
- Routes.SessionTable.SubmitGame: the 24-hour window query is the `recent` input, constrained by `IsMostRecent`. Dates are integer seconds, so the truncation of the `Date` column is not modelled. A submission that raises is assumed to be rolled back by the session teardown. The `print` logging is left out.
- Routes.SessionTable.SubmitGame: a counter is either missing or an integer. A counter that is present but not an integer (JSON `null`, a string) is not modelled. In the source it makes `+=` raise, giving 500, when there is a recent session, but it is stored, giving 200, when a row is created. A failing `db.session.commit()`, which also answers 500, is not modelled either.
- MathGame.GenerateOptions: the draws are a finite sequence, and the method requires that it proposes two distinct wrong values. The JavaScript loop instead draws until it finds them, which it does with probability 1.
- MathGame.RoundedPercent: `Math.round((part / total) * 100)` over floating point is modelled as half-up rounding of the exact rational. The two differ where the float product falls just below a half. For example, 29 of 200 gives `Math.round(14.499999999999998)` = 14, but the model gives 15.
- MathGame.ScorePercent: inherits the exact rounding of `RoundedPercent`, so `ScorePercent(29, 171)` is 15, where math.js shows 14.
- MathGame.GameState.UpdateScore: the score it stores is `ScorePercent`, with the same exact rounding. It can differ by one from the floating-point score math.js shows (29 correct, 171 wrong).
- MathGame.PrepareOptions: requires at least three `.options` elements, which the page supplies. With fewer, the source throws a `TypeError` at the first missing element.
- MathGame: `displayEquation` and `showFeedback` only write the DOM. Of what they write, only the operator symbol shown is modelled (`OperatorSymbol`). `resetDisplayForNewQuestion` is not modelled. It rewrites the equation markup and also clears the global `selectedOption`, so an option clicked during the one-second feedback delay is discarded when the delay ends. The CSS class changes in `prepareOptions` and the one-second delay in `checkAnswer` are not modelled. The URL from `StartGame` is not URL-encoded, as in the source.
- AddGame.Scoreboard.UpdateScore: the counters must read as canonical decimal integers. `parseInt`'s lenient prefix parsing and the `NaN` of an unreadable count are not modelled.
- AddGame: the `number1`/`number2` texts that `fetchNextProblem` writes are not modelled. Nor is the outcome of the route it calls. As written, `/get_math_problem` answers 500, so `response.json()` rejects and the `.catch` handler leaves every slot untouched. With the intended route, the reply has neither `number1`/`number2` nor `options`, so every slot is hidden.
- AddGame.Scoreboard.constructor and Timer.CountdownTimer.constructor: the initial page texts ("0" for both counts and the score, an empty timer display) belong to an HTML template that is not part of this model. They are assumed, not taken from the source. Timer.CountdownTimer.constructor also starts `gameTimeRemaining` at 0, where timer.js leaves it `undefined`. So after a `StopTimer` before any `SetTimer`, the model keeps a remaining time of 0 that the source does not have.
- JavaScript numbers are modelled as unbounded integers. Floats beyond 2^53 and non-integer values are not modelled.
- The alert text itself (`Timer.AlertText`) is built from the report but is not proved about. Its missing spaces ("5out of 8correct!") are kept as written.

## Findings

| source | as written | input that shows it | evidently intended | confidence | as-written member | corrected member |
|---|---|---|---|---|---|---|
| app/static/js/timer.js:25 | The time's-up alert reports the total as `numWrong + numWrong` | numCorrect = 1, numWrong = 0: "You answered 1out of 0correct!" | the total is `numCorrect + numWrong`, the number of answers given | high, not executed | `Timer.TimesUpReportMiscounts` | `Timer.TimesUpReportIntendedCounts` |
| app/routes.py:44 | The number service is called as `request.get(MICROSERVICE_URL, params=...)`, where `request` is Flask's request object, which has no `get`, so it raises `AttributeError` | any `GET /get_math_problem`, or `POST /start_game` with a `difficulty` field: status 500 | an HTTP GET of `MICROSERVICE_URL` with the difficulty as a query parameter, as an HTTP client's `get` does | high, not executed | `Routes.RequestGetAlwaysFails` | `Routes.GetMathProblem` |
