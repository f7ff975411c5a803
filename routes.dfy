/**
 * The game logic of the Flask routes (app/routes.py): the mock number
 * generator, the client that reads its reply, the "a + b" problem text of
 * the two problem routes, and the merge-or-create rule of submit_game.
 * Randomness, the clock, HTTP and the database are parameters or state.
 */
module Routes {
  import opened Common
  import Decimal

  // ---------------------------------------------------------------------
  // mock_generate_numbers

  /** The difficulty the mock reads from its query string, "easy" when absent. */
  function MockLabel(difficulty: Option<string>): string
  {
    difficulty.GetOr("easy")
  }

  /** The mock's range policy: "hard", "medium", and every other label as easy. */
  function MockRange(level: string): Range
  {
    if level == "hard" then Range(100, 999)
    else if level == "medium" then Range(10, 99)
    else Range(1, 9)
  }

  /** The two numbers of a reply, as the JSON fields `number1` and `number2`. */
  datatype NumberPair = NumberPair(number1: int, number2: int)

  /**
   * The mock endpoint: two draws from the label's range, handed back in
   * descending order (`sorted(..., reverse=True)`).
   */
  function MockGenerate(difficulty: Option<string>, draw1: int, draw2: int): (r: NumberPair)
    requires MockRange(MockLabel(difficulty)).Contains(draw1)
    requires MockRange(MockLabel(difficulty)).Contains(draw2)
    ensures r.number1 >= r.number2
    ensures multiset{r.number1, r.number2} == multiset{draw1, draw2}
    ensures MockLabel(difficulty) == "hard" ==> 100 <= r.number2 <= r.number1 <= 999
    ensures MockLabel(difficulty) == "medium" ==> 10 <= r.number2 <= r.number1 <= 99
    ensures MockLabel(difficulty) != "hard" && MockLabel(difficulty) != "medium" ==>
              1 <= r.number2 <= r.number1 <= 9
    ensures difficulty.None? ==> 1 <= r.number2 <= r.number1 <= 9
  {
    if draw1 >= draw2 then NumberPair(draw1, draw2) else NumberPair(draw2, draw1)
  }

  // ---------------------------------------------------------------------
  // get_numbers_from_microservice

  /**
   * What the client sees of the number service's HTTP reply: the status
   * code and the `number1`/`number2` fields of the JSON body when present.
   */
  datatype HttpResponse = HttpResponse(status: int, number1: Option<int>, number2: Option<int>)

  /** The mock's HTTP reply: `jsonify` answers 200 with both fields set. */
  function MockResponse(difficulty: Option<string>, draw1: int, draw2: int): (resp: HttpResponse)
    requires MockRange(MockLabel(difficulty)).Contains(draw1)
    requires MockRange(MockLabel(difficulty)).Contains(draw2)
    ensures resp.status == 200 && resp.number1.Some? && resp.number2.Some?
    ensures resp.number1.value >= resp.number2.value
    ensures multiset{resp.number1.value, resp.number2.value} == multiset{draw1, draw2}
  {
    var p := MockGenerate(difficulty, draw1, draw2);
    HttpResponse(200, Some(p.number1), Some(p.number2))
  }

  /** A value the client passes on: Python's None or an int. */
  datatype PyValue = PyNone | PyInt(n: int)

  /** The client's result: a pair of values, or the KeyError of a missing JSON field. */
  datatype Fetched = Fetched(num1: PyValue, num2: PyValue) | KeyMissing

  /** The status branch: `(None, None)` unless the status is 200, else the two fields. */
  function FetchNumbers(resp: HttpResponse): (r: Fetched)
    ensures resp.status != 200 <==> r == Fetched(PyNone, PyNone)
    ensures r == KeyMissing <==> resp.status == 200 && (resp.number1.None? || resp.number2.None?)
    ensures resp.status == 200 && r.Fetched? ==>
              r == Fetched(PyInt(resp.number1.value), PyInt(resp.number2.value))
  {
    if resp.status == 200 then
      match (resp.number1, resp.number2)
      case (Some(a), Some(b)) => Fetched(PyInt(a), PyInt(b))
      case _ => KeyMissing
    else
      Fetched(PyNone, PyNone)
  }

  // ---------------------------------------------------------------------
  // The problem text of get_math_problem and start_game

  /** Python's `str` of a value: "None", or the decimal text of the int. */
  function PyStr(v: PyValue): (s: string)
    ensures |s| > 0
    ensures forall k :: 0 <= k < |s| ==> s[k] != ' '
  {
    match v
    case PyNone => "None"
    case PyInt(n) => Decimal.IntToString(n)
  }

  /** The f-string `f"{num1} + {num2}"`. */
  function ProblemText(num1: PyValue, num2: PyValue): string
  {
    PyStr(num1) + " + " + PyStr(num2)
  }

  /** Reads one operand of a problem text back. */
  function ParsePy(t: string): Option<PyValue>
  {
    if t == "None" then Some(PyNone)
    else
      match Decimal.ParseInt(t)
      case Some(n) => Some(PyInt(n))
      case None => None
  }

  /** Reads a problem text back: an operand, " + ", an operand. */
  function ParseProblem(s: string): Option<(PyValue, PyValue)>
  {
    var k := Decimal.FirstIndex(s, ' ');
    if k + 3 <= |s| && s[k..k + 3] == " + " then
      match (ParsePy(s[..k]), ParsePy(s[k + 3..]))
      case (Some(a), Some(b)) => Some((a, b))
      case _ => None
    else
      None
  }

  lemma PyStrRoundTrip(v: PyValue)
    ensures ParsePy(PyStr(v)) == Some(v)
  {
    if v.PyInt? {
      var s := Decimal.IntToString(v.n);
      assert s[0] != 'N';
      Decimal.IntRoundTrip(v.n);
    }
  }

  /**
   * The problem text is exactly the first operand's text, " + ", and the
   * second operand's text: reading it back yields both operands.
   */
  lemma ProblemTextRoundTrip(num1: PyValue, num2: PyValue)
    ensures ParseProblem(ProblemText(num1, num2)) == Some((num1, num2))
  {
    var a, b := PyStr(num1), PyStr(num2);
    var s := ProblemText(num1, num2);
    assert s[|a|] == ' ';
    assert Decimal.FirstIndex(s, ' ') == |a|;
    assert s[|a|..|a| + 3] == " + ";
    assert s[..|a|] == a;
    assert s[|a| + 3..] == b;
    PyStrRoundTrip(num1);
    PyStrRoundTrip(num2);
  }

  /** The JSON reply of the two problem routes, or the error status Flask answers with. */
  datatype ProblemReply = Problem(mathProblem: string, difficulty: string) | ServerError(status: int)

  /**
   * The common tail of both routes: fetch the pair with `difficulty` (the
   * service's reply is `resp`), format it and echo the difficulty. A
   * missing JSON field raises, which Flask answers with status 500.
   */
  function ProblemFor(difficulty: string, resp: HttpResponse): ProblemReply
  {
    match FetchNumbers(resp)
    case KeyMissing => ServerError(500)
    case Fetched(a, b) => Problem(ProblemText(a, b), difficulty)
  }

  /** GET /get_math_problem: the difficulty comes from the query string, "easy" by default. */
  function GetMathProblem(difficulty: Option<string>, resp: HttpResponse): (r: ProblemReply)
    ensures r.Problem? ==> r.difficulty == difficulty.GetOr("easy")
    ensures r.ServerError? <==> resp.status == 200 && (resp.number1.None? || resp.number2.None?)
    ensures r.ServerError? ==> r.status == 500
    ensures resp.status != 200 ==> r == Problem("None + None", difficulty.GetOr("easy"))
    ensures r.Problem? ==> var f := FetchNumbers(resp); r.mathProblem == ProblemText(f.num1, f.num2)
  {
    ProblemFor(difficulty.GetOr("easy"), resp)
  }

  /** POST /start_game: the difficulty is a required form field; without it Flask answers 400. */
  function StartGame(form: Option<string>, resp: HttpResponse): (r: ProblemReply)
    ensures form.None? ==> r == ServerError(400)
    ensures form.Some? ==> r == GetMathProblem(form, resp)
  {
    match form
    case None => ServerError(400)
    case Some(d) => ProblemFor(d, resp)
  }

  // ---------------------------------------------------------------------
  // Line 44 as written

  /** The outcome of a Python call: the value it returns, or an exception it raises. */
  datatype Outcome<T> = Returned(value: T) | Raised

  /**
   * `request.get(MICROSERVICE_URL, params=...)` as written: `request` is
   * Flask's request object, which has no attribute `get`, so the lookup
   * raises `AttributeError` before any HTTP request is made.
   */
  function RequestProxyGet(difficulty: string): Outcome<HttpResponse>
  {
    Raised
  }

  /** The common tail of both routes as written: the exception becomes status 500. */
  function ProblemForAsWritten(difficulty: string): ProblemReply
  {
    match RequestProxyGet(difficulty)
    case Raised => ServerError(500)
    case Returned(resp) => ProblemFor(difficulty, resp)
  }

  /** GET /get_math_problem as written. */
  function GetMathProblemAsWritten(difficulty: Option<string>): ProblemReply
  {
    ProblemForAsWritten(difficulty.GetOr("easy"))
  }

  /** POST /start_game as written. */
  function StartGameAsWritten(form: Option<string>): ProblemReply
  {
    match form
    case None => ServerError(400)
    case Some(d) => ProblemForAsWritten(d)
  }

  /**
   * As written, both problem routes answer 500 for every difficulty, while
   * the client they evidently intend, talking to the mock endpoint that
   * MICROSERVICE_URL names, always produces a problem.
   */
  lemma RequestGetAlwaysFails(difficulty: Option<string>, form: Option<string>, draw1: int, draw2: int)
    requires MockRange(difficulty.GetOr("easy")).Contains(draw1)
    requires MockRange(difficulty.GetOr("easy")).Contains(draw2)
    ensures GetMathProblemAsWritten(difficulty) == ServerError(500)
    ensures form.Some? ==> StartGameAsWritten(form) == ServerError(500)
    ensures GetMathProblem(difficulty, MockResponse(Some(difficulty.GetOr("easy")), draw1, draw2)).Problem?
  {
  }

  /**
   * The client talking to the mock: whatever the difficulty, the problem is
   * the larger draw, " + ", the smaller draw, and the difficulty is echoed.
   */
  lemma {:induction false} MockedProblem(difficulty: Option<string>, draw1: int, draw2: int)
    requires MockRange(difficulty.GetOr("easy")).Contains(draw1)
    requires MockRange(difficulty.GetOr("easy")).Contains(draw2)
    ensures var r := GetMathProblem(difficulty, MockResponse(Some(difficulty.GetOr("easy")), draw1, draw2));
            && r.Problem?
            && r.difficulty == difficulty.GetOr("easy")
            && ParseProblem(r.mathProblem) ==
               Some((PyInt(if draw1 >= draw2 then draw1 else draw2), PyInt(if draw1 >= draw2 then draw2 else draw1)))
  {
    var resp := MockResponse(Some(difficulty.GetOr("easy")), draw1, draw2);
    if draw1 >= draw2 {
      ProblemTextRoundTrip(PyInt(draw1), PyInt(draw2));
    } else {
      ProblemTextRoundTrip(PyInt(draw2), PyInt(draw1));
    }
  }

  // ---------------------------------------------------------------------
  // submit_game

  /** Seconds in the trailing window in which a session is still "recent". */
  const Day: int := 86400

  /** One row of the game-session table; dates are timestamps in seconds. */
  datatype GameSession = GameSession(
    userId: int,
    sessionDate: int,
    totalProblems: int,
    problemsCorrect: int,
    problemsWrong: int)

  /** The JSON body of a submission; each counter may be missing. */
  datatype Submission = Submission(totalProblems: Option<int>, problemsCorrect: Option<int>, problemsWrong: Option<int>)

  /** The route's reply: status and message. */
  datatype SubmitReply = SubmitReply(status: int, message: string)

  predicate Complete(data: Submission)
  {
    data.totalProblems.Some? && data.problemsCorrect.Some? && data.problemsWrong.Some?
  }

  /** A session of `user` dated within the trailing day before `now`. */
  predicate InWindow(s: GameSession, user: int, now: int)
  {
    s.userId == user && s.sessionDate >= now - Day
  }

  /**
   * `recent` is what the route's query returns: the index of a latest
   * session of `user` within the window, or None when there is none.
   */
  predicate IsMostRecent(sessions: seq<GameSession>, user: int, now: int, recent: Option<nat>)
  {
    match recent
    case None => forall j :: 0 <= j < |sessions| ==> !InWindow(sessions[j], user, now)
    case Some(i) =>
      && i < |sessions|
      && InWindow(sessions[i], user, now)
      && forall j :: 0 <= j < |sessions| && InWindow(sessions[j], user, now) ==>
                     sessions[j].sessionDate <= sessions[i].sessionDate
  }

  /** A session row with the submitted counters added to its own. */
  function Grown(s: GameSession, total: int, correct: int, wrong: int): GameSession
  {
    s.(totalProblems := s.totalProblems + total,
       problemsCorrect := s.problemsCorrect + correct,
       problemsWrong := s.problemsWrong + wrong)
  }

  /** The table after a complete submission: accumulate into `recent`, or append a new row. */
  function Merged(sessions: seq<GameSession>, user: int, now: int, recent: Option<nat>,
                  total: int, correct: int, wrong: int): seq<GameSession>
    requires recent.Some? ==> recent.value < |sessions|
  {
    match recent
    case Some(i) => sessions[i := Grown(sessions[i], total, correct, wrong)]
    case None =>
      sessions + [GameSession(user, now, total, correct, wrong)]
  }

  /**
   * Merging into a recent session adds exactly the submitted amounts to its
   * three counters, adds no row and leaves every other row as it was.
   */
  lemma MergeIntoRecent(sessions: seq<GameSession>, user: int, now: int, i: nat,
                        total: int, correct: int, wrong: int)
    requires IsMostRecent(sessions, user, now, Some(i))
    ensures var r := Merged(sessions, user, now, Some(i), total, correct, wrong);
            && |r| == |sessions|
            && r[i].userId == user && r[i].sessionDate == sessions[i].sessionDate
            && r[i].totalProblems == sessions[i].totalProblems + total
            && r[i].problemsCorrect == sessions[i].problemsCorrect + correct
            && r[i].problemsWrong == sessions[i].problemsWrong + wrong
            && forall j :: 0 <= j < |r| && j != i ==> r[j] == sessions[j]
  {
  }

  /**
   * Without a recent session exactly one row is appended, for `user`, dated
   * `now` and holding exactly the submitted counters.
   */
  lemma MergeWithoutRecent(sessions: seq<GameSession>, user: int, now: int,
                           total: int, correct: int, wrong: int)
    requires IsMostRecent(sessions, user, now, None)
    ensures var r := Merged(sessions, user, now, None, total, correct, wrong);
            && |r| == |sessions| + 1
            && r[..|sessions|] == sessions
            && r[|sessions|] == GameSession(user, now, total, correct, wrong)
  {
  }

  /** Three counters added up. */
  datatype Counters = Counters(total: int, correct: int, wrong: int) {
    function Plus(other: Counters): Counters
    {
      Counters(total + other.total, correct + other.correct, wrong + other.wrong)
    }
  }

  /** The counters of one row as they count towards `user`'s totals. */
  function Contribution(s: GameSession, user: int): Counters
  {
    if s.userId == user then Counters(s.totalProblems, s.problemsCorrect, s.problemsWrong)
    else Counters(0, 0, 0)
  }

  /** The sum of `user`'s counters over the whole table. */
  function UserTotals(sessions: seq<GameSession>, user: int): Counters
    decreases |sessions|
  {
    if sessions == [] then Counters(0, 0, 0)
    else UserTotals(sessions[..|sessions| - 1], user).Plus(Contribution(sessions[|sessions| - 1], user))
  }

  lemma {:induction false} UserTotalsAppend(a: seq<GameSession>, b: seq<GameSession>, user: int)
    ensures UserTotals(a + b, user) == UserTotals(a, user).Plus(UserTotals(b, user))
    decreases |b|
  {
    if b != [] {
      var b' := b[..|b| - 1];
      assert (a + b)[..|a + b| - 1] == a + b';
      UserTotalsAppend(a, b', user);
    } else {
      assert a + b == a;
    }
  }

  lemma {:induction false} UserTotalsSnoc(a: seq<GameSession>, y: GameSession, user: int)
    ensures UserTotals(a + [y], user) == UserTotals(a, user).Plus(Contribution(y, user))
  {
    assert (a + [y])[..|a|] == a;
  }

  lemma {:induction false} UserTotalsUpdate(s: seq<GameSession>, i: nat, x: GameSession, user: int)
    requires i < |s|
    ensures UserTotals(s[i := x], user).Plus(Contribution(s[i], user)) ==
            UserTotals(s, user).Plus(Contribution(x, user))
  {
    var pre, post := s[..i], s[i + 1..];
    var cs, cx := Contribution(s[i], user), Contribution(x, user);
    var a, p := UserTotals(pre, user), UserTotals(post, user);
    assert UserTotals(s, user) == a.Plus(cs).Plus(p) by {
      assert s == (pre + [s[i]]) + post;
      UserTotalsAppend(pre + [s[i]], post, user);
      UserTotalsSnoc(pre, s[i], user);
    }
    assert UserTotals(s[i := x], user) == a.Plus(cx).Plus(p) by {
      assert s[i := x] == (pre + [x]) + post;
      UserTotalsAppend(pre + [x], post, user);
      UserTotalsSnoc(pre, x, user);
    }
  }

  /**
   * Either branch of a submission raises the submitting user's overall
   * totals by exactly the submitted amounts and leaves every other user's
   * totals unchanged.
   */
  lemma {:induction false} MergeAccumulates(sessions: seq<GameSession>, user: int, now: int, recent: Option<nat>,
                         total: int, correct: int, wrong: int, other: int)
    requires IsMostRecent(sessions, user, now, recent)
    ensures UserTotals(Merged(sessions, user, now, recent, total, correct, wrong), user) ==
            UserTotals(sessions, user).Plus(Counters(total, correct, wrong))
    ensures other != user ==>
            UserTotals(Merged(sessions, user, now, recent, total, correct, wrong), other) ==
            UserTotals(sessions, other)
  {
    match recent {
      case Some(i) =>
        MergeIntoRecentTotals(sessions, user, now, i, total, correct, wrong, user);
        MergeIntoRecentTotals(sessions, user, now, i, total, correct, wrong, other);
      case None =>
        var y := GameSession(user, now, total, correct, wrong);
        assert Merged(sessions, user, now, recent, total, correct, wrong) == sessions + [y];
        UserTotalsSnoc(sessions, y, user);
        UserTotalsSnoc(sessions, y, other);
    }
  }

  /** The recent-session branch of MergeAccumulates, for one user `who` at a time. */
  lemma {:induction false} MergeIntoRecentTotals(sessions: seq<GameSession>, user: int, now: int, i: nat,
                                                 total: int, correct: int, wrong: int, who: int)
    requires i < |sessions| && sessions[i].userId == user
    ensures UserTotals(Merged(sessions, user, now, Some(i), total, correct, wrong), who) ==
            UserTotals(sessions, who).Plus(if who == user then Counters(total, correct, wrong) else Counters(0, 0, 0))
  {
    var y := Grown(sessions[i], total, correct, wrong);
    var delta := if who == user then Counters(total, correct, wrong) else Counters(0, 0, 0);
    GrownContribution(sessions[i], total, correct, wrong, who);
    UserTotalsUpdate(sessions, i, y, who);
    PlusCancel(UserTotals(sessions[i := y], who), UserTotals(sessions, who), Contribution(sessions[i], who), delta);
  }

  /** A grown row contributes the submitted counters more to its owner, and nothing more to anyone else. */
  lemma GrownContribution(s: GameSession, total: int, correct: int, wrong: int, who: int)
    ensures Contribution(Grown(s, total, correct, wrong), who) ==
            Contribution(s, who).Plus(if who == s.userId then Counters(total, correct, wrong) else Counters(0, 0, 0))
  {
  }

  /** Cancelling a common summand on both sides of a sum of counters. */
  lemma PlusCancel(a: Counters, b: Counters, c: Counters, d: Counters)
    requires a.Plus(c) == b.Plus(c.Plus(d))
    ensures a == b.Plus(d)
  {
  }

  /** The game-session table the route reads and writes. */
  class SessionTable {
    var sessions: seq<GameSession>

    constructor ()
      ensures sessions == []
    {
      sessions := [];
    }

    /**
     * POST /submit_game for `user` at time `now`; `recent` is the result of
     * the "latest session within a day" query. The counters are read one by
     * one into a pending copy of the row; a missing key raises before the
     * commit, so the table is left as it was and the reply is a 500.
     */
    method SubmitGame(user: int, now: int, recent: Option<nat>, data: Submission) returns (reply: SubmitReply)
      requires IsMostRecent(sessions, user, now, recent)
      modifies this
      ensures reply.status == 200 <==> Complete(data)
      ensures reply.status == 200 ==> reply.message == "Game results submitted successfully!"
      ensures reply.status != 200 ==> reply == SubmitReply(500, "Failed to submit game results")
      ensures !Complete(data) ==> sessions == old(sessions)
      ensures Complete(data) ==>
                sessions == Merged(old(sessions), user, now, recent, data.totalProblems.value,
                                   data.problemsCorrect.value, data.problemsWrong.value)
    {
      var failed := SubmitReply(500, "Failed to submit game results");
      var pending := sessions;
      match recent {
        case Some(i) =>
          if data.totalProblems.None? { return failed; }
          pending := pending[i := pending[i].(totalProblems := pending[i].totalProblems + data.totalProblems.value)];
          if data.problemsCorrect.None? { return failed; }
          pending := pending[i := pending[i].(problemsCorrect := pending[i].problemsCorrect + data.problemsCorrect.value)];
          if data.problemsWrong.None? { return failed; }
          pending := pending[i := pending[i].(problemsWrong := pending[i].problemsWrong + data.problemsWrong.value)];
        case None =>
          if !Complete(data) { return failed; }
          pending := pending + [GameSession(user, now, data.totalProblems.value,
                                            data.problemsCorrect.value, data.problemsWrong.value)];
      }
      sessions := pending;
      reply := SubmitReply(200, "Game results submitted successfully!");
    }
  }
}
