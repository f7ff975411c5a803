/**
 * The request/reply number service (microservice.py): for every received
 * difficulty label it replies with two numbers from the label's range, as
 * JSON, or with the text "Invalid request". The socket is left out; the
 * received messages and the random draws are parameters.
 */
module Microservice {
  import opened Common
  import Decimal

  /** The service's range policy; only the three exact labels have one. */
  function LabelRange(message: string): Option<Range>
  {
    if message == "easy" then Some(Range(0, 9))
    else if message == "medium" then Some(Range(10, 99))
    else if message == "hard" then Some(Range(100, 999))
    else None
  }

  /** The two draws lie in the range of the message's label, if it has one. */
  predicate DrawsFit(message: string, draw1: int, draw2: int)
  {
    LabelRange(message).Some? ==>
      LabelRange(message).value.Contains(draw1) && LabelRange(message).value.Contains(draw2)
  }

  /** One reply: the JSON object of two numbers, or a plain text. */
  datatype Reply = Numbers(num1: int, num2: int) | Text(message: string)

  /**
   * The body of one iteration of the service loop. Labels are compared
   * exactly, so "Easy" or " easy" is an invalid request.
   */
  function Dispatch(message: string, draw1: int, draw2: int): (r: Reply)
    requires DrawsFit(message, draw1, draw2)
    ensures r.Numbers? <==> message == "easy" || message == "medium" || message == "hard"
    ensures message == "easy" ==> 0 <= r.num1 <= 9 && 0 <= r.num2 <= 9
    ensures message == "medium" ==> 10 <= r.num1 <= 99 && 10 <= r.num2 <= 99
    ensures message == "hard" ==> 100 <= r.num1 <= 999 && 100 <= r.num2 <= 999
    ensures r.Numbers? ==> r.num1 == draw1 && r.num2 == draw2
    ensures r.Text? ==> r.message == "Invalid request"
  {
    if LabelRange(message).Some? then Numbers(draw1, draw2) else Text("Invalid request")
  }

  /**
   * The service loop over the first |messages| received messages: exactly
   * one reply per message, in order. `draws[i]` are the two random draws
   * made while handling `messages[i]` (none are made for an invalid label).
   */
  method Serve(messages: seq<string>, draws: seq<(int, int)>) returns (replies: seq<Reply>)
    requires |draws| == |messages|
    requires forall i :: 0 <= i < |messages| ==> DrawsFit(messages[i], draws[i].0, draws[i].1)
    ensures |replies| == |messages|
    ensures forall i :: 0 <= i < |messages| ==> replies[i] == Dispatch(messages[i], draws[i].0, draws[i].1)
  {
    replies := [];
    var n := 0;
    while n < |messages|
      invariant 0 <= n <= |messages|
      invariant |replies| == n
      invariant forall i :: 0 <= i < n ==> replies[i] == Dispatch(messages[i], draws[i].0, draws[i].1)
    {
      var message := messages[n];
      var reply;
      if message == "easy" || message == "medium" || message == "hard" {
        reply := Numbers(draws[n].0, draws[n].1);
      } else {
        reply := Text("Invalid request");
      }
      replies := replies + [reply];
      n := n + 1;
    }
  }

  /** What goes on the wire: `send_json` of the two fields, or `send_string`. */
  function WireText(r: Reply): string
  {
    match r
    case Numbers(a, b) =>
      "{\"num1\": " + Decimal.IntToString(a) + ", \"num2\": " + Decimal.IntToString(b) + "}"
    case Text(m) => m
  }

  /** Reads a reply back off the wire, as a client of the service would. */
  function ParseWire(s: string): Option<Reply>
  {
    if s == "Invalid request" then Some(Text(s))
    else if |s| >= 9 && s[..9] == "{\"num1\": " then
      var rest := s[9..];
      var k := Decimal.FirstIndex(rest, ',');
      if k + 11 <= |rest| && rest[k..k + 10] == ", \"num2\": " && rest[|rest| - 1] == '}' then
        match (Decimal.ParseInt(rest[..k]), Decimal.ParseInt(rest[k + 10..|rest| - 1]))
        case (Some(a), Some(b)) => Some(Numbers(a, b))
        case _ => None
      else
        None
    else
      None
  }

  /** Every reply the service sends can be read back as exactly that reply. */
  lemma {:induction false} WireRoundTrip(message: string, draw1: int, draw2: int)
    requires DrawsFit(message, draw1, draw2)
    ensures ParseWire(WireText(Dispatch(message, draw1, draw2))) == Some(Dispatch(message, draw1, draw2))
  {
    var r := Dispatch(message, draw1, draw2);
    if r.Numbers? {
      var a, b := Decimal.IntToString(draw1), Decimal.IntToString(draw2);
      var s := WireText(r);
      assert s[0] == '{';
      var rest := s[9..];
      assert rest == a + ", \"num2\": " + b + "}";
      assert rest[|a|] == ',';
      assert Decimal.FirstIndex(rest, ',') == |a|;
      assert rest[|a|..|a| + 10] == ", \"num2\": ";
      assert rest[..|a|] == a;
      assert rest[|a| + 10..|rest| - 1] == b;
      Decimal.IntRoundTrip(draw1);
      Decimal.IntRoundTrip(draw2);
    }
  }
}
