/** `wait_for_statement_completion`: polling the Redshift Data API's
    `describe_statement` until a statement reaches a terminal status. The
    answers to the successive polls of one statement are given as a sequence;
    the two-second sleep between polls is not modelled. */
module StatementWaiter {
  import opened Common

  /** One `describe_statement` answer: its `Status`, and the optional `Records`
      and `Error` keys. */
  datatype StatusResponse = StatusResponse(status: string, records: Option<seq<seq<Value>>>, error: Option<string>)

  /** One poll: an answer, or `describe_statement` itself failing with a ClientError. */
  datatype Poll = Described(response: StatusResponse) | DescribeRejected

  predicate IsTerminal(status: string) {
    status == "FINISHED" || status == "FAILED" || status == "ABORTED"
  }

  /** The poll loop stops at this poll. */
  predicate EndsWait(poll: Poll) {
    poll.DescribeRejected? || IsTerminal(poll.response.status)
  }

  /** Some poll stops the loop; otherwise `while True` never ends. */
  predicate Terminates(polls: seq<Poll>) {
    exists i :: 0 <= i < |polls| && EndsWait(polls[i])
  }

  /** The index of the poll the loop stops at: the first terminal one. */
  function FirstStop(polls: seq<Poll>): (k: nat)
    requires Terminates(polls)
    ensures k < |polls| && EndsWait(polls[k])
    ensures forall j :: 0 <= j < k ==> !EndsWait(polls[j])
  {
    if EndsWait(polls[0]) then 0
    else
      assert Terminates(polls[1..]) by {
        var i :| 0 <= i < |polls| && EndsWait(polls[i]);
        assert polls[1..][i - 1] == polls[i];
      }
      1 + FirstStop(polls[1..])
  }

  /** What the waiter does with the poll it stops at: on FINISHED it returns
      `Records[0][0]` when `Records` is present (IndexError when there is no
      such cell) and True otherwise; on FAILED it raises "Query failed: "
      followed by `Error` or "Unknown error"; on ABORTED it raises "Query was
      aborted"; a failing `describe_statement` propagates its ClientError. */
  function StopOutcome(poll: Poll): PyResult<Value>
    requires EndsWait(poll)
  {
    match poll
    case DescribeRejected => Raised(ClientError("DescribeStatement"))
    case Described(response) =>
      if response.status == "FINISHED" then
        match response.records
        case None => Returned(Bool(true))
        case Some(records) =>
          if |records| == 0 || |records[0]| == 0 then Raised(IndexError) else Returned(records[0][0])
      else if response.status == "FAILED" then
        Raised(PlainException("Query failed: " + response.error.GetOr("Unknown error")))
      else Raised(PlainException("Query was aborted"))
  }

  /** The waiter's result for a statement whose polls are `polls`. */
  function Await(polls: seq<Poll>): PyResult<Value>
    requires Terminates(polls)
  {
    StopOutcome(polls[FirstStop(polls)])
  }

  /** Polls until the first terminal answer and acts on it; `describeCalls`
      counts the `describe_statement` calls made. */
  method WaitForStatementCompletion(polls: seq<Poll>) returns (result: PyResult<Value>, describeCalls: nat)
    requires Terminates(polls)
    ensures describeCalls == FirstStop(polls) + 1
    ensures result == Await(polls)
  {
    describeCalls := 1;
    var statusResponse := polls[0];
    while !EndsWait(statusResponse)
      invariant 1 <= describeCalls <= FirstStop(polls) + 1
      invariant statusResponse == polls[describeCalls - 1]
      decreases FirstStop(polls) + 1 - describeCalls
    {
      statusResponse := polls[describeCalls];
      describeCalls := describeCalls + 1;
    }
    match statusResponse
    case DescribeRejected =>
      result := Raised(ClientError("DescribeStatement"));
    case Described(response) =>
      var status := response.status;
      if status == "FINISHED" {
        if response.records.Some? {
          var records := response.records.value;
          if |records| == 0 || |records[0]| == 0 {
            result := Raised(IndexError);
          } else {
            result := Returned(records[0][0]);
          }
        } else {
          result := Returned(Bool(true));
        }
      } else if status == "FAILED" {
        var error := response.error.GetOr("Unknown error");
        result := Raised(PlainException("Query failed: " + error));
      } else {
        result := Raised(PlainException("Query was aborted"));
      }
  }

  /** The waiter returns a value only from a FINISHED answer, and raises a plain
      Exception (never a ClientError) for FAILED and ABORTED answers. */
  lemma AwaitOutcomes(polls: seq<Poll>)
    requires Terminates(polls)
    ensures var p := polls[FirstStop(polls)];
      Await(polls).Returned? ==> p.Described? && p.response.status == "FINISHED"
    ensures var p := polls[FirstStop(polls)];
      p.Described? && p.response.status == "FAILED" ==>
        Await(polls) == Raised(PlainException("Query failed: " + p.response.error.GetOr("Unknown error")))
    ensures var p := polls[FirstStop(polls)];
      p.Described? && p.response.status == "ABORTED" ==> Await(polls) == Raised(PlainException("Query was aborted"))
    ensures Await(polls) == Raised(ClientError("DescribeStatement")) <==> polls[FirstStop(polls)].DescribeRejected?
    ensures var p := polls[FirstStop(polls)];
      p.Described? && p.response.status == "FINISHED" && p.response.records.None? ==> Await(polls) == Returned(Bool(true))
    ensures var p := polls[FirstStop(polls)];
      p.Described? && p.response.status == "FINISHED" && p.response.records.Some? ==>
        var records := p.response.records.value;
        Await(polls) == if |records| == 0 || |records[0]| == 0 then Raised(IndexError) else Returned(records[0][0])
  {
  }

  /** Answers after the first terminal one are never read. */
  lemma {:induction false} LaterPollsIgnored(polls: seq<Poll>, more: seq<Poll>)
    requires Terminates(polls)
    ensures Terminates(polls + more)
    ensures FirstStop(polls + more) == FirstStop(polls)
    ensures Await(polls + more) == Await(polls)
  {
    var k := FirstStop(polls);
    assert (polls + more)[k] == polls[k];
    if k > 0 {
      assert polls[1..] + more == (polls + more)[1..];
      LaterPollsIgnored(polls[1..], more);
      assert polls[1..][k - 1] == polls[k];
    }
  }

  /** Two RUNNING answers and then FINISHED without records: three polls, and
      the waiter returns True. */
  lemma RunningRunningFinished(r1: StatusResponse, r2: StatusResponse, r3: StatusResponse)
    requires r1.status == "RUNNING" && r2.status == "RUNNING"
    requires r3.status == "FINISHED" && r3.records.None?
    ensures Terminates([Described(r1), Described(r2), Described(r3)])
    ensures FirstStop([Described(r1), Described(r2), Described(r3)]) + 1 == 3
    ensures Await([Described(r1), Described(r2), Described(r3)]) == Returned(Bool(true))
  {
    var polls := [Described(r1), Described(r2), Described(r3)];
    assert EndsWait(polls[2]);
    assert polls[1..] == [Described(r2), Described(r3)];
    assert polls[1..][1..] == [Described(r3)];
  }
}
