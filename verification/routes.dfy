/** The `GET /logs/:userId` route: it calls the booking-log retry loop with
    its default policy and maps the way the call settles onto an HTTP
    response. */
module Routes {
  import opened Logs
  import opened Retry

  /** The defaults of `getBookingLogs`, which the route does not override. */
  const DefaultRetries: int := 3
  const DefaultDelayMs: nat := 5000

  const FetchFailedMessage: string := "Failed to fetch logs"

  /** The JSON body sent. `NoBody` is what `res.json(undefined)` sends. */
  datatype Body = LogList(logs: seq<Log>) | NoBody | FetchFailed(message: string, error: string)

  datatype Response = Response(status: nat, body: Body)

  /** The route's `try`/`catch`: a resolved call is sent as JSON with the
      default status 200, a rejected one as status 500 carrying the error. */
  function Respond(r: Result): Response {
    match r
    case Returned(logs) => Response(200, LogList(logs))
    case Threw(message) => Response(500, FetchFailed(FetchFailedMessage, message))
    case Undefined => Response(200, NoBody)
  }

  /** The response to `GET /logs/:userId` when the store behaves as
      `outcomes` describes. */
  function GetLogs(outcomes: seq<Outcome>, userId: string): (resp: Response)
    ensures resp.status == 200 <==> exists k: nat :: k < DefaultRetries && OutcomeAt(outcomes, k).Ok?
    ensures resp.status == 500 <==> FailsBetween(outcomes, 0, DefaultRetries)
    ensures resp.status == 200 ==> resp.body.LogList?
    ensures resp.status == 200 ==>
              exists k: nat :: && k < DefaultRetries
                               && FailsBetween(outcomes, 0, k)
                               && OutcomeAt(outcomes, k).Ok?
                               && resp.body.logs == OutcomeAt(outcomes, k).answer
    ensures resp.status == 200 && AnswersQueries(outcomes, userId) ==>
              && NewestFirst(resp.body.logs)
              && forall l :: l in resp.body.logs ==> Matches(l, userId)
    ensures resp.status == 500 ==> resp.body == FetchFailed(FetchFailedMessage, ExhaustedMessage)
  {
    SettlesBy(outcomes, DefaultRetries, DefaultDelayMs);
    ReturnedLogsMatch(outcomes, userId, DefaultRetries, DefaultDelayMs);
    ReturnedIsFirstSuccess(outcomes, DefaultRetries, DefaultDelayMs);
    Respond(Run(outcomes, DefaultRetries, DefaultDelayMs).result)
  }

  /** With the route's defaults a request makes at most three queries and
      waits at most two delays, 10000 ms in all; it waits that long exactly
      when the first two attempts fail, whatever the third one does. */
  lemma {:induction false} GetLogsWorstCaseWait(outcomes: seq<Outcome>)
    ensures var t := Run(outcomes, DefaultRetries, DefaultDelayMs);
            && 1 <= t.attempts <= 3
            && t.waitedMs <= 10000
            && (t.waitedMs == 10000 <==> FailsBetween(outcomes, 0, DefaultRetries - 1))
  {
    SettlesBy(outcomes, DefaultRetries, DefaultDelayMs);
    if FailsBetween(outcomes, 0, DefaultRetries) {
      ExhaustionThrows(outcomes, DefaultRetries, DefaultDelayMs);
    } else {
      var k: nat :| k < DefaultRetries && OutcomeAt(outcomes, k).Ok?;
      var first := FirstOk(outcomes, k);
      FirstSuccessReturned(outcomes, DefaultRetries, DefaultDelayMs, first);
    }
  }

  /** Scenario: the store fails on all three attempts; the client gets
      status 500 after two waits of 5000 ms. */
  lemma ScenarioAllAttemptsFail(userId: string)
    ensures GetLogs([Fail, Fail, Fail], userId) == Response(500, FetchFailed(FetchFailedMessage, ExhaustedMessage))
    ensures Run([Fail, Fail, Fail], DefaultRetries, DefaultDelayMs).waitedMs == 10000
  {
    assert FailsBetween([Fail, Fail, Fail], 0, DefaultRetries);
    assert EffectiveDelay(DefaultDelayMs) == 5000;
    ExhaustionThrows([Fail, Fail, Fail], DefaultRetries, DefaultDelayMs);
  }
}
