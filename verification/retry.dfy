/** `getBookingLogs(userId, retries = 3, delay = 5000)`: a bounded loop of up to
    `retries` attempts at the log query, returning at the first attempt that
    succeeds, waiting after every failed attempt except the last, and
    throwing a fixed error when the last attempt fails.

    The store is abstracted as a script of per-attempt outcomes: attempt `i`
    either fails or reads the `Log` collection `outcomes[i].collection` and
    answers `outcomes[i].answer`. What a correct answer is, including the
    freedom the store has in ordering tied timestamps, is `Logs.IsQueryAnswer`;
    `AnswersQueries` says the store keeps to it. Attempts past the end of the
    script find the store unavailable. The timer is abstracted as a count of
    waits and of milliseconds waited.
 */
module Retry {
  import opened Logs

  /** What the store does when an attempt runs the query. */
  datatype Outcome = Fail | Ok(collection: seq<Log>, answer: seq<Log>)

  /** How a call of the async function settles: it resolves with the logs,
      rejects with an `Error` carrying `message`, or resolves with `undefined`
      when the loop body never runs. */
  datatype Result = Returned(logs: seq<Log>) | Threw(message: string) | Undefined

  /** The result of a call together with what it cost: the number of queries
      issued, the number of waits and the milliseconds spent waiting. */
  datatype Trace = Trace(result: Result, attempts: nat, waits: nat, waitedMs: nat)

  const ExhaustedMessage: string := "Failed to fetch logs after multiple attempts"

  /** The largest delay Node's `setTimeout` honours, 2^31 - 1 ms. */
  const TimeoutMax: int := 2147483647

  /** The time `setTimeout(resolve, delay)` actually waits: Node replaces a
      delay below 1 ms or above `TimeoutMax` by 1 ms. */
  function EffectiveDelay(delay: int): (ms: nat)
    ensures 1 <= ms <= TimeoutMax
    ensures ms == delay <==> 1 <= delay <= TimeoutMax
    ensures ms != delay ==> ms == 1
  {
    if 1 <= delay <= TimeoutMax then delay else 1
  }

  function OutcomeAt(outcomes: seq<Outcome>, i: nat): Outcome {
    if i < |outcomes| then outcomes[i] else Fail
  }

  /** Attempts `lo` up to, but not including, `hi` all fail. */
  predicate FailsBetween(outcomes: seq<Outcome>, lo: nat, hi: int) {
    forall j: nat :: lo <= j < hi ==> OutcomeAt(outcomes, j) == Fail
  }

  /** Every successful attempt answers the booking-log query for `userId`
      correctly on the collection it read. */
  ghost predicate AnswersQueries(outcomes: seq<Outcome>, userId: string) {
    forall i :: 0 <= i < |outcomes| && outcomes[i].Ok? ==>
      IsQueryAnswer(outcomes[i].collection, userId, outcomes[i].answer)
  }

  /** The loop from iteration `i` on, written as a recursion over the
      iterations still to run; each wait lasts `waitMs`. Counts are those of
      iterations `i` onwards. */
  function RetryFrom(outcomes: seq<Outcome>, retries: int, waitMs: nat, i: nat): (t: Trace)
    decreases retries - i
    ensures t.waitedMs == t.waits * waitMs
    ensures i >= retries ==> t == Trace(Undefined, 0, 0, 0)
    ensures i < retries && FailsBetween(outcomes, i, retries) ==>
              && t.result == Threw(ExhaustedMessage)
              && t.attempts == retries - i
              && t.waits == retries - i - 1
  {
    if i >= retries then Trace(Undefined, 0, 0, 0)
    else match OutcomeAt(outcomes, i)
      case Ok(_, answer) => Trace(Returned(answer), 1, 0, 0)
      case Fail =>
        if i < retries - 1 then
          var rest := RetryFrom(outcomes, retries, waitMs, i + 1);
          Trace(rest.result, rest.attempts + 1, rest.waits + 1, rest.waitedMs + waitMs)
        else
          Trace(Threw(ExhaustedMessage), 1, 0, 0)
  }

  /** The whole call, as a function of the store's behaviour: every wait
      lasts what `setTimeout` makes of `delay`. */
  function Run(outcomes: seq<Outcome>, retries: int, delay: int): Trace {
    RetryFrom(outcomes, retries, EffectiveDelay(delay), 0)
  }

  /** Adds the cost of `n` failed iterations, each followed by a wait. */
  function AfterFailures(t: Trace, n: nat, waitMs: nat): Trace {
    Trace(t.result, t.attempts + n, t.waits + n, t.waitedMs + n * waitMs)
  }

  /** The retry loop, written imperatively. The out-parameters are the
      settled result and the counted cost of the call. */
  method GetBookingLogs(outcomes: seq<Outcome>, retries: int, delay: int)
    returns (r: Result, attempts: nat, waits: nat, waitedMs: nat)
    ensures Trace(r, attempts, waits, waitedMs) == Run(outcomes, retries, delay)
  {
    var ms := EffectiveDelay(delay);
    ghost var total := RetryFrom(outcomes, retries, ms, 0);
    attempts, waits, waitedMs := 0, 0, 0;
    var i: nat := 0;
    while i < retries
      invariant retries > 0 ==> i < retries
      invariant retries <= 0 ==> i == 0
      invariant attempts == i && waits == i && waitedMs == i * ms
      invariant total == AfterFailures(RetryFrom(outcomes, retries, ms, i), i, ms)
    {
      attempts := attempts + 1;
      var outcome := OutcomeAt(outcomes, i);
      if outcome.Ok? {
        r := Returned(outcome.answer);
        return;
      } else if i < retries - 1 {
        assert (i + 1) * ms == i * ms + ms;
        waits := waits + 1;
        waitedMs := waitedMs + ms;
      } else {
        r := Threw(ExhaustedMessage);
        return;
      }
      i := i + 1;
    }
    r := Undefined;
  }

  /** From iteration `i` on, the loop stops at the first successful attempt
      `k`: its answer is returned unchanged, no later attempt runs, and one
      wait separates each earlier failure from the next attempt. An empty
      answer is such a success. */
  lemma {:induction false} SuccessFrom(outcomes: seq<Outcome>, retries: int, waitMs: nat, i: nat, k: nat)
    requires i <= k < retries
    requires FailsBetween(outcomes, i, k)
    requires OutcomeAt(outcomes, k).Ok?
    ensures var t := RetryFrom(outcomes, retries, waitMs, i);
            && t.result == Returned(OutcomeAt(outcomes, k).answer)
            && t.attempts == k - i + 1
            && t.waits == k - i
            && t.waitedMs == (k - i) * waitMs
    decreases k - i
  {
    if i < k {
      assert OutcomeAt(outcomes, i) == Fail;
      SuccessFrom(outcomes, retries, waitMs, i + 1, k);
    }
  }

  /** The whole call returns the answer of its first successful attempt
      `k`, after `k + 1` queries and `k` waits. */
  lemma FirstSuccessReturned(outcomes: seq<Outcome>, retries: int, delay: int, k: nat)
    requires k < retries
    requires FailsBetween(outcomes, 0, k)
    requires OutcomeAt(outcomes, k).Ok?
    ensures Run(outcomes, retries, delay)
            == Trace(Returned(OutcomeAt(outcomes, k).answer), k + 1, k, k * EffectiveDelay(delay))
  {
    SuccessFrom(outcomes, retries, EffectiveDelay(delay), 0, k);
  }

  /** When every attempt fails the call throws the fixed message after
      exactly `retries` attempts and `retries - 1` waits; the store's own
      error is not passed on. */
  lemma ExhaustionThrows(outcomes: seq<Outcome>, retries: int, delay: int)
    requires retries > 0
    requires FailsBetween(outcomes, 0, retries)
    ensures Run(outcomes, retries, delay)
            == Trace(Threw(ExhaustedMessage), retries, retries - 1, (retries - 1) * EffectiveDelay(delay))
  {
  }

  /** With no attempts allowed the call issues no query, never waits and
      resolves with `undefined` instead of throwing. */
  lemma NoAttemptsGivesUndefined(outcomes: seq<Outcome>, retries: int, delay: int)
    requires retries <= 0
    ensures Run(outcomes, retries, delay) == Trace(Undefined, 0, 0, 0)
  {
  }

  /** The three ways a call can settle, by what the store does:
      it returns exactly when some allowed attempt succeeds, throws exactly
      when all allowed attempts fail, and is `undefined` exactly when no
      attempt is allowed; a throw always carries the fixed message. In every
      case at most `retries` attempts run and there is one wait fewer than
      attempts. */
  lemma {:induction false} SettlesBy(outcomes: seq<Outcome>, retries: int, delay: int)
    ensures var t := Run(outcomes, retries, delay);
            && (t.result.Returned? <==> exists k: nat :: k < retries && OutcomeAt(outcomes, k).Ok?)
            && (t.result.Threw? <==> retries > 0 && FailsBetween(outcomes, 0, retries))
            && (t.result.Threw? ==> t.result.message == ExhaustedMessage)
            && (t.result.Undefined? <==> retries <= 0)
            && t.attempts <= (if retries > 0 then retries else 0)
            && t.waits == (if t.attempts > 0 then t.attempts - 1 else 0)
            && t.waitedMs == t.waits * EffectiveDelay(delay)
  {
    if retries > 0 {
      if k: nat :| k < retries && OutcomeAt(outcomes, k).Ok? {
        var first := FirstOk(outcomes, k);
        FirstSuccessReturned(outcomes, retries, delay, first);
      } else {
        ExhaustionThrows(outcomes, retries, delay);
      }
    }
  }

  /** The earliest successful attempt at or before `k`. */
  ghost function FirstOk(outcomes: seq<Outcome>, k: nat): (first: nat)
    requires OutcomeAt(outcomes, k).Ok?
    ensures first <= k
    ensures OutcomeAt(outcomes, first).Ok?
    ensures FailsBetween(outcomes, 0, first)
  {
    if k == 0 || !exists j: nat :: j < k && OutcomeAt(outcomes, j).Ok? then
      k
    else
      var j: nat :| j < k && OutcomeAt(outcomes, j).Ok?;
      FirstOk(outcomes, j)
  }

  /** Logs that the call returns are, unchanged, the answer of an allowed
      attempt before which every attempt failed. */
  lemma ReturnedIsFirstSuccess(outcomes: seq<Outcome>, retries: int, delay: int)
    ensures var r := Run(outcomes, retries, delay).result;
            r.Returned? ==>
              exists k: nat :: && k < retries
                               && FailsBetween(outcomes, 0, k)
                               && OutcomeAt(outcomes, k).Ok?
                               && r.logs == OutcomeAt(outcomes, k).answer
  {
    SettlesBy(outcomes, retries, delay);
    if Run(outcomes, retries, delay).result.Returned? {
      var k: nat :| k < retries && OutcomeAt(outcomes, k).Ok?;
      var first := FirstOk(outcomes, k);
      FirstSuccessReturned(outcomes, retries, delay, first);
    }
  }

  /** When the store answers the query correctly, logs that the call returns
      are a correct answer for `userId`: they belong to that user, are logins
      or booking confirmations, and are ordered newest first. */
  lemma ReturnedLogsMatch(outcomes: seq<Outcome>, userId: string, retries: int, delay: int)
    ensures var r := Run(outcomes, retries, delay).result;
            AnswersQueries(outcomes, userId) && r.Returned? ==>
              && NewestFirst(r.logs)
              && forall l :: l in r.logs ==> Matches(l, userId)
  {
    var r := Run(outcomes, retries, delay).result;
    SettlesBy(outcomes, retries, delay);
    if AnswersQueries(outcomes, userId) && r.Returned? {
      var k: nat :| k < retries && OutcomeAt(outcomes, k).Ok?;
      var first := FirstOk(outcomes, k);
      var outcome := OutcomeAt(outcomes, first);
      FirstSuccessReturned(outcomes, retries, delay, first);
      assert first < |outcomes| && outcomes[first] == outcome;
      forall l | l in r.logs
        ensures Matches(l, userId)
      {
        AnswerMembership(outcome.collection, userId, r.logs, l);
      }
    }
  }

  /** Scenario: two failures then a success, with three attempts allowed and
      a 5000 ms delay, returns the third attempt's answer after two waits. */
  lemma ScenarioTwoFailuresThenSuccess(collection: seq<Log>, answer: seq<Log>)
    ensures Run([Fail, Fail, Ok(collection, answer)], 3, 5000) == Trace(Returned(answer), 3, 2, 10000)
  {
    FirstSuccessReturned([Fail, Fail, Ok(collection, answer)], 3, 5000, 2);
  }

  /** A delay of 0 ms, or one beyond `TimeoutMax`, still costs 1 ms per
      wait: with three failures the call waits 2 ms in all. */
  lemma ScenarioOutOfRangeDelay()
    ensures Run([Fail, Fail, Fail], 3, 0).waitedMs == 2
    ensures Run([Fail, Fail, Fail], 3, 4000000000).waitedMs == 2
  {
    assert EffectiveDelay(0) == 1 && EffectiveDelay(4000000000) == 1;
    ExhaustionThrows([Fail, Fail, Fail], 3, 0);
    ExhaustionThrows([Fail, Fail, Fail], 3, 4000000000);
  }
}
