# Booking-log retrieval and booking confirmation, modelled in Dafny

This project models the two pieces of real logic in a hotel-booking backend
(an Express/MongoDB server, `server.js`):

- **`getBookingLogs(userId, retries = 3, delay = 5000)`** and the
  `GET /logs/:userId` route that calls it. The function runs one read-only
  query against the `Log` collection: the user's `login` and
  `booking_confirmation` entries, newest first. It retries a failed query up
  to `retries` times in all, waiting a fixed `delay` between attempts, and
  throws `Error('Failed to fetch logs after multiple attempts')` when the last
  attempt fails. The route answers with the logs, or with status 500 when the
  call throws.
- **`POST /api/bookings/confirmation`**. It rejects a request with 400 unless
  `userName`, `hotelName` and `paymentStatus` are all truthy. Otherwise it
  saves a three-field record and answers 201, or 500 when the write fails.

Files and modules:

- `logs.dfy` (module `Logs`): the `Log` entry, the query's filter
  (`Matches`, `MatchingLogs`) and ordering (`NewestFirst`, `SortNewestFirst`),
  and the specification of a correct answer (`IsQueryAnswer`). The store
  decides how tied timestamps are ordered, so an answer is fixed only up to
  ties; `AnswersAgreeOnTimestamps` proves exactly that. `Query` is one
  correct answer, which shows that `IsQueryAnswer` can be met.
- `retry.dfy` (module `Retry`): the store is a script of per-attempt
  outcomes. Each is `Fail`, or `Ok(collection, answer)`: the collection the
  attempt read and the answer the store returned. `AnswersQueries` says the
  store answers correctly, and the properties about returned logs assume it.
  The loop returns the store's answer as it is. `RetryFrom` is a recursive
  reference definition of the loop. `GetBookingLogs` is the loop itself,
  written as a `while` loop, and it is proved equal to the reference. Every
  call reports its result (`Returned`, `Threw` or `Undefined`), the number of
  queries, the number of waits and the milliseconds waited. A wait lasts
  `EffectiveDelay(delay)`: Node's `setTimeout` turns a delay below 1 ms or
  above 2147483647 ms into 1 ms.
- `routes.dfy` (module `Routes`): the `/logs/:userId` handler with the default
  policy of 3 attempts and a 5000 ms delay.
- `booking.dfy` (module `Booking`): JavaScript truthiness of request fields
  and the confirmation handler. The handler runs against a collection of
  saved records, and whether a well-typed write succeeds is a parameter.

Facts about the code that the model keeps:

- The exhaustion error is a fresh `Error` with a fixed message
  (server.js:279). It neither wraps the store's error nor reports the attempt
  count. `ExhaustionThrows` states this.
- There is no cancellation of a pending wait and no per-attempt timeout.
- With `retries <= 0` the loop body never runs, and the function resolves
  with `undefined` instead of throwing. `NoAttemptsGivesUndefined` states
  this.
- A request field holding a JSON object or array is truthy, so it passes the
  required-field check (server.js:184). Mongoose casts an object with a
  non-empty string `_id` to that string, and the record is saved with it
  (`ScenarioObjectWithIdSaved`). It cannot cast any other object, or an
  array, to the schema's `String`. Then the save fails and the client gets
  500 (server.js:195-199). `ScenarioObjectFieldFailsSave` shows one such
  request.

## Model

| member | source | states |
|---|---|---|
| Logs.MatchingLogs | server.js:263-268 | each entry appears in the result exactly as often as in the collection when it belongs to the user and is a `login` or `booking_confirmation`, and not at all otherwise |
| Logs.SortNewestFirst | server.js:269 | the result is a permutation of its input ordered by timestamp, newest first |
| Logs.Query | server.js:263-269 | the query's result is a correct answer: exactly the user's login and booking-confirmation entries, with multiplicity, ordered newest first |
| Logs.AnswerMembership | server.js:263-268 | an entry is in an answer if and only if it is in the collection, belongs to the user and has one of the two action kinds |
| Logs.NoMatchGivesEmpty | server.js:263-272 | a user with no matching entries gets the empty sequence, which is an ordinary answer |
| Logs.AnswersAgreeOnTimestamps | server.js:269 | any two correct answers list the same timestamps in the same order; they can differ only in how tied entries are ordered |
| Logs.ScenarioNewestFirst | server.js:263-269 | every correct answer for a user with a login at time 1 and a booking confirmation at time 2 is [confirmation, login]; another user's entry and a `logout` entry are left out |
| Retry.RetryFrom | server.js:261-282 | time waited is always the number of waits times the effective delay; with no iterations left the result is `undefined` at no cost; if every remaining attempt fails, the call throws the fixed message after one attempt per remaining iteration and one wait fewer |
| Retry.EffectiveDelay | server.js:277 | a wait lasts the requested delay when it is between 1 and 2147483647 ms, and 1 ms otherwise |
| Retry.GetBookingLogs | server.js:260-283 | the imperative loop settles exactly as the recursive reference does, with the same result, attempt count, wait count and milliseconds waited |
| Retry.SuccessFrom | server.js:261-277 | from any iteration, if attempts up to k fail and attempt k succeeds, the result is attempt k's answer unchanged, and the loop makes exactly that many attempts with one wait fewer |
| Retry.FirstSuccessReturned | server.js:261-277 | if the first k attempts fail and attempt k+1 succeeds within the limit, the call returns that attempt's answer after k+1 queries and k waits of the effective delay; no later attempt runs |
| Retry.ExhaustionThrows | server.js:273-280 | if all `retries` attempts fail, the call throws 'Failed to fetch logs after multiple attempts' after exactly `retries` queries and `retries - 1` waits; there is no wait after the last failure |
| Retry.NoAttemptsGivesUndefined | server.js:260-283 | with `retries <= 0` there is no query and no wait, and the call resolves with `undefined` instead of throwing |
| Retry.SettlesBy | server.js:260-283 | the call returns if and only if some allowed attempt succeeds, throws (always with the fixed message) if and only if all allowed attempts fail, and is `undefined` if and only if no attempt is allowed; at most `retries` queries run, with one wait fewer than queries |
| Retry.ReturnedIsFirstSuccess | server.js:261-272 | logs the call returns are exactly the answer of an allowed attempt before which every attempt failed, passed on unchanged |
| Retry.ReturnedLogsMatch | server.js:263-272 | when the store answers the query correctly, returned logs belong to the requested user, are logins or booking confirmations, and are ordered newest first |
| Retry.ScenarioTwoFailuresThenSuccess | server.js:260-277 | with three attempts and a 5000 ms delay, two failures then a success return the third attempt's answer after 3 queries and two waits, 10000 ms in all |
| Retry.ScenarioOutOfRangeDelay | server.js:275-277 | with a delay of 0 ms or of 4000000000 ms, three failed attempts wait 1 ms twice, 2 ms in all |
| Routes.GetLogs | server.js:285-294 | the route answers 200 if and only if one of the three default attempts succeeds, and its body is then exactly the answer of the first attempt that succeeded, which a correct store makes the user's logs, newest first; it answers 500 with the fixed message and the thrown Error (modelled by its message) if and only if all three fail |
| Routes.GetLogsWorstCaseWait | server.js:260-288 | with the route's defaults a request makes 1 to 3 queries and waits at most 2 × 5000 ms; it waits the full 10000 ms exactly when the first two attempts fail |
| Routes.ScenarioAllAttemptsFail | server.js:285-293 | when the store fails three times, the client gets status 500 after 10000 ms of waiting |
| Booking.PostConfirmation | server.js:181-201 | the reply is 400 'Missing required fields' with nothing saved if and only if one of the three fields is falsy; it is 201 if and only if all are truthy, none is an array or an object without a non-empty string `_id`, and the write succeeds, and then exactly one record holding the request's three values is appended, an object replaced by its `_id`; otherwise it is 500 with nothing saved |
| Booking.ScenarioObjectFieldFailsSave | server.js:184-199 | a `userName` sent as the JSON object `{}` passes the required-field check, but the save fails: 500 and nothing stored |
| Booking.ScenarioObjectWithIdSaved | server.js:184-196 | a `userName` sent as `{"_id": "ann"}` passes the check and is saved as `"ann"`, with status 201 |
| Booking.ConfirmationsStayComplete | server.js:184-195 | the handler keeps the collection append-only and complete: earlier records are untouched, at most one record is added, and every stored record has three truthy fields, none an object or array |

## Left out

- Express wiring, middleware and `app.listen` (server.js:13-18, 296-298): framework plumbing with no logic of its own.
- MongoDB connection bootstrap and `process.exit` (server.js:21-37): I/O and process control.
- Mongoose `find`, `sort` and `save` themselves. These are foreign calls. The model states what a correct answer to the query is (`Logs.IsQueryAnswer`), and the store's answer at each attempt is part of the outcome script. A well-typed write's success is a boolean parameter.
- The real `setTimeout` timer (server.js:277). Time is counted as waits and milliseconds waited, not elapsed.
- The store's thrown error objects. A failed attempt is just `Fail`, because the code logs the error and then discards it.
- `console.log` and `console.error` diagnostics throughout: side effects with no bearing on any result.
- Routes.GetLogs: the 500 body's `error` is modelled by the thrown Error's message. A serialised `Error` object has no enumerable properties, so the client actually receives `"error":{}` (server.js:292).
- Retry.GetBookingLogs: `retries` and `delay` are integers. JavaScript would also accept fractional, `NaN` or string arguments here. The route passes neither argument, so only the defaults 3 and 5000 matter to it.
- Retry.RetryFrom: the store's behaviour is a finite script. Attempts past its end are taken to fail, as if the store had become unreachable.
- Booking.PostConfirmation: numbers are integers, so `NaN` (also falsy) is not modelled. Mongoose's conversion of numbers and booleans to `String` on save is not modelled, so the record keeps those values as given. Of its String cast, only the rule for objects and arrays is modelled: an object's non-empty string `_id` is taken, and any other object or array is rejected. The cast's further rule, which calls an object's own `toString`, cannot apply to a parsed JSON body and is left out.
- OTP generation and Twilio delivery (server.js:88-105 and sendOtp.js): a random code from a library and a network client.
- Registration, login, reviews, the amenities lookup, booking details and payment receipts (server.js:49-85, 108-162, 203-246). Each is a single create or read against the store, with no retry, ordering or validation logic.
- `POST /api/amenities` (server.js:164-169) makes no store call. It reads `Booking.location`, but no `Booking` is defined in server.js, so every request throws a ReferenceError (server.js:167). The handler has no logic beyond that.
- routes/userroutes.js and models/Booking.js: a one-line route wrapper and a schema declaration, with no logic.
