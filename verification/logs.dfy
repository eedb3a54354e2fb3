/** The audit-log collection and the read-only query that the booking-log
    endpoint runs against it: keep one user's `login` and
    `booking_confirmation` entries and order them newest first.

    The store's `find(...).sort({timestamp: -1})` is a foreign call; this module
    states the answer it is asked for (`IsQueryAnswer`) and gives one
    computation of it (`Query`). Ties between equal timestamps are left to the
    store, so the answer is fixed only up to the order of tied entries
    (`AnswersAgreeOnTimestamps`).
 */
module Logs {

  /** One entry of the `Log` collection. `timestamp` is the stored date in
      milliseconds; the store fills it with the creation time when unset. */
  datatype Log = Log(
    userId: string,
    username: string,
    action: string,
    timestamp: int,
    bookingDetails: string
  )

  const LoginAction: string := "login"
  const BookingConfirmationAction: string := "booking_confirmation"

  /** The query's filter: the entry belongs to `userId` and is one of the two
      action kinds the endpoint reports. */
  predicate Matches(l: Log, userId: string) {
    l.userId == userId && (l.action == LoginAction || l.action == BookingConfirmationAction)
  }

  /** Ordered by timestamp, most recent first (non-increasing). */
  predicate NewestFirst(s: seq<Log>) {
    forall i, j :: 0 <= i < j < |s| ==> s[i].timestamp >= s[j].timestamp
  }

  /** What the store is asked to return for `userId` from `collection`:
      every matching entry exactly as often as it is stored, nothing else,
      newest first. */
  ghost predicate IsQueryAnswer(collection: seq<Log>, userId: string, r: seq<Log>) {
    && NewestFirst(r)
    && forall l :: multiset(r)[l] == if Matches(l, userId) then multiset(collection)[l] else 0
  }

  /** The filtering half of the query. */
  function MatchingLogs(collection: seq<Log>, userId: string): (r: seq<Log>)
    ensures forall l :: multiset(r)[l] == if Matches(l, userId) then multiset(collection)[l] else 0
  {
    if |collection| == 0 then []
    else
      assert collection == [collection[0]] + collection[1..];
      var rest := MatchingLogs(collection[1..], userId);
      if Matches(collection[0], userId) then [collection[0]] + rest else rest
  }

  /** Putting an entry no older than the head in front keeps the order. */
  lemma NewestFirstCons(y: Log, t: seq<Log>)
    requires NewestFirst(t)
    requires |t| > 0 ==> y.timestamp >= t[0].timestamp
    ensures NewestFirst([y] + t)
  {
  }

  /** Places `x` into an already newest-first sequence. */
  function Insert(x: Log, s: seq<Log>): (r: seq<Log>)
    requires NewestFirst(s)
    ensures NewestFirst(r)
    ensures multiset(r) == multiset(s) + multiset{x}
    ensures r[0] == x || (|s| > 0 && r[0] == s[0])
  {
    if |s| == 0 then [x]
    else if x.timestamp >= s[0].timestamp then
      NewestFirstCons(x, s);
      [x] + s
    else
      var rest := Insert(x, s[1..]);
      NewestFirstCons(s[0], rest);
      assert s == [s[0]] + s[1..];
      [s[0]] + rest
  }

  /** The ordering half of the query: a permutation of `s`, newest first. */
  function SortNewestFirst(s: seq<Log>): (r: seq<Log>)
    ensures NewestFirst(r)
    ensures multiset(r) == multiset(s)
  {
    if |s| == 0 then []
    else
      assert s == [s[0]] + s[1..];
      Insert(s[0], SortNewestFirst(s[1..]))
  }

  /** One way of answering the booking-log query: keep the matching entries,
      then order them by timestamp, most recent first. */
  function Query(collection: seq<Log>, userId: string): (r: seq<Log>)
    ensures IsQueryAnswer(collection, userId, r)
  {
    SortNewestFirst(MatchingLogs(collection, userId))
  }

  /** Every answer holds exactly the matching entries: no entry of another
      user or action kind, and none of the user's login or confirmation
      entries is dropped. */
  lemma AnswerMembership(collection: seq<Log>, userId: string, r: seq<Log>, l: Log)
    requires IsQueryAnswer(collection, userId, r)
    ensures l in r <==> l in collection && Matches(l, userId)
  {
    assert l in r <==> multiset(r)[l] > 0;
    assert l in collection <==> multiset(collection)[l] > 0;
  }

  /** A user with no matching entries gets the empty sequence: "nothing
      found" is an ordinary answer. */
  lemma {:induction false} NoMatchGivesEmpty(collection: seq<Log>, userId: string, r: seq<Log>)
    requires IsQueryAnswer(collection, userId, r)
    requires forall l :: l in collection ==> !Matches(l, userId)
    ensures r == []
  {
    if |r| > 0 {
      AnswerMembership(collection, userId, r, r[0]);
      assert false;
    }
  }

  /** The timestamps of a sequence of entries, in order. */
  function Timestamps(s: seq<Log>): (ts: seq<int>)
    ensures |ts| == |s|
  {
    if |s| == 0 then [] else [s[0].timestamp] + Timestamps(s[1..])
  }

  lemma {:induction false} TimestampAt(s: seq<Log>, i: nat)
    requires i < |s|
    ensures Timestamps(s)[i] == s[i].timestamp
    decreases i
  {
    if i > 0 {
      TimestampAt(s[1..], i - 1);
    }
  }

  /** The timestamps of a newest-first sequence never increase. */
  lemma NewestFirstTimestamps(s: seq<Log>)
    requires NewestFirst(s)
    ensures NonIncreasing(Timestamps(s))
  {
    forall i, j | 0 <= i < j < |s|
      ensures Timestamps(s)[i] >= Timestamps(s)[j]
    {
      TimestampAt(s, i);
      TimestampAt(s, j);
    }
  }

  predicate NonIncreasing(ts: seq<int>) {
    forall i, j :: 0 <= i < j < |ts| ==> ts[i] >= ts[j]
  }

  lemma {:induction false} TimestampsAppend(a: seq<Log>, b: seq<Log>)
    ensures Timestamps(a + b) == Timestamps(a) + Timestamps(b)
  {
    if |a| == 0 {
      assert a + b == b;
    } else {
      assert (a + b)[1..] == a[1..] + b;
      TimestampsAppend(a[1..], b);
    }
  }

  lemma TimestampsCons(x: Log, s: seq<Log>)
    ensures Timestamps([x] + s) == [x.timestamp] + Timestamps(s)
  {
    assert ([x] + s)[1..] == s;
  }

  lemma TimestampsAppendMultiset(a: seq<Log>, b: seq<Log>)
    ensures multiset(Timestamps(a + b)) == multiset(Timestamps(a)) + multiset(Timestamps(b))
  {
    TimestampsAppend(a, b);
  }

  /** A sequence is its part before entry `j`, that entry, and its part after. */
  lemma SplitAround(b: seq<Log>, j: nat)
    requires j < |b|
    ensures b == b[..j] + ([b[j]] + b[j + 1..])
  {
  }

  /** The timestamps of `b`, split around entry `j`. */
  lemma TimestampsSplit(b: seq<Log>, j: nat)
    requires j < |b|
    ensures multiset(Timestamps(b))
            == multiset(Timestamps(b[..j])) + (multiset{b[j].timestamp} + multiset(Timestamps(b[j + 1..])))
  {
    var front, back := b[..j], b[j + 1..];
    calc {
      multiset(Timestamps(b));
    == { SplitAround(b, j); }
      multiset(Timestamps(front + ([b[j]] + back)));
    == { TimestampsAppendMultiset(front, [b[j]] + back); }
      multiset(Timestamps(front)) + multiset(Timestamps([b[j]] + back));
    == { TimestampsCons(b[j], back); }
      multiset(Timestamps(front)) + (multiset{b[j].timestamp} + multiset(Timestamps(back)));
    }
  }

  /** Taking entry `j` out of `b` takes its timestamp out of the timestamps. */
  lemma TimestampsRemove(b: seq<Log>, j: nat)
    requires j < |b|
    ensures multiset(Timestamps(b))
            == multiset{b[j].timestamp} + multiset(Timestamps(b[..j] + b[j + 1..]))
  {
    TimestampsSplit(b, j);
    TimestampsAppendMultiset(b[..j], b[j + 1..]);
  }

  /** Taking entry `j` out of `b` takes one copy of it out of the multiset. */
  lemma MultisetRemove(b: seq<Log>, j: nat)
    requires j < |b|
    ensures multiset(b[..j] + b[j + 1..]) == multiset(b) - multiset{b[j]}
  {
    assert b == b[..j] + [b[j]] + b[j + 1..];
  }

  lemma MultisetTail<T>(s: seq<T>)
    requires |s| > 0
    ensures multiset(s[1..]) == multiset(s) - multiset{s[0]}
  {
    assert s == [s[0]] + s[1..];
  }

  /** Equal multisets of entries have equal multisets of timestamps. */
  lemma {:induction false} TimestampsPermutation(a: seq<Log>, b: seq<Log>)
    requires multiset(a) == multiset(b)
    ensures multiset(Timestamps(a)) == multiset(Timestamps(b))
    decreases |a|
  {
    if |a| == 0 {
      assert |multiset(b)| == 0;
    } else {
      var x := a[0];
      assert x in multiset(a);
      assert x in b;
      var j :| 0 <= j < |b| && b[j] == x;
      MultisetTail(a);
      MultisetRemove(b, j);
      TimestampsPermutation(a[1..], b[..j] + b[j + 1..]);
      TimestampsRemove(b, j);
      assert Timestamps(a) == [x.timestamp] + Timestamps(a[1..]);
    }
  }

  /** Two non-increasing permutations of each other start with the same
      (largest) element. */
  lemma NonIncreasingHeads(x: seq<int>, y: seq<int>)
    requires NonIncreasing(x) && NonIncreasing(y)
    requires multiset(x) == multiset(y)
    requires |x| > 0
    ensures |y| == |x| && y[0] == x[0]
  {
    assert |y| == |multiset(y)| == |x|;
    assert x[0] in multiset(y);
    assert y[0] in multiset(x);
  }

  lemma HeadTailEqual(x: seq<int>, y: seq<int>)
    requires |x| > 0 && |y| > 0
    requires x[0] == y[0] && x[1..] == y[1..]
    ensures x == y
  {
    assert x == [x[0]] + x[1..];
    assert y == [y[0]] + y[1..];
  }

  /** Two non-increasing integer sequences that are permutations of each
      other are equal. */
  lemma {:induction false} NonIncreasingPermutationUnique(x: seq<int>, y: seq<int>)
    requires NonIncreasing(x) && NonIncreasing(y)
    requires multiset(x) == multiset(y)
    ensures x == y
    decreases |x|
  {
    if |x| == 0 {
      assert |multiset(y)| == 0;
    } else {
      NonIncreasingHeads(x, y);
      MultisetTail(x);
      MultisetTail(y);
      NonIncreasingPermutationUnique(x[1..], y[1..]);
      HeadTailEqual(x, y);
    }
  }

  /** Any two answers to the same query list the same timestamps in the same
      order: they can differ only in how entries with equal timestamps are
      ordered among themselves. */
  lemma AnswersAgreeOnTimestamps(collection: seq<Log>, userId: string, a: seq<Log>, b: seq<Log>)
    requires IsQueryAnswer(collection, userId, a)
    requires IsQueryAnswer(collection, userId, b)
    ensures Timestamps(a) == Timestamps(b)
  {
    assert multiset(a) == multiset(b);
    TimestampsPermutation(a, b);
    NewestFirstTimestamps(a);
    NewestFirstTimestamps(b);
    NonIncreasingPermutationUnique(Timestamps(a), Timestamps(b));
  }

  /** A user with a login at time 1 and a booking confirmation at time 2 gets
      the confirmation first, from any store that answers correctly; another
      user's entry and another action kind are not reported. */
  lemma ScenarioNewestFirst(r: seq<Log>)
    requires IsQueryAnswer(ScenarioCollection(), "u1", r)
    ensures r == [ScenarioBooking(), ScenarioLogin()]
  {
    ScenarioTimestamps(r);
    ScenarioMember(r, r[0]);
    ScenarioMember(r, r[1]);
  }

  /** Every correct answer in the scenario has the timestamps 2 and 1. */
  lemma ScenarioTimestamps(r: seq<Log>)
    requires IsQueryAnswer(ScenarioCollection(), "u1", r)
    ensures |r| == 2 && r[0].timestamp == 2 && r[1].timestamp == 1
  {
    var e := [ScenarioBooking(), ScenarioLogin()];
    ScenarioExpected();
    AnswersAgreeOnTimestamps(ScenarioCollection(), "u1", e, r);
    TimestampAt(e, 0);
    TimestampAt(e, 1);
    TimestampAt(r, 0);
    TimestampAt(r, 1);
  }

  /** The confirmation followed by the login is a correct answer. */
  lemma ScenarioExpected()
    ensures IsQueryAnswer(ScenarioCollection(), "u1", [ScenarioBooking(), ScenarioLogin()])
  {
    var login, other, logout, booking := ScenarioLogin(), ScenarioOtherUser(), ScenarioLogout(), ScenarioBooking();
    var c, e := ScenarioCollection(), [booking, login];
    forall l
      ensures multiset(e)[l] == if Matches(l, "u1") then multiset(c)[l] else 0
    {
      if Matches(l, "u1") {
        assert l != other && l != logout;
      } else {
        assert l != login && l != booking;
      }
    }
  }

  /** Only the user's login and booking confirmation can be in the answer. */
  lemma ScenarioMember(r: seq<Log>, l: Log)
    requires IsQueryAnswer(ScenarioCollection(), "u1", r)
    requires l in r
    ensures l == ScenarioLogin() || l == ScenarioBooking()
  {
    var c := ScenarioCollection();
    AnswerMembership(c, "u1", r, l);
    assert l == c[0] || l == c[1] || l == c[2] || l == c[3];
  }

  function ScenarioLogin(): Log { Log("u1", "ann", LoginAction, 1, "") }
  function ScenarioOtherUser(): Log { Log("u2", "bob", LoginAction, 3, "") }
  function ScenarioLogout(): Log { Log("u1", "ann", "logout", 4, "") }
  function ScenarioBooking(): Log { Log("u1", "ann", BookingConfirmationAction, 2, "Sea View") }
  function ScenarioCollection(): seq<Log> {
    [ScenarioLogin(), ScenarioOtherUser(), ScenarioLogout(), ScenarioBooking()]
  }
}
