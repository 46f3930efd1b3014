// The sliding-window limiter: one sorted set of admission times per user, kept
// in Redis and updated by one atomic script. Scores are exact integers here.
module RateLimit {
  import opened IntSets

  // In nanoseconds.
  const MINUTE: int := 60_000_000_000
  const LIMIT: nat := 5

  // The stored set and the moment, on the server's clock, after which it expires.
  datatype Window = Window(zset: set<int>, expiresAt: int)

  // A request carries its caller's time and runs at the server's time.
  datatype Request = Request(now: int, serverNow: int)

  function Kept(w: Window, r: Request): set<int> {
    set x | x in w.zset && r.serverNow <= w.expiresAt && !(0 <= x <= r.now - MINUTE)
  }

  // The script: prune, count, and admit or refuse.
  function Check(w: Window, r: Request): (bool, Window) {
    var kept := Kept(w, r);
    if |kept| >= LIMIT then (false, w.(zset := kept)) else (true, Window(kept + {r.now}, r.serverNow + MINUTE))
  }

  class RateLimiter {
    var zset: set<int>
    var expiresAt: int

    function Contents(): Window
      reads this
    {
      Window(zset, expiresAt)
    }

    constructor ()
      ensures zset == {}
    {
      zset, expiresAt := {}, 0;
    }

    // An error of the cache, before or after the script took effect, refuses
    // the request too.
    method CheckRateLimit(now: int, serverNow: int, arrives: bool, answered: bool) returns (ok: bool)
      modifies this
      ensures var (admitted, w) := Check(old(Contents()), Request(now, serverNow));
              && Contents() == (if arrives then w else old(Contents()))
              && ok == (arrives && answered && admitted)
    {
      if !arrives {
        return false;
      }
      var kept := set x | x in zset && serverNow <= expiresAt && !(0 <= x <= now - MINUTE);
      assert kept == Kept(old(Contents()), Request(now, serverNow));
      zset := kept;
      if |zset| >= LIMIT {
        return false;
      }
      zset := zset + {now};
      expiresAt := serverNow + MINUTE;
      return answered;
    }
  }

  // --- The full history --------------------------------------------------------

  // Every request so far: the window left, and all admission times in order.
  function Run(rs: seq<Request>): (Window, seq<int>) {
    if rs == [] then (Window({}, 0), [])
    else RunOn(Run(rs[..|rs| - 1]), rs[|rs| - 1])
  }

  function RunOn(run: (Window, seq<int>), r: Request): (Window, seq<int>) {
    var (ok, w') := Check(run.0, r);
    (w', if ok then run.1 + [r.now] else run.1)
  }

  function Admissions(rs: seq<Request>): seq<int> {
    Run(rs).1
  }

  predicate Admitted(rs: seq<Request>, r: Request) {
    Check(Run(rs).0, r).0
  }

  // The admissions of the minute up to `now`.
  function Recent(log: seq<int>, now: int): set<int> {
    set x | x in log && now - MINUTE < x
  }

  predicate Increasing(log: seq<int>) {
    forall j, k :: 0 <= j < k < |log| ==> log[j] < log[k]
  }

  predicate NotDecreasing(log: seq<int>) {
    forall j, k :: 0 <= j < k < |log| ==> log[j] <= log[k]
  }

  // --- The stored set and the history ------------------------------------------

  ghost predicate Nonnegative(rs: seq<Request>) {
    forall r <- rs :: 0 <= r.now
  }

  // Callers' times never go back.
  ghost predicate InOrder(rs: seq<Request>) {
    Nonnegative(rs) && forall i, j :: 0 <= i < j < |rs| ==> rs[i].now <= rs[j].now
  }

  // The request finds the set alive, or nothing that it should still hold.
  predicate FindsSetAlive(run: (Window, seq<int>), r: Request) {
    r.serverNow <= run.0.expiresAt || Recent(run.1, r.now) == {}
  }

  // Every request of a run does.
  predicate Timely(rs: seq<Request>) {
    rs == [] || (Timely(rs[..|rs| - 1]) && FindsSetAlive(Run(rs[..|rs| - 1]), rs[|rs| - 1]))
  }

  // Some request was admitted at this time; none since came with a time a minute
  // later, and none has found the set expired.
  predicate Retained(rs: seq<Request>, x: int) {
    rs != [] &&
    var before, r := rs[..|rs| - 1], rs[|rs| - 1];
    || (Admitted(before, r) && r.now == x)
    || (Retained(before, x) && r.now - MINUTE < x && r.serverNow <= Run(before).0.expiresAt)
  }

  // All admissions of the minute before the request are.
  ghost predicate AllRetained(rs: seq<Request>, r: Request) {
    forall x <- Recent(Admissions(rs), r.now) :: Retained(rs, x)
  }

  // Some request was admitted at this time, and none since came with a time a
  // minute later. This is about callers' times alone.
  predicate Unpassed(rs: seq<Request>, x: int) {
    rs != [] &&
    var before, r := rs[..|rs| - 1], rs[|rs| - 1];
    (Admitted(before, r) && r.now == x) || (Unpassed(before, x) && r.now - MINUTE < x)
  }

  // No admission of the minute before the request was passed by a request that
  // bears a later time but came first.
  ghost predicate NotOvertaken(rs: seq<Request>, r: Request) {
    forall x <- Recent(Admissions(rs), r.now) :: Unpassed(rs, x)
  }

  // No request of a run is.
  ghost predicate NeverOvertaken(rs: seq<Request>) {
    rs == [] || (NeverOvertaken(rs[..|rs| - 1]) && NotOvertaken(rs[..|rs| - 1], rs[|rs| - 1]))
  }

  // What a request counts is the full history of the minute before it.
  predicate CountsTheLastMinute(run: (Window, seq<int>), r: Request) {
    Kept(run.0, r) == Recent(run.1, r.now)
  }

  predicate Faithful(rs: seq<Request>) {
    rs == [] || (Faithful(rs[..|rs| - 1]) && CountsTheLastMinute(Run(rs[..|rs| - 1]), rs[|rs| - 1]))
  }

  // Pruning leaves exactly the recent part of the history, if and only if the
  // set has not expired while part of it was still recent.
  lemma PrunedIsRecentIff(w: Window, log: seq<int>, last: int, r: Request)
    requires w.zset == Recent(log, last) && last <= r.now
    requires forall x <- log :: 0 <= x
    ensures Kept(w, r) == Recent(log, r.now) <==> r.serverNow <= w.expiresAt || Recent(log, r.now) == {}
  {
    if r.serverNow <= w.expiresAt {
      assert Kept(w, r) == Recent(log, r.now);
    } else {
      assert Kept(w, r) == {};
    }
  }

  lemma {:induction false} RetainedIsAdmitted(rs: seq<Request>, x: int)
    requires Retained(rs, x)
    ensures x in Admissions(rs)
  {
    var before, r := rs[..|rs| - 1], rs[|rs| - 1];
    if !(Admitted(before, r) && r.now == x) {
      RetainedIsAdmitted(before, x);
    }
  }

  lemma {:induction false} AdmissionsNonnegative(rs: seq<Request>)
    requires Nonnegative(rs)
    ensures forall x <- Admissions(rs) :: 0 <= x
  {
    if rs != [] {
      var before, r := rs[..|rs| - 1], rs[|rs| - 1];
      AdmissionsNonnegative(before);
      forall x <- Admissions(rs) ensures 0 <= x {
        assert x in Admissions(before) || x == r.now;
      }
    }
  }

  // In every run, the stored set is what is retained.
  lemma {:induction false} StoredIffRetained(rs: seq<Request>, x: int)
    requires Nonnegative(rs)
    ensures x in Run(rs).0.zset <==> Retained(rs, x)
  {
    if rs != [] {
      var before, r := rs[..|rs| - 1], rs[|rs| - 1];
      StoredIffRetained(before, x);
      if Retained(before, x) {
        RetainedIsAdmitted(before, x);
        AdmissionsNonnegative(before);
      }
    }
  }

  // What was recently admitted and is retained.
  function Remembered(rs: seq<Request>, now: int): set<int> {
    set x | x in Recent(Admissions(rs), now) && Retained(rs, x)
  }

  lemma {:induction false} KeptIsRemembered(rs: seq<Request>, r: Request)
    requires Nonnegative(rs)
    ensures Kept(Run(rs).0, r) == if r.serverNow <= Run(rs).0.expiresAt then Remembered(rs, r.now) else {}
  {
    forall x ensures x in Run(rs).0.zset <==> Retained(rs, x) {
      StoredIffRetained(rs, x);
    }
    forall x | Retained(rs, x) ensures x in Admissions(rs) && 0 <= x {
      RetainedIsAdmitted(rs, x);
      AdmissionsNonnegative(rs);
    }
  }

  // One request, after whatever others: it counts exactly the admissions of the
  // minute before it, if and only if it finds the set alive or nothing recent,
  // and all that is recent is retained.
  lemma {:induction false} CountsTheLastMinuteIff(rs: seq<Request>, r: Request)
    requires Nonnegative(rs)
    ensures CountsTheLastMinute(Run(rs), r) <==> FindsSetAlive(Run(rs), r) && AllRetained(rs, r)
  {
    KeptIsRemembered(rs, r);
    RememberedIsRecentIff(rs, r);
  }

  lemma RememberedIsRecentIff(rs: seq<Request>, r: Request)
    ensures Remembered(rs, r.now) == Recent(Admissions(rs), r.now) <==> AllRetained(rs, r)
  {
    if !AllRetained(rs, r) {
      var x :| x in Recent(Admissions(rs), r.now) && !Retained(rs, x);
      assert x !in Remembered(rs, r.now);
    }
  }

  // After timely requests only callers' times matter.
  lemma {:induction false} RetainedIffUnpassed(rs: seq<Request>, x: int)
    requires Timely(rs)
    ensures Retained(rs, x) <==> Unpassed(rs, x)
  {
    if rs != [] {
      var before, r := rs[..|rs| - 1], rs[|rs| - 1];
      RetainedIffUnpassed(before, x);
      if Retained(before, x) {
        RetainedIsAdmitted(before, x);
        assert x in Recent(Admissions(before), r.now) <==> r.now - MINUTE < x;
      }
    }
  }

  lemma {:induction false} TimelyRetainsUnlessOvertaken(rs: seq<Request>, r: Request)
    requires Timely(rs)
    ensures AllRetained(rs, r) <==> NotOvertaken(rs, r)
  {
    forall x ensures Retained(rs, x) <==> Unpassed(rs, x) {
      RetainedIffUnpassed(rs, x);
    }
  }

  // Over a whole run, in any order.
  lemma {:induction false} FaithfulIff(rs: seq<Request>)
    requires Nonnegative(rs)
    ensures Faithful(rs) <==> Timely(rs) && NeverOvertaken(rs)
  {
    if rs != [] {
      var before, r := rs[..|rs| - 1], rs[|rs| - 1];
      FaithfulIff(before);
      CountsTheLastMinuteIff(before, r);
      if Timely(before) {
        TimelyRetainsUnlessOvertaken(before, r);
      }
    }
  }

  lemma {:induction false} UnpassedWhenNoneIsLater(rs: seq<Request>, now: int, x: int)
    requires (forall q <- rs :: q.now <= now) && x in Recent(Admissions(rs), now)
    ensures Unpassed(rs, x)
  {
    if rs != [] {
      var before, r := rs[..|rs| - 1], rs[|rs| - 1];
      if !(Admitted(before, r) && r.now == x) {
        UnpassedWhenNoneIsLater(before, now, x);
      }
    }
  }

  lemma {:induction false} InOrderIsNeverOvertaken(rs: seq<Request>)
    requires InOrder(rs)
    ensures NeverOvertaken(rs)
  {
    if rs != [] {
      var before, r := rs[..|rs| - 1], rs[|rs| - 1];
      InOrderIsNeverOvertaken(before);
      forall x <- Recent(Admissions(before), r.now) ensures Unpassed(before, x) {
        UnpassedWhenNoneIsLater(before, r.now, x);
      }
    }
  }

  // For a run in order: if and only if every request finds the set alive or
  // nothing that it should still hold.
  lemma {:induction false} FaithfulIffTimely(rs: seq<Request>)
    requires InOrder(rs)
    ensures Faithful(rs) <==> Timely(rs)
  {
    FaithfulIff(rs);
    InOrderIsNeverOvertaken(rs);
  }

  // Out of order this fails: the second request prunes the admission at 1, which
  // the third one, overtaken, should still count.
  lemma OvertakenRequestCountsTooFew() returns (rs: seq<Request>, r: Request)
    ensures rs == [Request(1, 1), Request(1 + MINUTE, 1 + MINUTE)] && r == Request(MINUTE, 1 + MINUTE)
    ensures Timely(rs) && FindsSetAlive(Run(rs), r)
    ensures Recent(Admissions(rs), r.now) == {1, 1 + MINUTE} && Kept(Run(rs).0, r) == {1 + MINUTE}
  {
    var none, first: seq<Request> := [], [Request(1, 1)];
    rs, r := first + [Request(1 + MINUTE, 1 + MINUTE)], Request(MINUTE, 1 + MINUTE);
    RunThen(none, first[0]);
    assert none + first == first;
    FirstIsAlone(Run(none));
    RunThen(first, Request(1 + MINUTE, 1 + MINUTE));
    SecondPrunesFirst(Run(first), Request(1 + MINUTE, 1 + MINUTE));
  }

  lemma FirstIsAlone(run: (Window, seq<int>))
    requires run == (Window({}, 0), [])
    ensures FindsSetAlive(run, Request(1, 1)) && RunOn(run, Request(1, 1)) == (Window({1}, 1 + MINUTE), [1])
  {
    assert Kept(run.0, Request(1, 1)) == {} && Recent(run.1, 1) == {} && run.1 + [1] == [1];
  }

  lemma SecondPrunesFirst(run: (Window, seq<int>), r: Request)
    requires run == (Window({1}, 1 + MINUTE), [1]) && r == Request(1 + MINUTE, 1 + MINUTE)
    ensures RunOn(run, r) == (Window({1 + MINUTE}, 1 + 2 * MINUTE), [1, 1 + MINUTE])
  {
    assert Kept(run.0, r) == {} && [1] + [1 + MINUTE] == [1, 1 + MINUTE];
  }

  lemma {:induction false} RunThen(rs: seq<Request>, r: Request)
    ensures Run(rs + [r]) == RunOn(Run(rs), r) && (Timely(rs + [r]) <==> Timely(rs) && FindsSetAlive(Run(rs), r))
  {
    assert (rs + [r])[..|rs|] == rs;
  }

  // The time of the last request, if any.
  function LastTime(rs: seq<Request>): int {
    if rs == [] then 0 else rs[|rs| - 1].now
  }

  lemma RecentStep(log: seq<int>, now: int)
    ensures Recent(log + [now], now) == Recent(log, now) + {now}
  {
  }

  // Then the stored set is the history of the last minute after every request.
  lemma {:induction false} StoredIsTheLastMinute(rs: seq<Request>)
    requires Nonnegative(rs) && Timely(rs) && NeverOvertaken(rs)
    ensures Run(rs).0.zset == Recent(Admissions(rs), LastTime(rs))
    ensures InOrder(rs) ==> NotDecreasing(Admissions(rs))
  {
    if InOrder(rs) {
      AdmissionsInOrder(rs);
    }
    if rs != [] {
      var before, r := rs[..|rs| - 1], rs[|rs| - 1];
      CountsTheLastMinuteIff(before, r);
      TimelyRetainsUnlessOvertaken(before, r);
      if Admitted(before, r) {
        RecentStep(Admissions(before), r.now);
      }
    }
  }

  lemma {:induction false} AdmissionsInOrder(rs: seq<Request>)
    requires InOrder(rs)
    ensures NotDecreasing(Admissions(rs)) && forall x <- Admissions(rs) :: x <= LastTime(rs)
  {
    if rs != [] {
      var before, r := rs[..|rs| - 1], rs[|rs| - 1];
      AdmissionsInOrder(before);
      assert before != [] ==> LastTime(before) <= r.now;
      LogStep(Admissions(before), r.now);
    }
  }

  lemma LogStep(log: seq<int>, now: int)
    requires NotDecreasing(log) && forall x <- log :: x <= now
    ensures NotDecreasing(log + [now])
  {
    forall j, k | 0 <= j < k <= |log| ensures (log + [now])[j] <= (log + [now])[k] {
      assert log[j] in log;
    }
  }

  // --- Who is refused ----------------------------------------------------------

  // In every run: a request is refused only if the minute before it holds five
  // admissions at different times; simultaneous ones count once. If it counts
  // that minute, then it is refused if and only if there are five.
  lemma {:induction false} RefusedIffFiveTimesInTheLastMinute(rs: seq<Request>, r: Request)
    requires Nonnegative(rs)
    ensures !Admitted(rs, r) ==> |Recent(Admissions(rs), r.now)| >= LIMIT
    ensures FindsSetAlive(Run(rs), r) && AllRetained(rs, r) ==>
              (!Admitted(rs, r) <==> |Recent(Admissions(rs), r.now)| >= LIMIT)
  {
    KeptIsRemembered(rs, r);
    RememberedIsRecentIff(rs, r);
    SubsetSize(Remembered(rs, r.now), Recent(Admissions(rs), r.now));
  }

  // In every run: a request that should be refused is admitted if and only if
  // the set has expired, a minute after the last admission, or fewer than five
  // of those times are retained.
  lemma {:induction false} AdmittedTooSoonIffForgotten(rs: seq<Request>, r: Request)
    requires Nonnegative(rs) && |Recent(Admissions(rs), r.now)| >= LIMIT
    ensures Admitted(rs, r) <==> r.serverNow > Run(rs).0.expiresAt || |Remembered(rs, r.now)| < LIMIT
  {
    KeptIsRemembered(rs, r);
  }

  // One request that finds the set expired makes those after it forget, too:
  // five admissions, one that comes just after the expiry, and then a seventh
  // that finds the set alive, with six admissions of the last minute that were
  // not passed, and is admitted.
  lemma ExpiryIsFeltLater() returns (rs: seq<Request>, r: Request)
    ensures |rs| == 6 && rs[5] == Request(MINUTE - 1, MINUTE + 6) && r == Request(MINUTE, MINUTE + 7)
    ensures forall i: nat :: i < 5 ==> rs[i] == Request(i + 1, i + 1)
    ensures Recent(Admissions(rs), r.now) == {1, 2, 3, 4, 5, MINUTE - 1}
    ensures NotOvertaken(rs, r) && FindsSetAlive(Run(rs), r)
    ensures Remembered(rs, r.now) == {MINUTE - 1} && Admitted(rs, r)
  {
    var sixth := Request(MINUTE - 1, MINUTE + 6);
    var five := FirstAreAdmitted(5);
    FirstTimesAre();
    SixthStartsAnew(five, Run(five), sixth);
    rs, r := five + [sixth], Request(MINUTE, MINUTE + 7);
    SeventhIsAdmitted(rs, Run(rs), r);
    forall x <- Recent(Admissions(rs), r.now) ensures Unpassed(rs, x) {
      UnpassedWhenNoneIsLater(rs, r.now, x);
    }
  }

  lemma {:induction false} SixthStartsAnew(five: seq<Request>, run: (Window, seq<int>), r6: Request)
    requires run == Run(five) && run.0.expiresAt == 5 + MINUTE && run.1 == [1, 2, 3, 4, 5]
    requires r6 == Request(MINUTE - 1, MINUTE + 6)
    ensures Run(five + [r6]) == (Window({MINUTE - 1}, 2 * MINUTE + 6), [1, 2, 3, 4, 5, MINUTE - 1])
  {
    RunThen(five, r6);
    assert Kept(run.0, r6) == {};
    assert Check(run.0, r6) == (true, Window({MINUTE - 1}, 2 * MINUTE + 6));
    assert [1, 2, 3, 4, 5] + [MINUTE - 1] == [1, 2, 3, 4, 5, MINUTE - 1];
  }

  lemma {:induction false} SeventhIsAdmitted(six: seq<Request>, run: (Window, seq<int>), r7: Request)
    requires Nonnegative(six) && run == Run(six)
    requires run == (Window({MINUTE - 1}, 2 * MINUTE + 6), [1, 2, 3, 4, 5, MINUTE - 1])
    requires r7 == Request(MINUTE, MINUTE + 7)
    ensures Recent(run.1, r7.now) == {1, 2, 3, 4, 5, MINUTE - 1}
    ensures Remembered(six, r7.now) == {MINUTE - 1} && Check(run.0, r7).0
  {
    assert Kept(run.0, r7) == {MINUTE - 1};
    KeptIsRemembered(six, r7);
  }

  // The first n whole numbers from 1.
  function UpTo(n: nat): set<int> {
    if n == 0 then {} else UpTo(n - 1) + {n}
  }

  lemma {:induction false} UpToSize(n: nat)
    ensures |UpTo(n)| == n && forall x :: x in UpTo(n) <==> 1 <= x <= n
  {
    if n > 0 {
      UpToSize(n - 1);
    }
  }

  function FirstTimes(n: nat): seq<int> {
    if n == 0 then [] else FirstTimes(n - 1) + [n]
  }

  // After a request at each of the times from 1 to n.
  ghost predicate AllAdmitted(run: (Window, seq<int>), n: nat) {
    run.0.zset == UpTo(n) && run.1 == FirstTimes(n) && (n > 0 ==> run.0.expiresAt == n + MINUTE)
  }

  lemma NextIsAdmitted(run: (Window, seq<int>), n: nat)
    requires AllAdmitted(run, n) && n < LIMIT
    ensures AllAdmitted(RunOn(run, Request(n + 1, n + 1)), n + 1)
  {
    UpToSize(n);
    assert Kept(run.0, Request(n + 1, n + 1)) == UpTo(n);
  }

  lemma {:induction false} OneMoreIsAdmitted(rs: seq<Request>, n: nat)
    requires AllAdmitted(Run(rs), n) && n < LIMIT
    ensures AllAdmitted(Run(rs + [Request(n + 1, n + 1)]), n + 1)
  {
    NextIsAdmitted(Run(rs), n);
    RunThen(rs, Request(n + 1, n + 1));
  }

  lemma {:induction false} FirstAreAdmitted(n: nat) returns (rs: seq<Request>)
    requires n <= LIMIT
    ensures |rs| == n && (forall i: nat :: i < n ==> rs[i] == Request(i + 1, i + 1)) && AllAdmitted(Run(rs), n)
  {
    if n == 0 {
      rs := [];
    } else {
      var before := FirstAreAdmitted(n - 1);
      OneMoreIsAdmitted(before, n - 1);
      rs := before + [Request(n, n)];
    }
  }

  lemma FirstTimesAre()
    ensures FirstTimes(5) == [1, 2, 3, 4, 5]
  {
    assert FirstTimes(3) == [1, 2, 3];
  }

  // How many are recent shows at one place of the log.
  predicate SizeShows(log: seq<int>, now: int, n: nat) {
    |Recent(log, now)| >= n <==> n <= |log| && (n == 0 || log[|log| - n] > now - MINUTE)
  }

  lemma {:induction false} RecentSize(log: seq<int>, now: int, n: nat)
    requires Increasing(log)
    ensures SizeShows(log, now, n)
  {
    if log == [] {
      assert Recent(log, now) == {};
    } else if n > 0 {
      RecentOfLast(log, now);
      if log[|log| - 1] > now - MINUTE {
        FrontIncreasing(log);
        RecentSize(log[..|log| - 1], now, n - 1);
        SizeStep(log, now, n);
      } else {
        NoneRecent(log, now, n);
      }
    }
  }

  lemma NoneRecent(log: seq<int>, now: int, n: nat)
    requires Increasing(log) && log != [] && log[|log| - 1] <= now - MINUTE && 0 < n && Recent(log, now) == {}
    ensures SizeShows(log, now, n)
  {
  }

  lemma SizeStep(log: seq<int>, now: int, n: nat)
    requires log != [] && 0 < n && log[|log| - 1] > now - MINUTE
    requires var front, x := log[..|log| - 1], log[|log| - 1];
             && Recent(log, now) == Recent(front, now) + {x} && x !in Recent(front, now)
             && SizeShows(front, now, n - 1)
    ensures SizeShows(log, now, n)
  {
  }

  lemma FrontIncreasing(log: seq<int>)
    requires Increasing(log) && log != []
    ensures Increasing(log[..|log| - 1])
  {
  }

  // The last admission decides whether any is recent, and counts if it is.
  lemma RecentOfLast(log: seq<int>, now: int)
    requires Increasing(log) && log != []
    ensures var front, x := log[..|log| - 1], log[|log| - 1];
            if x > now - MINUTE then Recent(log, now) == Recent(front, now) + {x} && x !in Recent(front, now)
            else Recent(log, now) == {}
  {
    var front, x := log[..|log| - 1], log[|log| - 1];
    assert log == front + [x];
    forall y <- log ensures y <= x {
    }
  }

  // If no two admissions were simultaneous: if and only if the fifth last one is
  // less than a minute old.
  lemma {:induction false} RefusedIffFifthLastIsRecent(rs: seq<Request>, r: Request)
    requires Nonnegative(rs) && FindsSetAlive(Run(rs), r) && AllRetained(rs, r) && Increasing(Admissions(rs))
    ensures var log := Admissions(rs);
            !Admitted(rs, r) <==> |log| >= LIMIT && log[|log| - LIMIT] > r.now - MINUTE
  {
    RefusedIffFiveTimesInTheLastMinute(rs, r);
    RecentSize(Admissions(rs), r.now, LIMIT);
  }

  // Any number of requests bearing one and the same time are all admitted.
  lemma {:induction false} SameTimeIsNeverRefused(n: nat, t: nat)
    ensures var (w, log) := Run(seq(n, _ => Request(t, t)));
            |log| == n && w.zset == (if n == 0 then {} else {t}) && (n > 0 ==> w.expiresAt == t + MINUTE)
  {
    var rs := seq(n, _ => Request(t, t));
    if n > 0 {
      SameTimeIsNeverRefused(n - 1, t);
      assert rs[..n - 1] == seq(n - 1, _ => Request(t, t));
      assert Kept(Run(rs[..n - 1]).0, Request(t, t)) == Run(rs[..n - 1]).0.zset;
    }
  }

  // --- How many in a minute ----------------------------------------------------

  // The admission times of the minute after `from`.
  function Minute(log: seq<int>, from: int): set<int> {
    set x | x in log && from < x <= from + MINUTE
  }

  lemma MinuteStep(log: seq<int>, from: int, now: int)
    ensures |Minute(log + [now], from)| <= if from < now <= from + MINUTE then |Recent(log, now)| + 1
            else |Minute(log, from)|
  {
    if from < now <= from + MINUTE {
      assert forall x :: x in Minute(log + [now], from) ==> x in Recent(log, now) + {now};
      SubsetSize(Minute(log + [now], from), Recent(log, now) + {now});
    } else {
      SubsetSize(Minute(log + [now], from), Minute(log, from));
    }
  }

  // No minute, wherever it starts, holds admissions at more than five times.
  lemma {:induction false} AtMostFiveInAnyMinute(rs: seq<Request>, from: int)
    requires Nonnegative(rs) && Timely(rs) && NeverOvertaken(rs)
    ensures |Minute(Admissions(rs), from)| <= LIMIT
  {
    if rs == [] {
      assert Minute(Admissions(rs), from) == {};
    } else {
      var before, r := rs[..|rs| - 1], rs[|rs| - 1];
      AtMostFiveInAnyMinute(before, from);
      TimelyRetainsUnlessOvertaken(before, r);
      RefusedIffFiveTimesInTheLastMinute(before, r);
      if Admitted(before, r) {
        MinuteStep(Admissions(before), from, r.now);
      }
    }
  }

  // --- Unsteady latency --------------------------------------------------------

  function Latency(r: Request): int {
    r.serverNow - r.now
  }

  // Callers' times increase strictly, and no request takes longer to arrive than
  // an earlier one did by more than `band`.
  ghost predicate WithinBand(rs: seq<Request>, band: int) {
    && (forall r <- rs :: 0 <= r.now)
    && (forall i, j :: 0 <= i < j < |rs| ==>
          rs[i].now < rs[j].now && Latency(rs[j]) <= Latency(rs[i]) + band)
  }

  // The set expires a minute after one of the requests, the last one admitted.
  ghost predicate ExpiresAfter(rs: seq<Request>, run: (Window, seq<int>)) {
    run.1 != [] ==>
      exists i :: 0 <= i < |rs| && rs[i].now == run.1[|run.1| - 1] && rs[i].serverNow + MINUTE == run.0.expiresAt
  }

  // The set was last started anew by admission e, after a gap of almost a minute.
  ghost predicate StartedAt(run: (Window, seq<int>), last: int, band: int, e: int) {
    && 0 <= e <= |run.1| && (e == 0 || (e < |run.1| && run.1[e] - run.1[e - 1] > MINUTE - band))
    && run.0.zset == Recent(run.1[e..], last)
  }

  ghost predicate BandInv(rs: seq<Request>, run: (Window, seq<int>), last: int, band: int) {
    && Increasing(run.1) && (forall x <- run.1 :: 0 <= x <= last)
    && ExpiresAfter(rs, run)
    && exists e :: StartedAt(run, last, band, e)
  }

  // Six admissions in a row take at least a minute less the band.
  predicate Spaced(log: seq<int>, band: int) {
    forall k :: 0 <= k < |log| - LIMIT ==> log[k + LIMIT] - log[k] >= MINUTE - band
  }

  // An expired set was started almost a minute ago.
  lemma ExpiredAfterGap(rs: seq<Request>, r: Request, run: (Window, seq<int>), band: int)
    requires WithinBand(rs + [r], band) && ExpiresAfter(rs, run) && run.1 != [] && r.serverNow > run.0.expiresAt
    ensures r.now - run.1[|run.1| - 1] > MINUTE - band
  {
    var i :| 0 <= i < |rs| && rs[i].now == run.1[|run.1| - 1] && rs[i].serverNow + MINUTE == run.0.expiresAt;
    assert (rs + [r])[i] == rs[i] && (rs + [r])[|rs|] == r;
  }

  // What a request keeps of a set that has not expired.
  lemma KeptSinceStart(run: (Window, seq<int>), last: int, band: int, e: int, r: Request)
    requires StartedAt(run, last, band, e) && last < r.now && r.serverNow <= run.0.expiresAt
    requires forall x <- run.1 :: 0 <= x
    ensures Kept(run.0, r) == Recent(run.1[e..], r.now)
  {
    forall x <- run.1[e..] ensures 0 <= x {
      assert x in run.1;
    }
    PrunedIsRecentIff(run.0, run.1[e..], last, r);
  }

  lemma IncreasingStep(log: seq<int>, last: int, now: int)
    requires Increasing(log) && last < now && forall x <- log :: x <= last
    ensures Increasing(log + [now])
  {
    forall j, k | 0 <= j < k <= |log| ensures (log + [now])[j] < (log + [now])[k] {
      assert log[j] in log;
    }
  }

  lemma TailIncreasing(log: seq<int>, e: nat)
    requires Increasing(log) && e <= |log|
    ensures Increasing(log[e..])
  {
  }

  // Fewer than five recent ones since a start after a gap: either the fifth last
  // is not recent, or the gap lies between.
  lemma FewSinceStart(log: seq<int>, e: nat, now: int, band: int)
    requires Increasing(log) && e <= |log| && 0 <= band && |log| >= LIMIT
    requires e == 0 || (e < |log| && log[e] - log[e - 1] > MINUTE - band && log[e] <= now)
    requires |Recent(log[e..], now)| < LIMIT
    ensures now - log[|log| - LIMIT] >= MINUTE - band
  {
    var tail := log[e..];
    TailIncreasing(log, e);
    RecentSize(tail, now, LIMIT);
    if |tail| >= LIMIT {
      assert tail[|tail| - LIMIT] == log[|log| - LIMIT];
    } else {
      assert |log| - LIMIT <= e - 1;
    }
  }

  // An admission is far enough from the one five before it.
  lemma AdmissionIsSpaced(rs: seq<Request>, r: Request, run: (Window, seq<int>), last: int, band: int)
    requires WithinBand(rs + [r], band) && 0 <= band && BandInv(rs, run, last, band) && last < r.now
    requires Check(run.0, r).0 && |run.1| >= LIMIT
    ensures r.now - run.1[|run.1| - LIMIT] >= MINUTE - band
  {
    if r.serverNow > run.0.expiresAt {
      ExpiredAfterGap(rs, r, run, band);
    } else {
      var e :| StartedAt(run, last, band, e);
      KeptSinceStart(run, last, band, e, r);
      assert e < |run.1| ==> run.1[e] in run.1;
      FewSinceStart(run.1, e, r.now, band);
    }
  }

  lemma StartStep(rs: seq<Request>, r: Request, run: (Window, seq<int>), last: int, band: int) returns (e: int)
    requires WithinBand(rs + [r], band) && ExpiresAfter(rs, run) && (forall x <- run.1 :: 0 <= x)
    requires (exists f :: StartedAt(run, last, band, f)) && last < r.now
    ensures StartedAt(RunOn(run, r), r.now, band, e)
  {
    var (w, log) := RunOn(run, r);
    if r.serverNow > run.0.expiresAt {
      assert Kept(run.0, r) == {};
      if run.1 != [] {
        ExpiredAfterGap(rs, r, run, band);
      }
      e := |run.1|;
      assert log[e..] == [r.now];
    } else {
      e :| StartedAt(run, last, band, e);
      KeptSinceStart(run, last, band, e, r);
      if Check(run.0, r).0 {
        assert log[e..] == run.1[e..] + [r.now];
        RecentStep(run.1[e..], r.now);
      }
    }
  }

  lemma ExpiryStep(rs: seq<Request>, r: Request, run: (Window, seq<int>))
    requires ExpiresAfter(rs, run)
    ensures ExpiresAfter(rs + [r], RunOn(run, r))
  {
    var all := rs + [r];
    if Check(run.0, r).0 {
      assert all[|rs|] == r;
    } else if run.1 != [] {
      var i :| 0 <= i < |rs| && rs[i].now == run.1[|run.1| - 1] && rs[i].serverNow + MINUTE == run.0.expiresAt;
      assert all[i] == rs[i];
      assert RunOn(run, r).1 == run.1 && RunOn(run, r).0.expiresAt == run.0.expiresAt;
    }
  }

  lemma SpacedStep(rs: seq<Request>, r: Request, run: (Window, seq<int>), last: int, band: int)
    requires WithinBand(rs + [r], band) && 0 <= band && BandInv(rs, run, last, band) && last < r.now
    requires Spaced(run.1, band)
    ensures Spaced(RunOn(run, r).1, band)
  {
    if Check(run.0, r).0 && |run.1| >= LIMIT {
      AdmissionIsSpaced(rs, r, run, last, band);
    }
    SpacedRun(run, r, band);
  }

  lemma SpacedRun(run: (Window, seq<int>), r: Request, band: int)
    requires Spaced(run.1, band)
    requires Check(run.0, r).0 && |run.1| >= LIMIT ==> r.now - run.1[|run.1| - LIMIT] >= MINUTE - band
    ensures Spaced(RunOn(run, r).1, band)
  {
    if Check(run.0, r).0 {
      SpacedAppend(run.1, r.now, band);
    }
  }

  lemma SpacedAppend(log: seq<int>, now: int, band: int)
    requires Spaced(log, band) && (|log| >= LIMIT ==> now - log[|log| - LIMIT] >= MINUTE - band)
    ensures Spaced(log + [now], band)
  {
  }

  lemma BandStep(rs: seq<Request>, r: Request, run: (Window, seq<int>), last: int, band: int)
    requires WithinBand(rs + [r], band) && BandInv(rs, run, last, band) && last < r.now && 0 <= r.now
    ensures BandInv(rs + [r], RunOn(run, r), r.now, band)
  {
    var e := StartStep(rs, r, run, last, band);
    ExpiryStep(rs, r, run);
    LogInRange(run, last, r);
  }

  lemma LogInRange(run: (Window, seq<int>), last: int, r: Request)
    requires Increasing(run.1) && last < r.now && 0 <= r.now && forall x <- run.1 :: 0 <= x <= last
    ensures Increasing(RunOn(run, r).1) && forall x <- RunOn(run, r).1 :: 0 <= x <= r.now
  {
    if Check(run.0, r).0 {
      IncreasingStep(run.1, last, r.now);
    }
  }

  lemma BandPrefix(rs: seq<Request>, band: int)
    requires WithinBand(rs, band) && rs != []
    ensures WithinBand(rs[..|rs| - 1], band) && InOrder(rs)
    ensures |rs| > 1 ==> LastTime(rs[..|rs| - 1]) < rs[|rs| - 1].now
  {
  }

  function TimeBefore(rs: seq<Request>): int {
    if rs == [] then -1 else LastTime(rs)
  }

  lemma {:induction false} BandOneMore(before: seq<Request>, r: Request, band: int)
    requires WithinBand(before + [r], band) && 0 <= band && TimeBefore(before) < r.now && 0 <= r.now
    requires BandInv(before, Run(before), TimeBefore(before), band) && Spaced(Admissions(before), band)
    ensures BandInv(before + [r], Run(before + [r]), r.now, band) && Spaced(Admissions(before + [r]), band)
  {
    assert (before + [r])[..|before + [r]| - 1] == before;
    BandStep(before, r, Run(before), TimeBefore(before), band);
    SpacedStep(before, r, Run(before), TimeBefore(before), band);
  }

  lemma {:induction false} BandAlways(rs: seq<Request>, band: int)
    requires WithinBand(rs, band) && 0 <= band
    ensures BandInv(rs, Run(rs), TimeBefore(rs), band) && Spaced(Admissions(rs), band)
  {
    if rs == [] {
      assert StartedAt(Run(rs), -1, band, 0);
    } else {
      assert rs == rs[..|rs| - 1] + [rs[|rs| - 1]];
      BandPrefix(rs, band);
      BandAlways(rs[..|rs| - 1], band);
      BandOneMore(rs[..|rs| - 1], rs[|rs| - 1], band);
    }
  }

  // Runs in which latency never rises are timely, so that all of the above
  // holds of them.
  lemma {:induction false} SteadyRunsAreTimely(rs: seq<Request>)
    requires WithinBand(rs, 0)
    ensures InOrder(rs) && Timely(rs)
  {
    if rs != [] {
      var before, r := rs[..|rs| - 1], rs[|rs| - 1];
      assert rs == before + [r];
      BandPrefix(rs, 0);
      SteadyRunsAreTimely(before);
      BandAlways(before, 0);
      FindsAliveWhenSteady(before, r, Run(before), TimeBefore(before));
    }
  }

  lemma FindsAliveWhenSteady(before: seq<Request>, r: Request, run: (Window, seq<int>), last: int)
    requires WithinBand(before + [r], 0) && BandInv(before, run, last, 0)
    ensures FindsSetAlive(run, r)
  {
    if run.1 != [] && r.serverNow > run.0.expiresAt {
      ExpiredAfterGap(before, r, run, 0);
      NothingRecent(run.1, r.now);
    }
  }

  lemma NothingRecent(log: seq<int>, now: int)
    requires Increasing(log) && log != [] && now - log[|log| - 1] > MINUTE
    ensures Recent(log, now) == {}
  {
    assert forall x <- log :: x <= log[|log| - 1];
  }

  // However unsteady the latency is within a band, any six admissions in a row
  // take at least a minute less the band; with latency that never rises, a minute.
  lemma SixAdmissionsTakeAMinuteLessTheBand(rs: seq<Request>, band: int, k: nat)
    requires WithinBand(rs, band) && 0 <= band && k + LIMIT < |Admissions(rs)|
    ensures Admissions(rs)[k + LIMIT] - Admissions(rs)[k] >= MINUTE - band
  {
    BandAlways(rs, band);
  }

  // --- In any order ------------------------------------------------------------

  // Scripts run in the order of the server's clock, and no request takes longer
  // to arrive than an earlier one did by more than `band`. Callers' times may
  // coincide or go back.
  ghost predicate Settled(rs: seq<Request>, band: int) {
    forall i, j :: 0 <= i < j < |rs| ==>
      rs[i].serverNow <= rs[j].serverNow && Latency(rs[j]) <= Latency(rs[i]) + band
  }

  // Nobody before the request came after it or was slower than the band allows.
  ghost predicate Precede(rs: seq<Request>, r: Request, band: int) {
    forall q <- rs :: q.serverNow <= r.serverNow && Latency(r) <= Latency(q) + band
  }

  lemma {:induction false} AdmissionHasRequest(rs: seq<Request>, x: int) returns (q: Request)
    requires x in Admissions(rs)
    ensures q in rs && q.now == x
  {
    var before, last := rs[..|rs| - 1], rs[|rs| - 1];
    if x in Admissions(before) {
      q := AdmissionHasRequest(before, x);
    } else {
      q := last;
    }
  }

  // An admission is still stored, and the set alive, when a request comes with a
  // time less than a minute, less the band, later.
  lemma {:induction false} StillStored(rs: seq<Request>, r: Request, band: int, x: int)
    requires Settled(rs, band) && Precede(rs, r, band) && x in Admissions(rs) && r.now - MINUTE + band < x
    ensures x in Run(rs).0.zset && r.serverNow < Run(rs).0.expiresAt
  {
    var before, last := rs[..|rs| - 1], rs[|rs| - 1];
    assert Latency(r) <= Latency(last) + band && last.serverNow <= r.serverNow;
    if x in Admissions(before) {
      var q := AdmissionHasRequest(before, x);
      assert Latency(r) <= Latency(q) + band;
      assert q.serverNow <= last.serverNow;
      StillStored(before, r, band, x);
    }
  }

  // The admission times after `from` and no later than `length` after it.
  function Span(log: seq<int>, from: int, length: int): set<int> {
    set x | x in log && from < x <= from + length
  }

  lemma SpanStep(rs: seq<Request>, r: Request, band: int, from: int)
    requires Settled(rs, band) && Precede(rs, r, band) && 0 <= band && Admitted(rs, r)
    requires |Span(Admissions(rs), from, MINUTE - band)| <= LIMIT
    ensures |Span(Admissions(rs) + [r.now], from, MINUTE - band)| <= LIMIT
  {
    var kept, log := Kept(Run(rs).0, r), Admissions(rs);
    var now, span := r.now, Span(log + [r.now], from, MINUTE - band);
    if from < now <= from + MINUTE - band {
      forall x <- span ensures x in kept + {now} {
        if x != now {
          StillStored(rs, r, band, x);
        }
      }
      SubsetSize(span, kept + {now});
    } else {
      SubsetSize(span, Span(log, from, MINUTE - band));
    }
  }

  // No stretch of a minute less the band holds admissions at more than five
  // times, in whatever order the requests come.
  lemma {:induction false} AtMostFiveInAMinuteLessTheBand(rs: seq<Request>, band: int, from: int)
    requires Settled(rs, band) && 0 <= band
    ensures |Span(Admissions(rs), from, MINUTE - band)| <= LIMIT
  {
    if rs == [] {
      assert Span(Admissions(rs), from, MINUTE - band) == {};
    } else {
      var before, r := rs[..|rs| - 1], rs[|rs| - 1];
      AtMostFiveInAMinuteLessTheBand(before, band, from);
      if Admitted(before, r) {
        SpanStep(before, r, band, from);
      }
    }
  }

  // If latency never rises, every request counts exactly the minute before it.
  lemma {:induction false} SettledRunsAreFaithful(rs: seq<Request>)
    requires Nonnegative(rs) && Settled(rs, 0)
    ensures Timely(rs) && NeverOvertaken(rs)
  {
    if rs != [] {
      var before, r := rs[..|rs| - 1], rs[|rs| - 1];
      SettledRunsAreFaithful(before);
      forall x <- Recent(Admissions(before), r.now)
        ensures Unpassed(before, x) && r.serverNow <= Run(before).0.expiresAt
      {
        StillStored(before, r, 0, x);
        StoredIffRetained(before, x);
        RetainedIffUnpassed(before, x);
      }
    }
  }
}
