// The rolling-hour quota. The store forgets expired reservations of every
// principal whenever one of them reserves; the reference is a log that never
// forgets.
module Quota {
  import opened DidKey
  import opened State

  const WINDOW: nat := 3600

  // One call of the rate limiter: who asks, the clock reading, the limit.
  datatype Attempt = Attempt(did: string, now: nat, limit: nat)

  predicate Allowed(requests: Requests, a: Attempt) {
    RequestCount(requests, a.did, a.now, WINDOW) < a.limit
  }

  function AfterAttempt(requests: Requests, a: Attempt): Requests {
    if Allowed(requests, a) then Reserved(requests, a.did, a.now, WINDOW) else requests
  }

  function Answers(requests: Requests, attempts: seq<Attempt>): (answers: seq<bool>)
    ensures |answers| == |attempts|
    decreases attempts
  {
    if attempts == [] then []
    else [Allowed(requests, attempts[0])] + Answers(AfterAttempt(requests, attempts[0]), attempts[1..])
  }

  // ---- The log that never forgets ----

  function Logged(log: Requests, did: string, now: nat): Requests {
    var history := History(log, did);
    log[did := history + [EffectiveNow(history, now)]]
  }

  function LogAfterAttempt(log: Requests, a: Attempt): Requests {
    if Allowed(log, a) then Logged(log, a.did, a.now) else log
  }

  function LogAnswers(log: Requests, attempts: seq<Attempt>): (answers: seq<bool>)
    ensures |answers| == |attempts|
    decreases attempts
  {
    if attempts == [] then []
    else [Allowed(log, attempts[0])] + LogAnswers(LogAfterAttempt(log, attempts[0]), attempts[1..])
  }

  function LogAfter(log: Requests, attempts: seq<Attempt>): Requests
    decreases attempts
  {
    if attempts == [] then log else LogAfter(LogAfterAttempt(log, attempts[0]), attempts[1..])
  }

  predicate Ordered(requests: Requests) {
    forall did :: did in requests ==> IsOrdered(requests[did])
  }

  predicate ClockNeverFalls(attempts: seq<Attempt>) {
    forall j, k :: 0 <= j < k < |attempts| ==> attempts[j].now <= attempts[k].now
  }

  predicate OnePrincipal(attempts: seq<Attempt>) {
    forall j, k :: 0 <= j < k < |attempts| ==> attempts[j].did == attempts[k].did
  }

  // ---- Filters of ordered histories ----

  lemma {:induction false} AfterAt(ts: seq<nat>, cutoff: int, k: nat)
    requires k <= |ts|
    requires forall i :: 0 <= i < k ==> ts[i] <= cutoff
    requires forall i :: k <= i < |ts| ==> ts[i] > cutoff
    ensures After(ts, cutoff) == ts[k..]
  {
    if ts != [] {
      AfterAt(ts[1..], cutoff, if k == 0 then 0 else k - 1);
    }
  }

  lemma AfterIsSuffix(ts: seq<nat>, cutoff: int) returns (k: nat)
    requires IsOrdered(ts)
    ensures k <= |ts| && After(ts, cutoff) == ts[k..]
    ensures forall i :: 0 <= i < k ==> ts[i] <= cutoff
    ensures forall i :: k <= i < |ts| ==> ts[i] > cutoff
  {
    k := 0;
    while k < |ts| && ts[k] <= cutoff
      invariant k <= |ts|
      invariant forall i :: 0 <= i < k ==> ts[i] <= cutoff
    {
      k := k + 1;
    }
    AfterAt(ts, cutoff, k);
  }

  lemma AfterTwice(ts: seq<nat>, c1: int, c2: int)
    requires IsOrdered(ts)
    ensures IsOrdered(After(ts, c1))
    ensures After(After(ts, c1), c2) == After(ts, Max(c1, c2))
  {
    var k1 := AfterIsSuffix(ts, c1);
    var k := AfterIsSuffix(ts, Max(c1, c2));
    assert k1 <= k;
    AfterAt(ts[k1..], c2, k - k1);
    assert ts[k1..][k - k1..] == ts[k..];
  }

  lemma AfterAppend(ts: seq<nat>, t: nat, cutoff: int)
    ensures After(ts + [t], cutoff) == After(ts, cutoff) + (if t > cutoff then [t] else [])
  {
    if ts != [] {
      AfterAppend(ts[1..], t, cutoff);
      assert (ts + [t])[1..] == ts[1..] + [t];
    }
  }

  lemma OrderedAppend(ts: seq<nat>, t: nat)
    requires IsOrdered(ts) && (ts != [] ==> ts[|ts| - 1] <= t)
    ensures IsOrdered(ts + [t])
  {
  }

  lemma OrderedAfter(ts: seq<nat>, cutoff: int)
    requires IsOrdered(ts)
    ensures IsOrdered(After(ts, cutoff))
    ensures After(ts, cutoff) != [] ==> After(ts, cutoff)[|After(ts, cutoff)| - 1] == ts[|ts| - 1]
    ensures ts != [] && ts[|ts| - 1] > cutoff ==> After(ts, cutoff) != []
  {
    var k := AfterIsSuffix(ts, cutoff);
  }

  // ---- Agreement of a pruned history with the full one ----

  // From clock reading `now` on, the two histories give the same counts.
  predicate AgreeFrom(pruned: seq<nat>, full: seq<nat>, now: nat) {
    && IsOrdered(pruned) && IsOrdered(full)
    && EffectiveNow(pruned, now) == EffectiveNow(full, now)
    && After(pruned, EffectiveNow(full, now) - WINDOW) == After(full, EffectiveNow(full, now) - WINDOW)
  }

  lemma AgreeLater(pruned: seq<nat>, full: seq<nat>, now: nat, later: nat)
    requires AgreeFrom(pruned, full, now) && now <= later
    ensures AgreeFrom(pruned, full, later)
  {
    var c, c' := EffectiveNow(full, now) - WINDOW, EffectiveNow(full, later) - WINDOW;
    AfterTwice(pruned, c, c');
    AfterTwice(full, c, c');
  }

  // What a reservation makes of the principal's own stored history.
  function OwnReserved(history: seq<nat>, now: nat): seq<nat> {
    var kept := After(history, now - WINDOW);
    var effective := EffectiveNow(kept, now);
    After(kept, effective - WINDOW) + [effective]
  }

  lemma OwnReservedIs(history: seq<nat>, now: nat)
    requires IsOrdered(history)
    ensures EffectiveNow(After(history, now - WINDOW), now) == EffectiveNow(history, now)
    ensures OwnReserved(history, now)
            == After(history, EffectiveNow(history, now) - WINDOW) + [EffectiveNow(history, now)]
  {
    KeptEffective(history, now);
    AfterTwice(history, now - WINDOW, EffectiveNow(history, now) - WINDOW);
  }

  // The principal that reserves agrees from then on under any clock.
  lemma AgreeAfterOwnReservation(pruned: seq<nat>, full: seq<nat>, now: nat)
    requires AgreeFrom(pruned, full, now)
    ensures AgreeFrom(OwnReserved(pruned, now), full + [EffectiveNow(full, now)], 0)
  {
    OwnReservedIs(pruned, now);
    AgreeAppended(After(pruned, EffectiveNow(full, now) - WINDOW), full, EffectiveNow(full, now));
  }

  lemma AgreeAppended(recent: seq<nat>, full: seq<nat>, t: nat)
    requires IsOrdered(full) && recent == After(full, t - WINDOW)
    requires full != [] ==> full[|full| - 1] <= t
    ensures AgreeFrom(recent + [t], full + [t], 0)
  {
    AppendBoth(recent, full, t, t - WINDOW);
    LastIsEffective(recent, t);
    LastIsEffective(full, t);
    AgreeAt(recent + [t], full + [t], 0, t);
  }

  lemma AgreeAt(pruned: seq<nat>, full: seq<nat>, now: nat, effective: nat)
    requires IsOrdered(pruned) && IsOrdered(full)
    requires EffectiveNow(pruned, now) == effective == EffectiveNow(full, now)
    requires After(pruned, effective - WINDOW) == After(full, effective - WINDOW)
    ensures AgreeFrom(pruned, full, now)
  {
  }

  lemma LastIsEffective(history: seq<nat>, t: nat)
    ensures EffectiveNow(history + [t], 0) == t
  {
  }

  lemma AppendBoth(recent: seq<nat>, full: seq<nat>, t: nat, cutoff: int)
    requires IsOrdered(full) && recent == After(full, cutoff) && cutoff < t
    requires full != [] ==> full[|full| - 1] <= t
    ensures IsOrdered(recent + [t]) && IsOrdered(full + [t])
    ensures After(recent + [t], cutoff) == After(full + [t], cutoff)
  {
    OrderedAfter(full, cutoff);
    OrderedAppend(recent, t);
    OrderedAppend(full, t);
    AfterTwice(full, cutoff, cutoff);
    AfterAppend(recent, t, cutoff);
    AfterAppend(full, t, cutoff);
  }

  lemma KeptEffective(history: seq<nat>, now: nat)
    requires IsOrdered(history)
    ensures EffectiveNow(After(history, now - WINDOW), now) == EffectiveNow(history, now)
  {
    OrderedAfter(history, now - WINDOW);
  }

  // Every other principal keeps agreeing under a clock that does not fall.
  lemma AgreeAfterOtherReservation(pruned: seq<nat>, full: seq<nat>, now: nat)
    requires AgreeFrom(pruned, full, now)
    ensures AgreeFrom(After(pruned, now - WINDOW), full, now)
  {
    KeptEffective(pruned, now);
    AfterTwice(pruned, now - WINDOW, EffectiveNow(full, now) - WINDOW);
  }

  lemma AgreeCounts(pruned: Requests, full: Requests, did: string, now: nat)
    requires AgreeFrom(History(pruned, did), History(full, did), now)
    ensures RequestCount(pruned, did, now, WINDOW) == RequestCount(full, did, now, WINDOW)
  {
  }

  // The store agrees with the log, for `did` under any clock and for everyone
  // else from clock reading `clock` on.
  ghost predicate StoreAgrees(requests: Requests, log: Requests, clock: nat) {
    forall did {:trigger History(requests, did)} :: AgreeFrom(History(requests, did), History(log, did), clock)
  }

  lemma ReservationKeepsAgreement(requests: Requests, log: Requests, did: string, now: nat)
    requires StoreAgrees(requests, log, now)
    ensures StoreAgrees(Reserved(requests, did, now, WINDOW), Logged(log, did, now), now)
    ensures AgreeFrom(History(Reserved(requests, did, now, WINDOW), did), History(Logged(log, did, now), did), 0)
  {
    var requests', log' := Reserved(requests, did, now, WINDOW), Logged(log, did, now);
    OwnHistoryAfterReservation(requests, did, now);
    AgreeAfterOwnReservation(History(requests, did), History(log, did), now);
    AgreeLater(History(requests', did), History(log', did), 0, now);
    forall other {:trigger History(requests', other)} | other != did
      ensures AgreeFrom(History(requests', other), History(log', other), now)
    {
      assert History(requests', other) == After(History(requests, other), now - WINDOW);
      AgreeAfterOtherReservation(History(requests, other), History(log, other), now);
    }
  }

  lemma OwnHistoryAfterReservation(requests: Requests, did: string, now: nat)
    ensures History(Reserved(requests, did, now, WINDOW), did) == OwnReserved(History(requests, did), now)
  {
  }

  lemma SameHistoriesAgree(requests: Requests, clock: nat)
    requires Ordered(requests)
    ensures StoreAgrees(requests, requests, clock)
  {
  }

  // ---- Pruning refines the full history ----

  // Every answer of the pruned store is the answer of the log that never
  // forgets: for any clock when one principal asks, and for any number of
  // principals when the clock does not fall.
  lemma PruningRefinesHistory(requests: Requests, attempts: seq<Attempt>)
    requires Ordered(requests)
    requires ClockNeverFalls(attempts) || OnePrincipal(attempts)
    ensures Answers(requests, attempts) == LogAnswers(requests, attempts)
  {
    SameHistoriesAgree(requests, 0);
    if ClockNeverFalls(attempts) {
      FallingClockExcluded(requests, requests, attempts, 0);
    } else {
      OnePrincipalAnyClock(requests, requests, attempts);
    }
  }

  lemma {:induction false} FallingClockExcluded(requests: Requests, log: Requests, attempts: seq<Attempt>, clock: nat)
    requires StoreAgrees(requests, log, clock) && ClockNeverFalls(attempts)
    requires attempts != [] ==> clock <= attempts[0].now
    ensures Answers(requests, attempts) == LogAnswers(log, attempts)
    decreases attempts
  {
    if attempts != [] {
      var a := attempts[0];
      AttemptKeepsAgreement(requests, log, a, clock);
      FallingClockExcluded(AfterAttempt(requests, a), LogAfterAttempt(log, a), attempts[1..], a.now);
    }
  }

  // One call under a clock that has not fallen: same answer, still agreeing.
  lemma AttemptKeepsAgreement(requests: Requests, log: Requests, a: Attempt, clock: nat)
    requires StoreAgrees(requests, log, clock) && clock <= a.now
    ensures Allowed(requests, a) == Allowed(log, a)
    ensures StoreAgrees(requests, log, a.now)
    ensures StoreAgrees(AfterAttempt(requests, a), LogAfterAttempt(log, a), a.now)
  {
    forall did {:trigger History(requests, did)}
      ensures AgreeFrom(History(requests, did), History(log, did), a.now)
    {
      AgreeLater(History(requests, did), History(log, did), clock, a.now);
    }
    AgreeCounts(requests, log, a.did, a.now);
    ReservationKeepsAgreement(requests, log, a.did, a.now);
  }

  lemma {:induction false} OnePrincipalAnyClock(requests: Requests, log: Requests, attempts: seq<Attempt>)
    requires OnePrincipal(attempts)
    requires attempts != [] ==> AgreeFrom(History(requests, attempts[0].did), History(log, attempts[0].did), 0)
    ensures Answers(requests, attempts) == LogAnswers(log, attempts)
    decreases attempts
  {
    if attempts != [] {
      var a := attempts[0];
      OwnAttemptKeepsAgreement(requests, log, a);
      assert attempts[1..] != [] ==> attempts[1..][0].did == a.did;
      OnePrincipalAnyClock(AfterAttempt(requests, a), LogAfterAttempt(log, a), attempts[1..]);
    }
  }

  lemma OwnAttemptKeepsAgreement(requests: Requests, log: Requests, a: Attempt)
    requires AgreeFrom(History(requests, a.did), History(log, a.did), 0)
    ensures Allowed(requests, a) == Allowed(log, a)
    ensures AgreeFrom(History(AfterAttempt(requests, a), a.did), History(LogAfterAttempt(log, a), a.did), 0)
  {
    AgreeLater(History(requests, a.did), History(log, a.did), 0, a.now);
    AgreeCounts(requests, log, a.did, a.now);
    OwnHistoryAfterReservation(requests, a.did, a.now);
    AgreeAfterOwnReservation(History(requests, a.did), History(log, a.did), a.now);
  }

  // ---- When another principal's reservation gives capacity back ----

  // The cutoff removes no entry within a window of the newest one.
  predicate CutsNothingRecent(history: seq<nat>, cutoff: int) {
    forall i :: 0 <= i < |history| && history[i] > history[|history| - 1] - WINDOW ==> history[i] > cutoff
  }

  // The documentation says a clock adjustment cannot restore capacity early.
  // With several principals that holds exactly when the reservation of one
  // cuts off no recent entry of the others.
  lemma OtherReservationKeepsCountIff(requests: Requests, did: string, now: nat, other: string)
    requires Ordered(requests) && other != did
    ensures (forall later: nat {:trigger RequestCount(requests, other, later, WINDOW)} ::
               RequestCount(Reserved(requests, did, now, WINDOW), other, later, WINDOW)
               == RequestCount(requests, other, later, WINDOW))
            <==> CutsNothingRecent(History(requests, other), now - WINDOW)
  {
    var history, cutoff := History(requests, other), now - WINDOW;
    var requests' := Reserved(requests, did, now, WINDOW);
    assert History(requests', other) == After(history, cutoff);
    if CutsNothingRecent(history, cutoff) {
      forall later: nat {:trigger RequestCount(requests, other, later, WINDOW)}
        ensures RequestCount(requests', other, later, WINDOW) == RequestCount(requests, other, later, WINDOW)
      {
        CutBelowRecent(history, cutoff, later);
      }
    } else {
      CutIntoRecent(history, cutoff);
      assert RequestCount(requests', other, 0, WINDOW) < RequestCount(requests, other, 0, WINDOW);
    }
  }

  function CountAt(history: seq<nat>, now: nat): nat {
    |After(history, EffectiveNow(history, now) - WINDOW)|
  }

  lemma CutBelowRecent(history: seq<nat>, cutoff: int, later: nat)
    requires IsOrdered(history) && CutsNothingRecent(history, cutoff)
    ensures CountAt(After(history, cutoff), later) == CountAt(history, later)
  {
    if history != [] {
      OrderedAfter(history, cutoff);
      var c := EffectiveNow(history, later) - WINDOW;
      assert EffectiveNow(After(history, cutoff), later) - WINDOW == c;
      AfterTwice(history, cutoff, c);
      SameAfter(history, cutoff, c);
    }
  }

  lemma SameAfter(history: seq<nat>, cutoff: int, c: int)
    requires IsOrdered(history) && CutsNothingRecent(history, cutoff)
    requires history != [] && c >= history[|history| - 1] - WINDOW
    ensures After(history, Max(cutoff, c)) == After(history, c)
  {
    var n := AfterIsSuffix(history, cutoff);
    if cutoff > c {
      AfterAt(history, c, n);
    }
  }

  lemma CutIntoRecent(history: seq<nat>, cutoff: int)
    requires IsOrdered(history) && !CutsNothingRecent(history, cutoff)
    ensures CountAt(After(history, cutoff), 0) < CountAt(history, 0)
  {
    var c := history[|history| - 1] - WINDOW;
    var i :| 0 <= i < |history| && c < history[i] <= cutoff;
    FewerAfter(history, c, cutoff, i);
    assert EffectiveNow(history, 0) == history[|history| - 1];
  }

  lemma FewerAfter(ts: seq<nat>, c: int, cutoff: int, i: nat)
    requires IsOrdered(ts) && i < |ts| && c < ts[i] <= cutoff
    ensures |After(ts, cutoff)| < |After(ts, c)|
  {
    var m := AfterIsSuffix(ts, c);
    var n := AfterIsSuffix(ts, cutoff);
  }

  // A reservation of `did` cuts no recent entry of any other principal.
  predicate CutsNoOther(requests: Requests, did: string, now: nat) {
    forall other :: other in requests && other != did ==> CutsNothingRecent(History(requests, other), now - WINDOW)
  }

  lemma CutBelowRecentAgrees(pruned: seq<nat>, full: seq<nat>, cutoff: int)
    requires AgreeFrom(pruned, full, 0) && CutsNothingRecent(pruned, cutoff)
    ensures AgreeFrom(After(pruned, cutoff), full, 0)
  {
    if pruned != [] {
      OrderedAfter(pruned, cutoff);
      var c := EffectiveNow(full, 0) - WINDOW;
      AfterTwice(pruned, cutoff, c);
      SameAfter(pruned, cutoff, c);
    }
  }

  lemma CutIntoRecentDisagrees(pruned: seq<nat>, full: seq<nat>, cutoff: int)
    requires AgreeFrom(pruned, full, 0) && !CutsNothingRecent(pruned, cutoff)
    ensures !AgreeFrom(After(pruned, cutoff), full, 0)
  {
    CutIntoRecent(pruned, cutoff);
    AgreeingCounts(pruned, full);
    AgreeingCounts(After(pruned, cutoff), full);
  }

  lemma AgreeingCounts(pruned: seq<nat>, full: seq<nat>)
    ensures AgreeFrom(pruned, full, 0) ==> CountAt(pruned, 0) == CountAt(full, 0)
  {
  }

  lemma OtherAgreesIff(requests: Requests, log: Requests, did: string, now: nat, other: string)
    requires AgreeFrom(History(requests, other), History(log, other), 0) && other != did
    ensures AgreeFrom(History(Reserved(requests, did, now, WINDOW), other), History(Logged(log, did, now), other), 0)
            <==> CutsNothingRecent(History(requests, other), now - WINDOW)
  {
    var history, full, cutoff := History(requests, other), History(log, other), now - WINDOW;
    assert History(Reserved(requests, did, now, WINDOW), other) == After(history, cutoff);
    if CutsNothingRecent(history, cutoff) {
      CutBelowRecentAgrees(history, full, cutoff);
    } else {
      CutIntoRecentDisagrees(history, full, cutoff);
    }
  }

  lemma OwnAgrees(requests: Requests, log: Requests, did: string, now: nat)
    requires AgreeFrom(History(requests, did), History(log, did), 0)
    ensures AgreeFrom(History(Reserved(requests, did, now, WINDOW), did), History(Logged(log, did, now), did), 0)
  {
    OwnHistoryAfterReservation(requests, did, now);
    AgreeLater(History(requests, did), History(log, did), 0, now);
    AgreeAfterOwnReservation(History(requests, did), History(log, did), now);
  }

  // A store that answers like the log under any clock still does after a
  // reservation exactly when that cuts no recent entry of another principal.
  lemma AgreementKeptIff(requests: Requests, log: Requests, did: string, now: nat)
    requires StoreAgrees(requests, log, 0)
    ensures StoreAgrees(Reserved(requests, did, now, WINDOW), Logged(log, did, now), 0)
            <==> CutsNoOther(requests, did, now)
  {
    var requests', log' := Reserved(requests, did, now, WINDOW), Logged(log, did, now);
    OwnAgrees(requests, log, did, now);
    forall other {:trigger History(requests, other)} {:trigger History(requests', other)} | other != did
      ensures AgreeFrom(History(requests', other), History(log', other), 0)
              <==> CutsNothingRecent(History(requests, other), now - WINDOW)
    {
      OtherAgreesIff(requests, log, did, now, other);
    }
  }

  predicate CutsNothing(requests: Requests, attempts: seq<Attempt>)
    decreases attempts
  {
    attempts != [] ==>
      && (Allowed(requests, attempts[0]) ==> CutsNoOther(requests, attempts[0].did, attempts[0].now))
      && CutsNothing(AfterAttempt(requests, attempts[0]), attempts[1..])
  }

  // So any number of principals under any clock are answered as by the log, as
  // long as each reservation passes that check.
  lemma GuardedRunRefinesHistory(requests: Requests, attempts: seq<Attempt>)
    requires Ordered(requests) && CutsNothing(requests, attempts)
    ensures Answers(requests, attempts) == LogAnswers(requests, attempts)
  {
    SameHistoriesAgree(requests, 0);
    GuardedRun(requests, requests, attempts);
  }

  lemma {:induction false} GuardedRun(requests: Requests, log: Requests, attempts: seq<Attempt>)
    requires StoreAgrees(requests, log, 0) && CutsNothing(requests, attempts)
    ensures Answers(requests, attempts) == LogAnswers(log, attempts)
    decreases attempts
  {
    if attempts != [] {
      var a := attempts[0];
      AttemptKeepsAgreement(requests, log, a, 0);
      AgreementKeptIff(requests, log, a.did, a.now);
      GuardedRun(AfterAttempt(requests, a), LogAfterAttempt(log, a), attempts[1..]);
    }
  }

  // Forward jump, another principal's reservation, then a rollback: the first
  // principal has used its one request and is allowed again at the same time,
  // which a log that never forgets denies.
  lemma CapacityRestoredByClockJump(p: string, q: string)
    requires IsDid(p) && IsDid(q) && p != q
    ensures var attempts := [Attempt(p, 10000, 1), Attempt(q, 20000, 1), Attempt(p, 10000, 1)];
            Answers(map[], attempts) == [true, true, true]
            && LogAnswers(map[], attempts) == [true, true, false]
  {
    var a, b := Attempt(p, 10000, 1), Attempt(q, 20000, 1);
    var one: Requests, other: Requests := map[p := [10000]], map[q := [20000]];
    FirstReservation(map[], p, 10000);
    FirstReservation(one, q, 20000);
    FirstReservation(other, p, 10000);
    ExpiredByJump(p);
    assert AfterAttempt(map[], a) == one && AfterAttempt(one, b) == other;
    assert LogAfterAttempt(map[], a) == one && LogAfterAttempt(one, b) == one[q := [20000]];
    assert History(one[q := [20000]], p) == [10000] && !Allowed(one[q := [20000]], a);
    ThreeAnswers(map[], a, b, a);
  }

  lemma FirstAnswer(requests: Requests, a: Attempt, rest: seq<Attempt>)
    ensures Answers(requests, [a] + rest) == [Allowed(requests, a)] + Answers(AfterAttempt(requests, a), rest)
    ensures LogAnswers(requests, [a] + rest)
            == [Allowed(requests, a)] + LogAnswers(LogAfterAttempt(requests, a), rest)
  {
    assert ([a] + rest)[1..] == rest;
  }

  lemma TwoAnswers(requests: Requests, b: Attempt, c: Attempt)
    ensures Answers(requests, [b, c]) == [Allowed(requests, b), Allowed(AfterAttempt(requests, b), c)]
    ensures LogAnswers(requests, [b, c]) == [Allowed(requests, b), Allowed(LogAfterAttempt(requests, b), c)]
  {
    assert [b, c] == [b] + [c] && [c] == [c] + [];
    FirstAnswer(requests, b, [c]);
    FirstAnswer(AfterAttempt(requests, b), c, []);
    FirstAnswer(LogAfterAttempt(requests, b), c, []);
  }

  lemma ThreeAnswers(requests: Requests, a: Attempt, b: Attempt, c: Attempt)
    ensures var once := AfterAttempt(requests, a);
            Answers(requests, [a, b, c])
            == [Allowed(requests, a)] + [Allowed(once, b), Allowed(AfterAttempt(once, b), c)]
    ensures var once := LogAfterAttempt(requests, a);
            LogAnswers(requests, [a, b, c])
            == [Allowed(requests, a)] + [Allowed(once, b), Allowed(LogAfterAttempt(once, b), c)]
  {
    var rest := [b, c];
    assert [a, b, c] == [a] + rest;
    FirstAnswer(requests, a, rest);
    TwoAnswers(AfterAttempt(requests, a), b, c);
    TwoAnswers(LogAfterAttempt(requests, a), b, c);
  }

  lemma ExpiredByJump(p: string)
    ensures After([10000], 10000 - WINDOW) == [10000]
    ensures After([10000], 20000 - WINDOW) == []
    ensures Pruned(map[p := [10000]], 20000 - WINDOW) == map[]
  {
    assert After([10000], 20000 - WINDOW) == [];
  }

  // Setting the clock forward gives capacity back even to a single principal,
  // and the log that never forgets agrees: it reads the same clock.
  lemma ForwardJumpRestores(p: string)
    requires IsDid(p)
    ensures var attempts := [Attempt(p, 10000, 1), Attempt(p, 20000, 1)];
            Answers(map[], attempts) == [true, true] && LogAnswers(map[], attempts) == [true, true]
  {
    var a, b := Attempt(p, 10000, 1), Attempt(p, 20000, 1);
    var one: Requests := map[p := [10000]];
    FirstReservation(map[], p, 10000);
    ExpiredByJump(p);
    assert LogAfterAttempt(map[], a) == one;
    assert [a, b][1..] == [b] && [b][1..] == [];
  }

  // A change of the clock alone gives a principal capacity back exactly if it
  // moves past the hour of one of its entries. Setting it back never does.
  lemma ClockChangeRestoresIff(history: seq<nat>, now: nat, now': nat)
    requires IsOrdered(history)
    ensures CountAt(history, now') < CountAt(history, now)
            <==> exists i :: 0 <= i < |history|
                             && EffectiveNow(history, now) - WINDOW < history[i] <= EffectiveNow(history, now') - WINDOW
    ensures now' <= now ==> CountAt(history, now') >= CountAt(history, now)
  {
    var k := AfterIsSuffix(history, EffectiveNow(history, now) - WINDOW);
    var k' := AfterIsSuffix(history, EffectiveNow(history, now') - WINDOW);
    if k < k' {
      assert EffectiveNow(history, now) - WINDOW < history[k] <= EffectiveNow(history, now') - WINDOW;
    }
  }

  lemma FirstReservation(requests: Requests, did: string, now: nat)
    requires did !in requests
    ensures Reserved(requests, did, now, WINDOW) == Pruned(requests, now - WINDOW)[did := [now]]
    ensures RequestCount(requests, did, now, WINDOW) == 0
  {
    var none: seq<nat> := [];
    assert After(none, now - WINDOW) == [];
    assert After(none, now - WINDOW) + [now] == [now];
  }

  // ---- The window bound ----

  // Entries with x < t <= x + WINDOW.
  function WindowCount(history: seq<nat>, x: int): int {
    |After(history, x)| - |After(history, x + WINDOW)|
  }

  // An entry and the one `limit` places before it are a window apart.
  predicate Spaced(history: seq<nat>, limit: nat) {
    forall k :: limit <= k < |history| ==> history[k - limit] + WINDOW <= history[k]
  }

  lemma SpacedBoundsWindow(history: seq<nat>, limit: nat, x: int)
    requires IsOrdered(history) && Spaced(history, limit)
    ensures WindowCount(history, x) <= limit
  {
    var j := AfterIsSuffix(history, x);
    var k := AfterIsSuffix(history, x + WINDOW);
    var i := j + limit;
    assert limit <= i < |history| ==> history[i - limit] + WINDOW <= history[i];
  }

  // A reservation that is allowed keeps the spacing of what was granted since
  // position `from`.
  lemma AllowedKeepsSpacing(history: seq<nat>, from: nat, limit: nat, now: nat)
    requires IsOrdered(history) && from <= |history| && Spaced(history[from..], limit)
    requires |After(history, EffectiveNow(history, now) - WINDOW)| < limit
    ensures Spaced((history + [EffectiveNow(history, now)])[from..], limit)
  {
    var effective := EffectiveNow(history, now);
    var k := AfterIsSuffix(history, effective - WINDOW);
    assert (history + [effective])[from..] == history[from..] + [effective];
    SpacedAppend(history[from..], limit, effective);
  }

  lemma SpacedAppend(history: seq<nat>, limit: nat, t: nat)
    requires Spaced(history, limit) && 0 < limit
    requires |history| >= limit ==> history[|history| - limit] + WINDOW <= t
    ensures Spaced(history + [t], limit)
  {
  }

  predicate FixedLimit(attempts: seq<Attempt>, did: string, limit: nat) {
    forall k :: 0 <= k < |attempts| && attempts[k].did == did ==> attempts[k].limit == limit
  }

  // What the log records for `did` beyond its first `from` entries.
  lemma {:induction false} LogKeepsSpacing(log: Requests, attempts: seq<Attempt>, did: string, limit: nat, from: nat)
    requires Ordered(log) && FixedLimit(attempts, did, limit)
    requires SpacedFrom(History(log, did), limit, from)
    ensures Ordered(LogAfter(log, attempts))
    ensures SpacedFrom(History(LogAfter(log, attempts), did), limit, from)
    ensures History(log, did)[..from] == History(LogAfter(log, attempts), did)[..from]
    decreases attempts
  {
    if attempts != [] {
      var a := attempts[0];
      LoggedKeepsSpacing(log, a, did, limit, from);
      LogKeepsSpacing(LogAfterAttempt(log, a), attempts[1..], did, limit, from);
    }
  }

  predicate SpacedFrom(history: seq<nat>, limit: nat, from: nat) {
    from <= |history| && Spaced(history[from..], limit)
  }

  lemma LoggedKeepsSpacing(log: Requests, a: Attempt, did: string, limit: nat, from: nat)
    requires Ordered(log) && (a.did == did ==> a.limit == limit)
    requires SpacedFrom(History(log, did), limit, from)
    ensures Ordered(LogAfterAttempt(log, a))
    ensures SpacedFrom(History(LogAfterAttempt(log, a), did), limit, from)
    ensures History(log, did)[..from] == History(LogAfterAttempt(log, a), did)[..from]
  {
    if Allowed(log, a) {
      OrderedAppend(History(log, a.did), EffectiveNow(History(log, a.did), a.now));
      if a.did == did {
        AllowedKeepsSpacing(History(log, did), from, limit, a.now);
      }
    }
  }

  // The timestamp the store records for `did` if it allows the attempt.
  function Grant(requests: Requests, a: Attempt, did: string): seq<nat> {
    if a.did == did && Allowed(requests, a) then
      [EffectiveNow(After(History(requests, did), a.now - WINDOW), a.now)]
    else []
  }

  // Times granted to `did` by the pruned store, in order.
  function GrantTimes(requests: Requests, attempts: seq<Attempt>, did: string): seq<nat>
    decreases attempts
  {
    if attempts == [] then []
    else Grant(requests, attempts[0], did) + GrantTimes(AfterAttempt(requests, attempts[0]), attempts[1..], did)
  }

  // Wherever the store answers like the log that never forgets, any half-open
  // hour holds at most `limit` of the reservations a principal was granted: for
  // one principal under any clock, for many under a clock that does not fall,
  // and for many under any clock if no reservation cuts into another's hour.
  lemma HourlyBound(requests: Requests, attempts: seq<Attempt>, did: string, limit: nat, x: int)
    requires Ordered(requests) && FixedLimit(attempts, did, limit)
    requires ClockNeverFalls(attempts) || OnePrincipal(attempts) || CutsNothing(requests, attempts)
    ensures WindowCount(GrantTimes(requests, attempts, did), x) <= limit
  {
    var history := History(requests, did);
    SameHistoriesAgree(requests, 0);
    if ClockNeverFalls(attempts) {
      GrantTimesAreLogged(requests, requests, attempts, did, 0);
    } else if OnePrincipal(attempts) {
      OwnGrantTimesAreLogged(requests, requests, attempts, did);
    } else {
      GuardedGrantTimesAreLogged(requests, requests, attempts, did);
    }
    LoggedHistory(requests, attempts, did, limit);
    NewGrantsBounded(history, GrantTimes(requests, attempts, did), limit, x);
  }

  lemma LoggedHistory(log: Requests, attempts: seq<Attempt>, did: string, limit: nat)
    requires Ordered(log) && FixedLimit(attempts, did, limit)
    ensures IsOrdered(History(LogAfter(log, attempts), did))
    ensures SpacedFrom(History(LogAfter(log, attempts), did), limit, |History(log, did)|)
  {
    assert History(log, did)[|History(log, did)|..] == [];
    LogKeepsSpacing(log, attempts, did, limit, |History(log, did)|);
  }

  lemma NewGrantsBounded(history: seq<nat>, grants: seq<nat>, limit: nat, x: int)
    requires IsOrdered(history + grants) && SpacedFrom(history + grants, limit, |history|)
    ensures WindowCount(grants, x) <= limit
  {
    assert (history + grants)[|history|..] == grants;
    forall j, k | 0 <= j < k < |grants|
      ensures grants[j] <= grants[k]
    {
      assert (history + grants)[|history| + j] <= (history + grants)[|history| + k];
    }
    SpacedBoundsWindow(grants, limit, x);
  }

  lemma {:induction false} GrantTimesAreLogged(
      requests: Requests, log: Requests, attempts: seq<Attempt>, did: string, clock: nat)
    requires StoreAgrees(requests, log, clock) && ClockNeverFalls(attempts)
    requires attempts != [] ==> clock <= attempts[0].now
    ensures History(LogAfter(log, attempts), did) == History(log, did) + GrantTimes(requests, attempts, did)
    decreases attempts
  {
    if attempts != [] {
      var a := attempts[0];
      AttemptKeepsAgreement(requests, log, a, clock);
      assert AgreeFrom(History(requests, did), History(log, did), a.now);
      GrantIsLogged(requests, log, a, did);
      var rest := GrantTimes(AfterAttempt(requests, a), attempts[1..], did);
      GrantTimesAreLogged(AfterAttempt(requests, a), LogAfterAttempt(log, a), attempts[1..], did, a.now);
      ConcatAssociates(History(log, did), Grant(requests, a, did), rest);
    }
  }

  lemma {:induction false} OwnGrantTimesAreLogged(
      requests: Requests, log: Requests, attempts: seq<Attempt>, did: string)
    requires OnePrincipal(attempts)
    requires attempts != [] ==> AgreeFrom(History(requests, attempts[0].did), History(log, attempts[0].did), 0)
    ensures History(LogAfter(log, attempts), did) == History(log, did) + GrantTimes(requests, attempts, did)
    decreases attempts
  {
    if attempts != [] {
      var a := attempts[0];
      OwnAttemptKeepsAgreement(requests, log, a);
      AgreeLater(History(requests, a.did), History(log, a.did), 0, a.now);
      GrantIsLogged(requests, log, a, did);
      assert attempts[1..] != [] ==> attempts[1..][0].did == a.did;
      OwnGrantTimesAreLogged(AfterAttempt(requests, a), LogAfterAttempt(log, a), attempts[1..], did);
      ConcatAssociates(History(log, did), Grant(requests, a, did),
                       GrantTimes(AfterAttempt(requests, a), attempts[1..], did));
    }
  }

  lemma {:induction false} GuardedGrantTimesAreLogged(
      requests: Requests, log: Requests, attempts: seq<Attempt>, did: string)
    requires StoreAgrees(requests, log, 0) && CutsNothing(requests, attempts)
    ensures History(LogAfter(log, attempts), did) == History(log, did) + GrantTimes(requests, attempts, did)
    decreases attempts
  {
    if attempts != [] {
      var a := attempts[0];
      AttemptKeepsAgreement(requests, log, a, 0);
      AgreementKeptIff(requests, log, a.did, a.now);
      GrantIsLogged(requests, log, a, did);
      GuardedGrantTimesAreLogged(AfterAttempt(requests, a), LogAfterAttempt(log, a), attempts[1..], did);
      ConcatAssociates(History(log, did), Grant(requests, a, did),
                       GrantTimes(AfterAttempt(requests, a), attempts[1..], did));
    }
  }

  lemma ConcatAssociates(a: seq<nat>, b: seq<nat>, c: seq<nat>)
    ensures (a + b) + c == a + (b + c)
  {
  }

  lemma GrantIsLogged(requests: Requests, log: Requests, a: Attempt, did: string)
    requires a.did == did ==> AgreeFrom(History(requests, did), History(log, did), a.now)
    requires Allowed(requests, a) == Allowed(log, a)
    ensures History(LogAfterAttempt(log, a), did) == History(log, did) + Grant(requests, a, did)
  {
    if a.did == did && Allowed(log, a) {
      OwnGrant(requests, History(log, did), a);
      LoggedOwn(log, did, a.now);
    } else {
      assert Grant(requests, a, did) == [];
      assert History(LogAfterAttempt(log, a), did) == History(log, did);
    }
  }

  lemma OwnGrant(requests: Requests, full: seq<nat>, a: Attempt)
    requires AgreeFrom(History(requests, a.did), full, a.now) && Allowed(requests, a)
    ensures Grant(requests, a, a.did) == [EffectiveNow(full, a.now)]
  {
    KeptEffective(History(requests, a.did), a.now);
  }

  lemma LoggedOwn(log: Requests, did: string, now: nat)
    ensures History(Logged(log, did, now), did) == History(log, did) + [EffectiveNow(History(log, did), now)]
  {
  }

  // ---- The saved state stays loadable ----

  // An allowed reservation leaves histories a restart can read back, exactly
  // when the number of principals with live entries stays within bounds.
  lemma ReservationLoadableIff(requests: Requests, a: Attempt)
    requires LoadableRequests(requests) && IsDid(a.did) && a.limit <= MAX_HISTORY && Allowed(requests, a)
    ensures var live := Pruned(requests, a.now - WINDOW);
            LoadableRequests(Reserved(requests, a.did, a.now, WINDOW))
            <==> a.did in live || |live| < MAX_PRINCIPALS
    ensures |History(Reserved(requests, a.did, a.now, WINDOW), a.did)| <= a.limit
  {
    var live := Pruned(requests, a.now - WINDOW);
    LiveStaysLoadable(requests, a.now - WINDOW);
    OwnHistoryBounded(requests, a);
    var history := History(Reserved(requests, a.did, a.now, WINDOW), a.did);
    assert Reserved(requests, a.did, a.now, WINDOW) == live[a.did := history];
    OneMoreKey(live, a.did, history);
  }

  // Every state a run of the limiter passes through can be read back.
  predicate AlwaysLoadable(requests: Requests, attempts: seq<Attempt>)
    decreases attempts
  {
    LoadableRequests(requests)
    && (attempts != [] ==> AlwaysLoadable(AfterAttempt(requests, attempts[0]), attempts[1..]))
  }

  // Each reservation is of a principal with live entries, or one more fits.
  predicate PrincipalsFit(requests: Requests, attempts: seq<Attempt>)
    decreases attempts
  {
    attempts != [] ==>
      var a := attempts[0];
      var live := Pruned(requests, a.now - WINDOW);
      && (Allowed(requests, a) ==> a.did in live || |live| < MAX_PRINCIPALS)
      && PrincipalsFit(AfterAttempt(requests, a), attempts[1..])
  }

  // A run from a loadable state keeps every history ordered and within its
  // limit, so it stays loadable exactly as long as the principals fit.
  lemma {:induction false} RunStaysLoadableIff(requests: Requests, attempts: seq<Attempt>)
    requires LoadableRequests(requests)
    requires forall a :: a in attempts ==> IsDid(a.did) && a.limit <= MAX_HISTORY
    ensures AlwaysLoadable(requests, attempts) <==> PrincipalsFit(requests, attempts)
    decreases attempts
  {
    if attempts != [] {
      AttemptLoadableIff(requests, attempts[0]);
      if LoadableRequests(AfterAttempt(requests, attempts[0])) {
        RunStaysLoadableIff(AfterAttempt(requests, attempts[0]), attempts[1..]);
      }
    }
  }

  lemma AttemptLoadableIff(requests: Requests, a: Attempt)
    requires LoadableRequests(requests) && IsDid(a.did) && a.limit <= MAX_HISTORY
    ensures LoadableRequests(AfterAttempt(requests, a))
            <==> (Allowed(requests, a) ==>
                    a.did in Pruned(requests, a.now - WINDOW) || |Pruned(requests, a.now - WINDOW)| < MAX_PRINCIPALS)
  {
    if Allowed(requests, a) {
      ReservationLoadableIff(requests, a);
    }
  }

  lemma LiveStaysLoadable(requests: Requests, cutoff: int)
    requires LoadableRequests(requests)
    ensures LoadableRequests(Pruned(requests, cutoff))
  {
    var live := Pruned(requests, cutoff);
    forall did | did in live
      ensures IsOrdered(live[did]) && |live[did]| <= MAX_HISTORY
    {
      OrderedAfter(requests[did], cutoff);
    }
    PrunedSize(requests, cutoff);
  }

  lemma OneMoreKey(live: Requests, did: string, history: seq<nat>)
    requires LoadableRequests(live) && IsDid(did) && IsOrdered(history) && |history| <= MAX_HISTORY
    ensures LoadableRequests(live[did := history]) <==> did in live || |live| < MAX_PRINCIPALS
  {
    var more := live[did := history];
    assert more.Keys == live.Keys + {did};
    assert |more| == |more.Keys| && |live| == |live.Keys|;
  }

  lemma OwnHistoryBounded(requests: Requests, a: Attempt)
    requires IsOrdered(History(requests, a.did)) && Allowed(requests, a)
    ensures IsOrdered(History(Reserved(requests, a.did, a.now, WINDOW), a.did))
    ensures |History(Reserved(requests, a.did, a.now, WINDOW), a.did)| <= a.limit
  {
    var history := History(requests, a.did);
    OwnHistoryAfterReservation(requests, a.did, a.now);
    OwnReservedIs(history, a.now);
    OwnReservedOrdered(history, a.now);
  }

  lemma OwnReservedOrdered(history: seq<nat>, now: nat)
    requires IsOrdered(history)
    ensures IsOrdered(OwnReserved(history, now))
  {
    OwnReservedIs(history, now);
    OrderedAfter(history, EffectiveNow(history, now) - WINDOW);
    OrderedAppend(After(history, EffectiveNow(history, now) - WINDOW), EffectiveNow(history, now));
  }

  lemma PrunedSize(requests: Requests, cutoff: int)
    ensures |Pruned(requests, cutoff)| <= |requests|
  {
    var kept, all := Pruned(requests, cutoff).Keys, requests.Keys;
    assert all == kept + (all - kept);
  }
}
