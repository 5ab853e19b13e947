// The rolling-hour quota over whole runs of the reply protocol: every reply
// and lookup has its own reservation, and an hour holds at most the limit.
module QuotaSafety {
  import opened Wrappers
  import opened Protocol
  import opened State
  import opened Quota
  import opened Delivery
  import opened Recovery
  import opened DeliveryProtocol
  import opened Safety
  import AuditSafety

  // ---- Work and the reservations it was done on ----

  // Each piece of work is on a reservation made since `base`, and no two are
  // on the same one.
  predicate WorksOk(works: seq<Work>, log: Requests, base: Requests) {
    && (forall k :: 0 <= k < |works| ==>
                      |History(base, works[k].did)| <= works[k].rank < |History(log, works[k].did)|)
    && (forall j, k :: 0 <= j < k < |works| && works[j].did == works[k].did ==> works[j].rank < works[k].rank)
  }

  predicate Unspent(works: seq<Work>, did: string, rank: int) {
    forall k :: 0 <= k < |works| && works[k].did == did ==> works[k].rank < rank
  }

  // The latest reservation of a principal in the state file is the log's.
  predicate ReservedOnDisk(file: StateFile, log: Requests, did: string) {
    var stored, logged := History(file.requests, did), History(log, did);
    stored != [] && logged != [] && stored[|stored| - 1] == logged[|logged| - 1]
  }

  ghost predicate LogGrew(base: Requests, log: Requests) {
    forall did {:trigger History(base, did)} {:trigger History(log, did)} ::
      |History(base, did)| <= |History(log, did)|
  }

  // Every reservation of `did` in this run was granted under at most `limit`.
  predicate Limited(reserved: seq<Attempt>, did: string, limit: nat) {
    forall k :: 0 <= k < |reserved| && reserved[k].did == did ==> reserved[k].limit <= limit
  }

  // The stored reservations are what this one, allowed, left.
  ghost predicate LeftBy(requests: Requests, a: Attempt) {
    exists before: Requests :: Allowed(before, a) && requests == Reserved(before, a.did, a.now, WINDOW)
  }

  predicate Granted(life: Life) {
    life.Live? && life.point.Handling? && life.point.granted
  }

  // The latest reservation of a principal: made in this run, the last thing
  // written to the state file, and used by none of the given works.
  ghost predicate HasOwnReservation(s: Sys, base: Requests, did: string, works: seq<Work>) {
    && |History(base, did)| < |History(s.log, did)|
    && Unspent(works, did, |History(s.log, did)| - 1)
    && LastIs(s, did)
  }

  ghost predicate LastIs(s: Sys, did: string) {
    LatestOnDisk(s.disk.file, s.log, s.reserved, s.clockFell, did)
  }

  ghost predicate LatestOnDisk(file: StateFile, log: Requests, reserved: seq<Attempt>, clockFell: bool, did: string) {
    && reserved != [] && reserved[|reserved| - 1].did == did
    && LeftBy(file.requests, reserved[|reserved| - 1])
    && (!clockFell ==> ReservedOnDisk(file, log, did))
  }

  // What is handled after a grant has a reservation nothing was done on yet.
  ghost predicate GrantOk(s: Sys, base: Requests) {
    Granted(s.life) ==>
      && HasOwnReservation(s, base, s.life.point.m.sender, s.replies)
      && (!s.life.point.lookedUp ==> HasOwnReservation(s, base, s.life.point.m.sender, s.lookups))
  }

  // The store against the log: in agreement, and spaced for `who`, any
  // principal, by `limit`, any bound on its grants.
  ghost predicate StoreOk(requests: Requests, log: Requests, clock: nat, clockFell: bool, reserved: seq<Attempt>,
                          base: Requests, who: string, limit: nat)
  {
    && Ordered(log) && LogGrew(base, log)
    && (!clockFell ==> StoreAgrees(requests, log, clock))
    && (!clockFell && Limited(reserved, who, limit) ==> SpacedFrom(History(log, who), limit, |History(base, who)|))
  }

  ghost predicate QuotaInv(s: Sys, base: Requests, who: string, limit: nat) {
    && StoreOk(s.disk.file.requests, s.log, s.clock, s.clockFell, s.reserved, base, who, limit)
    && WorksOk(s.replies, s.log, base) && WorksOk(s.lookups, s.log, base)
    && GrantOk(s, base)
  }

  lemma QuotaInit(s: Sys, who: string, limit: nat)
    requires Init(s)
    ensures QuotaInv(s, s.log, who, limit)
  {
    SameHistoriesAgree(s.log, 0);
    assert History(s.log, who)[|History(s.log, who)|..] == [];
  }

  // ---- Steps that neither reserve nor work ----

  predicate Idle(step: Step) {
    !step.Reserve? && !step.LookUp? && !step.Prepare?
  }

  predicate QuotaUntouched(s: Sys, s': Sys) {
    && s'.log == s.log && s'.reserved == s.reserved && s'.replies == s.replies && s'.lookups == s.lookups
    && s'.clock == s.clock && s'.clockFell == s.clockFell
    && s'.disk.file.requests == s.disk.file.requests
    && (Granted(s'.life) ==> s'.life == s.life)
  }

  lemma QuotaKept(s: Sys, s': Sys, base: Requests, who: string, limit: nat)
    requires QuotaInv(s, base, who, limit) && QuotaUntouched(s, s')
    ensures QuotaInv(s', base, who, limit)
  {
  }

  lemma IdleStep(s: Sys, step: Step)
    requires LifeOk(s) && Enabled(s, step) && Idle(step)
    ensures QuotaUntouched(s, Apply(s, step))
  {
    if AuditSafety.SavesState(step) {
      IdleSave(s, step);
    } else {
      IdleElse(s, step);
    }
  }

  lemma IdleSave(s: Sys, step: Step)
    requires LifeOk(s) && Enabled(s, step) && Idle(step) && AuditSafety.SavesState(step)
    ensures QuotaUntouched(s, Apply(s, step))
  {
  }

  lemma IdleElse(s: Sys, step: Step)
    requires Enabled(s, step) && Idle(step) && !AuditSafety.SavesState(step)
    ensures QuotaUntouched(s, Apply(s, step))
  {
    if IsLiveStep(step) {
      IdleLive(s, step);
    } else {
      IdleOther(s, step);
    }
  }

  lemma IdleLive(s: Sys, step: Step)
    requires Enabled(s, step) && Idle(step) && !AuditSafety.SavesState(step) && IsLiveStep(step)
    ensures QuotaUntouched(s, Apply(s, step))
  {
  }

  lemma IdleOther(s: Sys, step: Step)
    requires Enabled(s, step) && !AuditSafety.SavesState(step) && !IsLiveStep(step)
    ensures QuotaUntouched(s, Apply(s, step))
  {
    if IsRecoveryStep(step) {
      IdleRecovery(s, step);
    }
  }

  lemma IdleRecovery(s: Sys, step: Step)
    requires Enabled(s, step) && !AuditSafety.SavesState(step) && IsRecoveryStep(step)
    ensures QuotaUntouched(s, Apply(s, step))
  {
  }

  // ---- Work ----

  lemma WorkAdded(works: seq<Work>, log: Requests, base: Requests, did: string)
    requires WorksOk(works, log, base) && |History(base, did)| < |History(log, did)|
    requires Unspent(works, did, |History(log, did)| - 1)
    ensures WorksOk(works + [Work(did, |History(log, did)| - 1)], log, base)
  {
  }

  lemma WorkOnGrant(s: Sys, base: Requests, works: seq<Work>)
    requires s.life.Live? && s.life.point.Handling? && WorksOk(works, s.log, base)
    requires s.life.metered ==> HasOwnReservation(s, base, s.life.point.m.sender, works)
    ensures WorksOk(works + OnReservation(s), s.log, base)
  {
    if s.life.metered {
      WorkAdded(works, s.log, base, s.life.point.m.sender);
    } else {
      assert works + OnReservation(s) == works;
    }
  }

  lemma LookUpKeepsQuota(s: Sys, base: Requests, who: string, limit: nat)
    requires QuotaInv(s, base, who, limit) && CanLookUp(s)
    ensures QuotaInv(DoLookUp(s), base, who, limit)
  {
    WorkOnGrant(s, base, s.lookups);
    LookUpKeepsGrant(s, base);
  }

  lemma LookUpKeepsGrant(s: Sys, base: Requests)
    requires GrantOk(s, base) && CanLookUp(s)
    ensures GrantOk(DoLookUp(s), base)
  {
  }

  lemma PrepareKeepsQuota(s: Sys, base: Requests, who: string, limit: nat, clock: nat, text: string)
    requires QuotaInv(s, base, who, limit) && CanPrepare(s, clock, text)
    ensures QuotaInv(DoPrepare(s, clock, text), base, who, limit)
  {
    WorkOnGrant(s, base, s.replies);
    PrepareLeavesStore(s, clock, text);
  }

  lemma PrepareLeavesStore(s: Sys, clock: nat, text: string)
    requires CanPrepare(s, clock, text)
    ensures var s' := DoPrepare(s, clock, text);
            && s'.disk.file == s.disk.file && s'.log == s.log && s'.clock == s.clock && s'.clockFell == s.clockFell
            && s'.reserved == s.reserved && s'.lookups == s.lookups && s'.replies == s.replies + OnReservation(s)
            && !Granted(s'.life)
  {
  }

  // ---- Reservations ----

  lemma WorksOutlastLog(works: seq<Work>, log: Requests, log': Requests, base: Requests)
    requires WorksOk(works, log, base) && LogGrew(log, log')
    ensures WorksOk(works, log', base)
  {
    forall k | 0 <= k < |works|
      ensures works[k].rank < |History(log', works[k].did)|
    {
      assert |History(log, works[k].did)| <= |History(log', works[k].did)|;
    }
  }

  lemma LoggedGrows(log: Requests, did: string, now: nat)
    requires Ordered(log)
    ensures LogGrew(log, Logged(log, did, now)) && Ordered(Logged(log, did, now))
    ensures |History(Logged(log, did, now), did)| == |History(log, did)| + 1
  {
    OrderedAppend(History(log, did), EffectiveNow(History(log, did), now));
  }

  lemma LogGrewTwice(a: Requests, b: Requests, c: Requests)
    requires LogGrew(a, b) && LogGrew(b, c)
    ensures LogGrew(a, c)
  {
    forall did
      ensures |History(a, did)| <= |History(c, did)|
    {
      assert |History(a, did)| <= |History(b, did)| <= |History(c, did)|;
    }
  }

  // A grant under a limit is one under any higher limit.
  lemma ReservationSpaced(requests: Requests, log: Requests, base: Requests, clock: nat, a: Attempt,
                          who: string, limit: nat)
    requires StoreAgrees(requests, log, clock) && clock <= a.now && Ordered(log)
    requires Allowed(requests, a) && (a.did == who ==> a.limit <= limit)
    requires SpacedFrom(History(log, who), limit, |History(base, who)|)
    ensures SpacedFrom(History(Logged(log, a.did, a.now), who), limit, |History(base, who)|)
  {
    AttemptKeepsAgreement(requests, log, a, clock);
    LoggedKeepsSpacing(log, if a.did == who then Attempt(who, a.now, limit) else a, who, limit, |History(base, who)|);
  }

  lemma ReservationOnDisk(requests: Requests, log: Requests, clock: nat, did: string, now: nat)
    requires StoreAgrees(requests, log, clock) && clock <= now
    ensures var stored := History(Reserved(requests, did, now, WINDOW), did);
            var logged := History(Logged(log, did, now), did);
            stored != [] && logged != [] && stored[|stored| - 1] == logged[|logged| - 1]
  {
    AgreeLater(History(requests, did), History(log, did), clock, now);
    OwnHistoryAfterReservation(requests, did, now);
    OwnReservedIs(History(requests, did), now);
  }

  lemma LimitedBefore(reserved: seq<Attempt>, a: Attempt, did: string, limit: nat)
    requires Limited(reserved + [a], did, limit)
    ensures Limited(reserved, did, limit) && (a.did == did ==> a.limit <= limit)
  {
    assert (reserved + [a])[|reserved|] == a;
    assert forall k :: 0 <= k < |reserved| ==> (reserved + [a])[k] == reserved[k];
  }

  lemma ReserveKeepsStore(requests: Requests, log: Requests, clock: nat, clockFell: bool, reserved: seq<Attempt>,
                          base: Requests, who: string, limit: nat, a: Attempt)
    requires StoreOk(requests, log, clock, clockFell, reserved, base, who, limit) && Allowed(requests, a)
    ensures StoreOk(Reserved(requests, a.did, a.now, WINDOW), Logged(log, a.did, a.now), a.now,
                    clockFell || a.now < clock, reserved + [a], base, who, limit)
  {
    LoggedGrows(log, a.did, a.now);
    LogGrewTwice(base, log, Logged(log, a.did, a.now));
    if !clockFell && clock <= a.now {
      AttemptKeepsAgreement(requests, log, a, clock);
      if Limited(reserved + [a], who, limit) {
        LimitedBefore(reserved, a, who, limit);
        ReservationSpaced(requests, log, base, clock, a, who, limit);
      }
    }
  }

  lemma ReserveIsLatest(requests: Requests, log: Requests, clock: nat, clockFell: bool, reserved: seq<Attempt>,
                        a: Attempt, file: StateFile)
    requires !clockFell ==> StoreAgrees(requests, log, clock)
    requires Allowed(requests, a) && file.requests == Reserved(requests, a.did, a.now, WINDOW)
    ensures LatestOnDisk(file, Logged(log, a.did, a.now), reserved + [a], clockFell || a.now < clock, a.did)
  {
    assert LeftBy(file.requests, a);
    if !clockFell && clock <= a.now {
      ReservationOnDisk(requests, log, clock, a.did, a.now);
    }
  }

  lemma NewReservationUnspent(works: seq<Work>, log: Requests, base: Requests, did: string, now: nat)
    requires WorksOk(works, log, base) && Ordered(log) && LogGrew(base, log)
    ensures var log' := Logged(log, did, now);
            && WorksOk(works, log', base) && |History(base, did)| < |History(log', did)|
            && Unspent(works, did, |History(log', did)| - 1)
  {
    LoggedGrows(log, did, now);
    WorksOutlastLog(works, log, Logged(log, did, now), base);
    assert |History(base, did)| <= |History(log, did)|;
  }

  lemma ReserveKeepsQuota(s: Sys, base: Requests, who: string, limit: nat, now: nat, granted: nat)
    requires LifeOk(s) && QuotaInv(s, base, who, limit) && CanReserve(s, now, granted)
    ensures QuotaInv(DoReserve(s, now, granted), base, who, limit)
  {
    var did := s.life.point.m.sender;
    var a := Attempt(did, now, granted);
    HandlingRequests(s);
    ReserveKeepsStore(s.disk.file.requests, s.log, s.clock, s.clockFell, s.reserved, base, who, limit, a);
    ReserveIsLatest(s.disk.file.requests, s.log, s.clock, s.clockFell, s.reserved, a,
                    DoReserve(s, now, granted).disk.file);
    NewReservationUnspent(s.replies, s.log, base, did, now);
    NewReservationUnspent(s.lookups, s.log, base, did, now);
  }

  lemma HandlingRequests(s: Sys)
    requires LifeOk(s) && s.life.Live? && s.life.point.Handling?
    ensures s.life.mem.requests == s.disk.file.requests
  {
  }

  // ---- Runs ----

  lemma StepKeepsQuota(s: Sys, base: Requests, who: string, limit: nat, step: Step)
    requires LifeOk(s) && QuotaInv(s, base, who, limit) && Enabled(s, step)
    ensures QuotaInv(Apply(s, step), base, who, limit)
  {
    if Idle(step) {
      IdleStep(s, step);
      QuotaKept(s, Apply(s, step), base, who, limit);
    } else {
      match step
      case Reserve(now, granted) => ReserveKeepsQuota(s, base, who, limit, now, granted);
      case LookUp => LookUpKeepsQuota(s, base, who, limit);
      case Prepare(clock, text) => PrepareKeepsQuota(s, base, who, limit, clock, text);
    }
  }

  lemma {:induction false} RunKeepsQuota(
      s: Sys, base: Requests, who: string, limit: nat, steps: seq<Step>, t: Sys)
    requires Inv(s) && QuotaInv(s, base, who, limit) && Runs(s, steps, t)
    ensures QuotaInv(t, base, who, limit)
    decreases steps
  {
    if steps != [] {
      StepKeeps(s, steps[0]);
      StepKeepsQuota(s, base, who, limit, steps[0]);
      RunKeepsQuota(Apply(s, steps[0]), base, who, limit, steps[1..], t);
    }
  }

  lemma RunFromStart(s0: Sys, s: Sys, who: string, limit: nat)
    requires Init(s0) && Reaches(s0, s)
    ensures QuotaInv(s, s0.log, who, limit)
  {
    var steps :| Runs(s0, steps, s);
    InitHolds(s0);
    QuotaInit(s0, who, limit);
    RunKeepsQuota(s0, s0.log, who, limit, steps, s);
  }

  // ---- The theorems ----

  // A metered process prepares a reply only on a reservation that is the last
  // thing written to the state file and that no other reply is on.
  lemma ReplyHasOwnReservation(s0: Sys, s: Sys, clock: nat, text: string)
    requires Init(s0) && Reaches(s0, s)
    requires CanPrepare(s, clock, text) && s.life.metered
    ensures HasOwnReservation(s, s0.log, s.life.point.m.sender, s.replies)
    ensures EndsAtOrAfter(s.disk.file.requests, s.reserved[|s.reserved| - 1])
  {
    RunFromStart(s0, s, "", 0);
    StoredEnd(s.disk.file.requests, s.reserved[|s.reserved| - 1]);
  }

  // A lookup is made only on a reservation that no other lookup is on.
  lemma LookUpHasOwnReservation(s0: Sys, s: Sys)
    requires Init(s0) && Reaches(s0, s)
    requires CanLookUp(s) && s.life.metered
    ensures HasOwnReservation(s, s0.log, s.life.point.m.sender, s.lookups)
    ensures EndsAtOrAfter(s.disk.file.requests, s.reserved[|s.reserved| - 1])
  {
    RunFromStart(s0, s, "", 0);
    StoredEnd(s.disk.file.requests, s.reserved[|s.reserved| - 1]);
  }

  // The stored history of the principal ends no earlier than the reservation.
  predicate EndsAtOrAfter(requests: Requests, a: Attempt) {
    var stored := History(requests, a.did);
    stored != [] && stored[|stored| - 1] >= a.now
  }

  lemma StoredEnd(requests: Requests, a: Attempt)
    requires LeftBy(requests, a)
    ensures EndsAtOrAfter(requests, a)
  {
    var before: Requests :| Allowed(before, a) && requests == Reserved(before, a.did, a.now, WINDOW);
    OwnHistoryAfterReservation(before, a.did, a.now);
  }

  // When the work of one principal was reserved, in order.
  function Times(works: seq<Work>, log: Requests, did: string): (times: seq<nat>)
    ensures |times| <= |works|
  {
    if works == [] then []
    else
      var before, w := Times(works[..|works| - 1], log, did), works[|works| - 1];
      if w.did == did && 0 <= w.rank < |History(log, did)| then before + [History(log, did)[w.rank]] else before
  }

  // The ranks behind those times.
  function Ranks(works: seq<Work>, did: string): seq<int> {
    if works == [] then []
    else
      var before, w := Ranks(works[..|works| - 1], did), works[|works| - 1];
      if w.did == did then before + [w.rank] else before
  }

  lemma {:induction false} RanksOfWorks(works: seq<Work>, did: string)
    ensures forall k :: 0 <= k < |Ranks(works, did)| ==> Work(did, Ranks(works, did)[k]) in works
    decreases |works|
  {
    if works != [] {
      var front := works[..|works| - 1];
      RanksOfWorks(front, did);
      assert forall w :: w in front ==> w in works;
    }
  }

  lemma {:induction false} RanksIncrease(works: seq<Work>, log: Requests, base: Requests, did: string)
    requires WorksOk(works, log, base)
    ensures Increasing(Ranks(works, did))
    decreases |works|
  {
    if works != [] {
      var front, w := works[..|works| - 1], works[|works| - 1];
      RanksIncrease(front, log, base, did);
      RanksOfWorks(front, did);
      forall k | w.did == did && 0 <= k < |Ranks(front, did)|
        ensures Ranks(front, did)[k] < w.rank
      {
        var j :| 0 <= j < |front| && front[j] == Work(did, Ranks(front, did)[k]);
        assert works[j] == front[j];
      }
    }
  }

  lemma {:induction false} TimesOfRanks(works: seq<Work>, log: Requests, base: Requests, did: string)
    requires WorksOk(works, log, base)
    ensures |Times(works, log, did)| == |Ranks(works, did)|
    ensures forall k :: 0 <= k < |Ranks(works, did)| ==>
                          |History(base, did)| <= Ranks(works, did)[k] < |History(log, did)|
                          && Times(works, log, did)[k] == History(log, did)[Ranks(works, did)[k]]
    decreases |works|
  {
    if works != [] {
      var front := works[..|works| - 1];
      TimesOfRanks(front, log, base, did);
    }
  }

  // Entries of a spaced history at increasing positions are spaced.
  lemma SpacedSubsequence(history: seq<nat>, limit: nat, from: nat, ranks: seq<int>, times: seq<nat>)
    requires IsOrdered(history) && SpacedFrom(history, limit, from)
    requires Increasing(ranks) && |times| == |ranks|
    requires forall k :: 0 <= k < |ranks| ==> from <= ranks[k] < |history| && times[k] == history[ranks[k]]
    ensures IsOrdered(times) && Spaced(times, limit)
  {
    forall k | limit <= k < |times|
      ensures times[k - limit] + WINDOW <= times[k]
    {
      IncreasingSpread(ranks, k - limit, k);
      var r := ranks[k] - from;
      assert history[from..][r - limit] + WINDOW <= history[from..][r];
      assert history[ranks[k - limit]] <= history[ranks[k] - limit];
    }
  }

  // Whatever crashes, restarts and edits of the capability file a run contains:
  // while the clock does not fall, any window of one hour holds at most the
  // highest limit ever granted under of the reservations behind a principal's
  // replies, and likewise behind its lookups.
  lemma HourlyWorkBound(s0: Sys, s: Sys, did: string, limit: nat, x: int)
    requires Init(s0) && Reaches(s0, s) && !s.clockFell && Limited(s.reserved, did, limit)
    ensures WindowCount(Times(s.replies, s.log, did), x) <= limit
    ensures WindowCount(Times(s.lookups, s.log, did), x) <= limit
  {
    RunFromStart(s0, s, did, limit);
    WorksBounded(s.replies, s.log, s0.log, limit, did, x);
    WorksBounded(s.lookups, s.log, s0.log, limit, did, x);
  }

  lemma WorksBounded(works: seq<Work>, log: Requests, base: Requests, limit: nat, did: string, x: int)
    requires WorksOk(works, log, base) && Ordered(log)
    requires SpacedFrom(History(log, did), limit, |History(base, did)|)
    ensures WindowCount(Times(works, log, did), x) <= limit
  {
    RanksIncrease(works, log, base, did);
    TimesOfRanks(works, log, base, did);
    SpacedSubsequence(History(log, did), limit, |History(base, did)|, Ranks(works, did), Times(works, log, did));
    SpacedBoundsWindow(Times(works, log, did), limit, x);
  }
}
