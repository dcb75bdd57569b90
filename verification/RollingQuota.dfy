/** The rolling quota: at most a fixed number of attempt starts in any sixty seconds. */
module RollingQuota {
  import opened Base

  const RATE_ATTEMPTS: nat := 30
  const WINDOW_MS: nat := 60000
  const ATTEMPT_DEADLINE_MS: nat := 30000
  const ACQUISITION_DEADLINE_MS: nat := 300000
  const ATTEMPTS_MAX: nat := 48

  function Limit(entitlement: nat): nat {
    if entitlement < RATE_ATTEMPTS then entitlement else RATE_ATTEMPTS
  }

  predicate Within(start: nat, at: nat) {
    at < start + WINDOW_MS && start <= at
  }

  /** How many starts lie in the window that ends at a time, a start exactly one window old being out. */
  function InWindow(starts: seq<nat>, at: nat): nat {
    if starts == [] then 0 else (if Within(starts[0], at) then 1 else 0) + InWindow(starts[1..], at)
  }

  datatype StopReason = QuotaExhausted | AcquisitionDeadline

  datatype Admission = Admit(starts: seq<nat>) | Wait(untilMs: nat) | Stop(reason: StopReason) | FutureStart

  function Sort(s: seq<nat>): (r: seq<nat>)
    ensures |r| == |s| && Ascending(r)
  {
    SortIds(s)
  }

  /** The starts still in the window; earlier ones are the front of a sorted list. */
  function Active(sorted: seq<nat>, at: nat): seq<nat> {
    if sorted == [] then [] else if sorted[0] + WINDOW_MS <= at then Active(sorted[1..], at) else sorted
  }

  /** `evaluateRollingQuota`. */
  function Evaluate(starts: seq<nat>, at: nat, entitlement: nat, deadlineAt: nat): Admission
    requires entitlement > 0
  {
    var sorted := Sort(starts);
    if exists i :: 0 <= i < |sorted| && sorted[i] > at then FutureStart
    else
      var active := Active(sorted, at);
      if |active| < Limit(entitlement) then Admit(sorted + [at])
      else
        var blocking := active[|active| - Limit(entitlement)];
        if blocking + WINDOW_MS > deadlineAt then Stop(AcquisitionDeadline) else Wait(blocking + WINDOW_MS)
  }

  // ----- Counting a sorted list -----

  predicate Past(starts: seq<nat>, at: nat) {
    forall i :: 0 <= i < |starts| ==> starts[i] <= at
  }

  lemma {:induction false} AscendingHead(s: seq<nat>, i: nat, j: nat)
    requires Ascending(s) && i <= j < |s|
    ensures s[i] <= s[j]
    decreases j
  {
    if i < j { AscendingHead(s, i, j - 1); }
  }

  lemma AscendingRest(s: seq<nat>)
    requires Ascending(s) && s != []
    ensures Ascending(s[1..])
  {
    forall i | 0 < i < |s| - 1 ensures s[1..][i - 1] <= s[1..][i] {
      assert s[i] <= s[i + 1];
    }
  }

  lemma {:induction false} AllIn(s: seq<nat>, at: nat)
    requires forall i :: 0 <= i < |s| ==> Within(s[i], at)
    ensures InWindow(s, at) == |s|
  {
    if s != [] { AllIn(s[1..], at); }
  }

  lemma {:induction false} InWindowConcat(a: seq<nat>, b: seq<nat>, at: nat)
    ensures InWindow(a + b, at) == InWindow(a, at) + InWindow(b, at)
  {
    if a == [] {
      assert a + b == b;
    } else {
      assert (a + b)[1..] == a[1..] + b;
      InWindowConcat(a[1..], b, at);
    }
  }

  /** The active starts are the last ones of the list, all in the window, and are counted by it. */
  lemma {:induction false} ActiveIs(s: seq<nat>, at: nat)
    requires Ascending(s) && Past(s, at)
    ensures |Active(s, at)| <= |s| && Active(s, at) == s[|s| - |Active(s, at)|..]
    ensures |Active(s, at)| == InWindow(s, at)
    ensures forall i :: 0 <= i < |s| - |Active(s, at)| ==> s[i] + WINDOW_MS <= at
    ensures forall i :: 0 <= i < |Active(s, at)| ==> Within(Active(s, at)[i], at)
  {
    if s != [] {
      if s[0] + WINDOW_MS <= at {
        AscendingRest(s);
        ActiveIs(s[1..], at);
        forall i | 0 <= i < |s| - |Active(s, at)| ensures s[i] + WINDOW_MS <= at {
          if i > 0 { assert s[i] == s[1..][i - 1]; }
        }
      } else {
        forall i | 0 <= i < |s| ensures Within(s[i], at) { AscendingHead(s, 0, i); }
        AllIn(s, at);
      }
    }
  }

  lemma {:induction false} InWindowInsert(x: nat, s: seq<nat>, at: nat)
    requires Ascending(s)
    ensures InWindow(InsertId(x, s), at) == InWindow([x] + s, at)
  {
    assert ([x] + s)[1..] == s;
    if s != [] && x > s[0] {
      AscendingRest(s);
      InWindowInsert(x, s[1..], at);
      assert ([x] + s[1..])[1..] == s[1..];
      assert InsertId(x, s)[1..] == InsertId(x, s[1..]);
    }
  }

  /** Sorting changes no count. */
  lemma {:induction false} InWindowSorted(s: seq<nat>, at: nat)
    ensures InWindow(Sort(s), at) == InWindow(s, at)
  {
    if s != [] {
      InWindowSorted(s[1..], at);
      InWindowInsert(s[0], SortIds(s[1..]), at);
      assert ([s[0]] + SortIds(s[1..]))[1..] == SortIds(s[1..]);
    }
  }

  lemma SortedPast(s: seq<nat>, at: nat)
    ensures Past(Sort(s), at) <==> Past(s, at)
  {
    MultisetMembers(Sort(s), s);
    if Past(s, at) {
      forall i | 0 <= i < |s| ensures Sort(s)[i] <= at {
        assert Sort(s)[i] in s;
      }
    }
    if Past(Sort(s), at) {
      forall i | 0 <= i < |s| ensures s[i] <= at {
        assert s[i] in Sort(s);
      }
    }
  }

  // ----- Exactness -----

  /** A start is admitted exactly when the window that ends with it has room, and none lies in the future. */
  lemma AdmitExactly(starts: seq<nat>, at: nat, entitlement: nat, deadlineAt: nat)
    requires entitlement > 0
    ensures Evaluate(starts, at, entitlement, deadlineAt).Admit? <==> Past(starts, at) && InWindow(starts, at) < Limit(entitlement)
    ensures Evaluate(starts, at, entitlement, deadlineAt).FutureStart? <==> !Past(starts, at)
  {
    hide Active, InWindow, Ascending, Within, Sort, Past;
    SortedPast(starts, at);
    InWindowSorted(starts, at);
    NotPast(Sort(starts), at);
    if Past(starts, at) { ActiveIs(Sort(starts), at); }
  }

  lemma NotPast(s: seq<nat>, at: nat)
    ensures Past(s, at) <==> !exists i :: 0 <= i < |s| && s[i] > at
  {
  }

  /** With a sorted list, room appears exactly when the start that is `limit` from the end leaves the window. */
  lemma RoomAt(s: seq<nat>, later: nat, limit: nat)
    requires Ascending(s) && Past(s, later) && 0 < limit <= |s|
    ensures InWindow(s, later) < limit <==> s[|s| - limit] + WINDOW_MS <= later
  {
    ActiveIs(s, later);
    var n := |Active(s, later)|;
    if n >= limit {
      assert Within(Active(s, later)[n - limit], later);
      assert Active(s, later)[n - limit] == s[|s| - limit];
    }
  }

  lemma PastLater(s: seq<nat>, at: nat, later: nat)
    requires Past(s, at) && at <= later
    ensures Past(s, later)
  {
  }

  /** With no room, the evaluator looks at one start: the one whose leaving makes room. */
  lemma Blocked(starts: seq<nat>, at: nat, entitlement: nat, deadlineAt: nat) returns (until: nat)
    requires entitlement > 0 && Past(starts, at) && InWindow(starts, at) >= Limit(entitlement)
    ensures var s, limit := Sort(starts), Limit(entitlement);
            Past(s, at) && 0 < limit <= |s| && until == s[|s| - limit] + WINDOW_MS && at < until
    ensures Evaluate(starts, at, entitlement, deadlineAt) == if until > deadlineAt then Stop(AcquisitionDeadline) else Wait(until)
  {
    var s := Sort(starts);
    SortedPast(starts, at);
    InWindowSorted(starts, at);
    ActiveIs(s, at);
    until := s[|s| - Limit(entitlement)] + WINDOW_MS;
    assert Within(Active(s, at)[|Active(s, at)| - Limit(entitlement)], at);
  }

  /** From then on, and no earlier, a start would be admitted if none is made before. */
  lemma RoomLater(starts: seq<nat>, at: nat, entitlement: nat, deadlineAt: nat, until: nat, later: nat)
    requires entitlement > 0 && Past(starts, at) && at <= later
    requires var s, limit := Sort(starts), Limit(entitlement);
             Past(s, at) && 0 < limit <= |s| && until == s[|s| - limit] + WINDOW_MS
    ensures Evaluate(starts, later, entitlement, deadlineAt).Admit? <==> until <= later
  {
    hide *;
    var s, limit := Sort(starts), Limit(entitlement);
    AdmitExactly(starts, later, entitlement, deadlineAt);
    PastLater(starts, at, later);
    PastLater(s, at, later);
    InWindowSorted(starts, later);
    RoomAt(s, later, limit);
  }

  /** The time to wait for is the earliest at which the start would be admitted, if none is made before. */
  lemma WaitExactly(starts: seq<nat>, at: nat, entitlement: nat, deadlineAt: nat, later: nat)
    requires entitlement > 0 && Evaluate(starts, at, entitlement, deadlineAt).Wait? && at <= later
    ensures var until := Evaluate(starts, at, entitlement, deadlineAt).untilMs;
            && at < until <= deadlineAt
            && (Evaluate(starts, later, entitlement, deadlineAt).Admit? <==> until <= later)
  {
    hide *;
    AdmitExactly(starts, at, entitlement, deadlineAt);
    var until := Blocked(starts, at, entitlement, deadlineAt);
    RoomLater(starts, at, entitlement, deadlineAt, until, later);
  }

  /** The evaluator gives up exactly when there is no room now and none by the deadline; it never gives up for the quota alone. */
  lemma StopExactly(starts: seq<nat>, at: nat, entitlement: nat, deadlineAt: nat)
    requires entitlement > 0
    ensures Evaluate(starts, at, entitlement, deadlineAt) == Stop(AcquisitionDeadline) <==>
              && Past(starts, at) && InWindow(starts, at) >= Limit(entitlement)
              && forall later :: at <= later <= deadlineAt ==> !Evaluate(starts, later, entitlement, deadlineAt).Admit?
    ensures Evaluate(starts, at, entitlement, deadlineAt) != Stop(QuotaExhausted)
  {
    hide *;
    AdmitExactly(starts, at, entitlement, deadlineAt);
    if Past(starts, at) && InWindow(starts, at) >= Limit(entitlement) {
      var until := Blocked(starts, at, entitlement, deadlineAt);
      forall later | at <= later <= deadlineAt
        ensures Evaluate(starts, later, entitlement, deadlineAt).Admit? <==> until <= later {
        RoomLater(starts, at, entitlement, deadlineAt, until, later);
      }
      if until <= deadlineAt { assert Evaluate(starts, until, entitlement, deadlineAt).Admit?; }
    }
  }

  // ----- The bound over every run -----

  /** Starts made only by admission, at times that never go back. */
  predicate Admitted(starts: seq<nat>, limit: nat)
    decreases |starts|
  {
    starts == []
    || (var head, last := starts[..|starts| - 1], starts[|starts| - 1];
        Admitted(head, limit) && Past(head, last) && InWindow(head, last) < limit)
  }

  lemma {:induction false} WindowMoves(s: seq<nat>, last: nat, at: nat)
    requires Past(s, last) && last <= at
    ensures InWindow(s, at) <= InWindow(s, last)
  {
    if s != [] {
      assert forall i :: 0 <= i < |s| - 1 ==> s[1..][i] == s[i + 1];
      WindowMoves(s[1..], last, at);
    }
  }

  /** Every window holds at most the limit, wherever it ends. */
  lemma {:induction false} WindowBound(starts: seq<nat>, limit: nat, at: nat)
    requires Admitted(starts, limit)
    ensures InWindow(starts, at) <= limit
    decreases |starts|
  {
    if starts != [] {
      var head, last := starts[..|starts| - 1], starts[|starts| - 1];
      assert starts == head + [last];
      InWindowConcat(head, [last], at);
      assert [last][1..] == [];
      if last <= at {
        WindowMoves(head, last, at);
      } else {
        WindowBound(head, limit, at);
      }
    }
  }

  /** Admission by the evaluator keeps the list one that was made by admission. */
  lemma EvaluateKeepsAdmitted(starts: seq<nat>, at: nat, entitlement: nat, deadlineAt: nat)
    requires entitlement > 0 && Ascending(starts) && Admitted(starts, Limit(entitlement))
    requires Evaluate(starts, at, entitlement, deadlineAt).Admit?
    ensures var next := Evaluate(starts, at, entitlement, deadlineAt).starts;
            next == starts + [at] && Ascending(next) && Admitted(next, Limit(entitlement))
  {
    AdmitExactly(starts, at, entitlement, deadlineAt);
    SortAscending(starts);
    var next := starts + [at];
    assert next[..|starts|] == starts;
  }

  lemma {:induction false} SortAscending(s: seq<nat>)
    requires Ascending(s)
    ensures Sort(s) == s
  {
    if s != [] {
      AscendingRest(s);
      SortAscending(s[1..]);
      if |s| > 1 { assert s[0] <= s[1]; }
      assert s == [s[0]] + s[1..];
    }
  }

  // ----- The credential planner -----

  datatype CredentialPlan =
    | AdmitAttempt(ordinal: nat, budgetMs: nat)
    | Refuse(reason: Refusal)
    | InvalidInput

  datatype Refusal = DeadlinePassed | AttemptsExhausted | ClockRegression | RateExhausted

  /** `planCredentialAttemptAdmission`, over counts instead of a list. */
  function PlanAttempt(now: nat, acquisitionStarted: Option<nat>, lastStarted: Option<nat>, attempts: nat, rolling: nat): CredentialPlan {
    if acquisitionStarted.None? && lastStarted.Some? then InvalidInput
    else
      var start := if acquisitionStarted.Some? then acquisitionStarted.value else now;
      var last := if lastStarted.Some? then lastStarted.value else start;
      if now < start || now < last then Refuse(ClockRegression)
      else if now - start >= ACQUISITION_DEADLINE_MS then Refuse(DeadlinePassed)
      else if attempts >= ATTEMPTS_MAX then Refuse(AttemptsExhausted)
      else if rolling >= RATE_ATTEMPTS then Refuse(RateExhausted)
      else
        var left := ACQUISITION_DEADLINE_MS - (now - start);
        AdmitAttempt(attempts, if left < ATTEMPT_DEADLINE_MS then left else ATTEMPT_DEADLINE_MS)
  }

  /** The count the store selects: claims started after the window's lower end. */
  function RollingCount(claims: seq<nat>, now: nat): nat {
    if claims == [] then 0 else (if claims[0] + WINDOW_MS > now then 1 else 0) + RollingCount(claims[1..], now)
  }

  lemma {:induction false} RollingIsWindow(claims: seq<nat>, now: nat)
    requires Past(claims, now)
    ensures RollingCount(claims, now) == InWindow(claims, now)
  {
    if claims != [] {
      assert forall i :: 0 <= i < |claims| - 1 ==> claims[1..][i] == claims[i + 1];
      RollingIsWindow(claims[1..], now);
    }
  }

  /** An admitted attempt ends before the acquisition's deadline. */
  lemma BudgetFits(now: nat, acquisitionStarted: Option<nat>, lastStarted: Option<nat>, attempts: nat, rolling: nat)
    requires PlanAttempt(now, acquisitionStarted, lastStarted, attempts, rolling).AdmitAttempt?
    ensures var start := if acquisitionStarted.Some? then acquisitionStarted.value else now;
            var budget := PlanAttempt(now, acquisitionStarted, lastStarted, attempts, rolling).budgetMs;
            0 < budget <= ATTEMPT_DEADLINE_MS && now + budget <= start + ACQUISITION_DEADLINE_MS
  {
  }

  // ----- The shared table of claims -----

  /** One attempt that was let start, in the table all acquisitions of the project share. */
  datatype Claim = Claim(acquisition: nat, acquisitionStarted: nat, started: nat)

  function Starts(claims: seq<Claim>): (r: seq<nat>)
    ensures |r| == |claims|
    ensures forall i :: 0 <= i < |r| ==> r[i] == claims[i].started
  {
    seq(|claims|, i requires 0 <= i < |claims| => claims[i].started)
  }

  /** The claims of one acquisition, in order. */
  function Own(claims: seq<Claim>, a: nat): (r: seq<Claim>)
    ensures |r| <= |claims|
    ensures forall c :: c in r <==> c in claims && c.acquisition == a
  {
    if claims == [] then []
    else
      var last := claims[|claims| - 1];
      Own(claims[..|claims| - 1], a) + if last.acquisition == a then [last] else []
  }

  /** An acquisition counts as started when its first claim says it did. */
  function StartOf(claims: seq<Claim>, a: nat, declared: nat): nat {
    if Own(claims, a) == [] then declared else Own(claims, a)[0].acquisitionStarted
  }

  /** `admit`: the planner, over one acquisition's own claims and the project's count. */
  function AdmitClaim(claims: seq<Claim>, a: nat, declared: nat, now: nat): CredentialPlan {
    var own := Own(claims, a);
    if now < declared || !Past(Starts(claims), now) then Refuse(ClockRegression)
    else
      PlanAttempt(now, Some(StartOf(claims, a, declared)), if own == [] then None else Some(own[|own| - 1].started), |own|,
                  RollingCount(Starts(claims), now))
  }

  /** Everything but the quota lets the acquisition start an attempt. */
  predicate Timely(claims: seq<Claim>, a: nat, declared: nat, now: nat) {
    var start := StartOf(claims, a, declared);
    declared <= now && start <= now < start + ACQUISITION_DEADLINE_MS && |Own(claims, a)| < ATTEMPTS_MAX
  }

  /**
    The count-based planner and the list-based evaluator agree on the quota that all acquisitions share:
    where nothing else refuses, the planner admits exactly when the evaluator does, and refuses for the quota
    exactly when the evaluator waits or gives up.
   */
  lemma PlannersAgree(claims: seq<Claim>, a: nat, declared: nat, now: nat, deadlineAt: nat, entitlement: nat)
    requires entitlement >= RATE_ATTEMPTS
    ensures var plan, quota := AdmitClaim(claims, a, declared, now), Evaluate(Starts(claims), now, entitlement, deadlineAt);
            && (plan.AdmitAttempt? <==> Timely(claims, a, declared, now) && quota.Admit?)
            && (plan == Refuse(RateExhausted) <==> Timely(claims, a, declared, now) && (quota.Wait? || quota.Stop?))
            && (quota.FutureStart? ==> plan == Refuse(ClockRegression))
  {
    hide Evaluate, Own, InWindow, RollingCount, Starts, Past;
    AdmitExactly(Starts(claims), now, entitlement, deadlineAt);
    if Past(Starts(claims), now) {
      RollingIsWindow(Starts(claims), now);
      OwnPast(claims, a, now);
    }
  }

  lemma OwnPast(claims: seq<Claim>, a: nat, now: nat)
    requires Past(Starts(claims), now)
    ensures forall c :: c in Own(claims, a) ==> c.started <= now
  {
    forall c | c in Own(claims, a) ensures c.started <= now {
      var i :| 0 <= i < |claims| && claims[i] == c;
      assert Starts(claims)[i] <= now;
    }
  }

  /** A table that only admissions have filled. */
  ghost predicate Filled(claims: seq<Claim>)
    decreases |claims|
  {
    claims == []
    || (var before, c := claims[..|claims| - 1], claims[|claims| - 1];
        && Filled(before)
        && exists declared ::
             AdmitClaim(before, c.acquisition, declared, c.started).AdmitAttempt?
             && c.acquisitionStarted == StartOf(before, c.acquisition, declared))
  }

  lemma OneAdmitted(before: seq<Claim>, a: nat, declared: nat, now: nat)
    requires AdmitClaim(before, a, declared, now).AdmitAttempt?
    ensures Past(Starts(before), now) && InWindow(Starts(before), now) < RATE_ATTEMPTS && |Own(before, a)| < ATTEMPTS_MAX
    ensures var start := StartOf(before, a, declared); start <= now < start + ACQUISITION_DEADLINE_MS
  {
    RollingIsWindow(Starts(before), now);
    hide Own, InWindow, RollingCount, StartOf;
  }

  lemma {:induction false} FilledAdmitted(claims: seq<Claim>)
    requires Filled(claims)
    ensures Admitted(Starts(claims), RATE_ATTEMPTS)
    decreases |claims|
  {
    if claims != [] {
      var before, c := claims[..|claims| - 1], claims[|claims| - 1];
      var declared :| AdmitClaim(before, c.acquisition, declared, c.started).AdmitAttempt?;
      OneAdmitted(before, c.acquisition, declared, c.started);
      FilledAdmitted(before);
      assert Starts(claims)[..|claims| - 1] == Starts(before);
      hide AdmitClaim, InWindow, Filled, Own;
    }
  }

  /** What one acquisition's claims have in common: one start, few attempts, and no attempt after the deadline. */
  predicate OwnBounded(claims: seq<Claim>, a: nat) {
    var own := Own(claims, a);
    && |own| <= ATTEMPTS_MAX
    && forall c :: c in own ==> c.acquisitionStarted == own[0].acquisitionStarted
                                && c.acquisitionStarted <= c.started < c.acquisitionStarted + ACQUISITION_DEADLINE_MS
  }

  lemma {:induction false} FilledOwn(claims: seq<Claim>, a: nat)
    requires Filled(claims)
    ensures OwnBounded(claims, a)
    decreases |claims|
  {
    if claims != [] {
      var before, c := claims[..|claims| - 1], claims[|claims| - 1];
      var declared :| AdmitClaim(before, c.acquisition, declared, c.started).AdmitAttempt?
                      && c.acquisitionStarted == StartOf(before, c.acquisition, declared);
      OneAdmitted(before, c.acquisition, declared, c.started);
      FilledOwn(before, a);
      hide AdmitClaim, InWindow, Filled;
    }
  }

  /** However many acquisitions share the table: every window holds at most thirty starts, and every acquisition at most
      forty-eight, all between its start and its deadline. */
  lemma SharedQuota(claims: seq<Claim>, at: nat, a: nat)
    requires Filled(claims)
    ensures InWindow(Starts(claims), at) <= RATE_ATTEMPTS && OwnBounded(claims, a)
  {
    FilledAdmitted(claims);
    WindowBound(Starts(claims), RATE_ATTEMPTS, at);
    FilledOwn(claims, a);
  }
}
