/**
 The restart-intensity limiter (`bump_and_check_intensity` and `mark_escalated` in
 src/lyre/persistence/sqlite_impl.py): a fixed-start window counter beside a lifetime total.
 */
module RestartIntensity {
  import opened Wrappers

  datatype Row = Row(count: nat, total: nat, windowStart: int, escalatedAt: Option<int>)

  datatype Limits = Limits(maxRestarts: int, maxSeconds: int)

  /** A restart says whether it is charged to the lifetime total, and brings the limit on it. */
  datatype Call =
    | Bump(now: int, charged: bool, maxTotal: Option<int>)
    | Escalate(now: int)

  /** The row after a restart is recorded. */
  function Bumped(row: Option<Row>, lim: Limits, now: int, charged: bool): Row {
    var total := (if row.Some? then row.value.total else 0) + (if charged then 1 else 0);
    var escalatedAt := if row.Some? then row.value.escalatedAt else None;
    if row.None? || now - row.value.windowStart > lim.maxSeconds then Row(1, total, now, escalatedAt)
    else Row(row.value.count + 1, total, row.value.windowStart, escalatedAt)
  }

  predicate HasRoom(total: nat, maxTotal: Option<int>) {
    maxTotal.Some? ==> total <= maxTotal.value
  }

  function Next(row: Option<Row>, lim: Limits, c: Call): Option<Row> {
    match c
    case Bump(now, charged, _) => Some(Bumped(row, lim, now, charged))
    case Escalate(now) =>
      if row.Some? then Some(row.value.(escalatedAt := Some(now))) else Some(Row(0, 0, now, Some(now)))
  }

  /** The call is a restart and answers True: the caller may restart the agent. */
  predicate Allowed(row: Option<Row>, lim: Limits, c: Call) {
    c.Bump? &&
    var r := Bumped(row, lim, c.now, c.charged);
    r.count <= lim.maxRestarts && HasRoom(r.total, c.maxTotal)
  }

  predicate Timed(calls: seq<Call>, from: int)
    decreases |calls|
  {
    calls != [] ==> from <= calls[0].now && Timed(calls[1..], calls[0].now)
  }

  /** How many calls in the closed interval from a to b answer True. */
  function AllowedIn(row: Option<Row>, lim: Limits, calls: seq<Call>, a: int, b: int): nat
    decreases |calls|
  {
    if calls == [] then 0
    else
      (if a <= calls[0].now <= b && Allowed(row, lim, calls[0]) then 1 else 0)
      + AllowedIn(Next(row, lim, calls[0]), lim, calls[1..], a, b)
  }

  // ------------------------------------------------------------------
  // The bound on any interval
  // ------------------------------------------------------------------

  function Max(a: int, b: int): int {
    if a > b then a else b
  }

  /** How many more calls the window that is open can allow. */
  function LeftInWindow(row: Option<Row>, lim: Limits): nat {
    if row.None? then 0 else Max(0, lim.maxRestarts - row.value.count)
  }

  /** How many calls after time `from` can still answer True within [a, a + maxSeconds]: what
      the open window has left, and a whole window more if it opened before a. A window that
      opens inside the interval outlasts it. */
  function Budget(row: Option<Row>, lim: Limits, a: int, from: int, before: nat): nat {
    var whole := Max(0, lim.maxRestarts);
    if from > a + lim.maxSeconds then 0
    else if from < a then before
    else if row.None? then whole
    else if row.value.windowStart < a then LeftInWindow(row, lim) + whole
    else LeftInWindow(row, lim)
  }

  /** Every row counts a restart: none was made by escalating an agent never restarted. */
  predicate Counted(row: Option<Row>, calls: seq<Call>) {
    if row.Some? then row.value.count >= 1 else calls == [] || calls[0].Bump?
  }

  lemma {:induction false} BudgetHolds(row: Option<Row>, lim: Limits, calls: seq<Call>, from: int, a: int, before: nat)
    requires Timed(calls, from) && (row.Some? ==> row.value.windowStart <= from)
    requires before == 2 * lim.maxRestarts || lim.maxRestarts < 0
             || (before == 2 * lim.maxRestarts - 1 && Counted(row, calls))
    ensures AllowedIn(row, lim, calls, a, a + lim.maxSeconds) <= Budget(row, lim, a, from, before)
    decreases |calls|
  {
    if calls != [] {
      BudgetHolds(Next(row, lim, calls[0]), lim, calls[1..], calls[0].now, a, before);
    }
  }

  /** Any closed interval of maxSeconds holds at most twice maxRestarts allowed restarts, and
      one fewer unless the agent was escalated before its first restart. */
  lemma RestartsAreBounded(lim: Limits, calls: seq<Call>, from: int, a: int)
    requires Timed(calls, from)
    ensures AllowedIn(None, lim, calls, a, a + lim.maxSeconds) <= Max(0, 2 * lim.maxRestarts)
    ensures lim.maxRestarts >= 1 && Counted(None, calls) ==>
              AllowedIn(None, lim, calls, a, a + lim.maxSeconds) <= 2 * lim.maxRestarts - 1
  {
    BudgetHolds(None, lim, calls, from, a, Max(0, 2 * lim.maxRestarts));
    if lim.maxRestarts >= 1 && Counted(None, calls) {
      BudgetHolds(None, lim, calls, from, a, 2 * lim.maxRestarts - 1);
    }
  }

  // ------------------------------------------------------------------
  // Both bounds are reached: maxRestarts alone is not the bound
  // ------------------------------------------------------------------

  function Burst(n: nat, now: int, maxTotal: Option<int>): seq<Call>
    decreases n
  {
    if n == 0 then [] else [Bump(now, false, maxTotal)] + Burst(n - 1, now, maxTotal)
  }

  /** A burst that the open window has room for is allowed in full. */
  lemma {:induction false} BurstIsAllowed(row: Row, lim: Limits, n: nat, now: int, maxTotal: Option<int>,
                                          rest: seq<Call>, a: int, b: int)
    requires a <= now <= b && 0 <= now - row.windowStart <= lim.maxSeconds
    requires row.count + n <= lim.maxRestarts && HasRoom(row.total, maxTotal)
    ensures AllowedIn(Some(row), lim, Burst(n, now, maxTotal) + rest, a, b)
         == n + AllowedIn(Some(row.(count := row.count + n)), lim, rest, a, b)
    decreases n
  {
    if n == 0 {
      assert Burst(n, now, maxTotal) + rest == rest;
      assert row.(count := row.count + n) == row;
    } else {
      var calls := Burst(n, now, maxTotal) + rest;
      assert calls[0] == Bump(now, false, maxTotal) && calls[1..] == Burst(n - 1, now, maxTotal) + rest;
      BurstIsAllowed(row.(count := row.count + 1), lim, n - 1, now, maxTotal, rest, a, b);
      assert Next(Some(row), lim, calls[0]) == Some(row.(count := row.count + 1));
    }
  }

  /** A burst just after the window ran out opens a new one and is allowed in full. */
  lemma BurstOpensWindow(row: Row, lim: Limits, now: int, maxTotal: Option<int>, a: int, b: int)
    requires lim.maxRestarts >= 1 && lim.maxSeconds >= 1 && HasRoom(row.total, maxTotal)
    requires now - row.windowStart > lim.maxSeconds && a <= now <= b
    ensures AllowedIn(Some(row), lim, Burst(lim.maxRestarts, now, maxTotal), a, b) == lim.maxRestarts
  {
    var r := lim.maxRestarts;
    var anew := Row(1, row.total, now, row.escalatedAt);
    var burst := Burst(r, now, maxTotal);
    assert burst[0] == Bump(now, false, maxTotal) && burst[1..] == Burst(r - 1, now, maxTotal) + [];
    assert Next(Some(row), lim, burst[0]) == Some(anew) && Allowed(Some(row), lim, burst[0]);
    BurstIsAllowed(anew, lim, r - 1, now, maxTotal, [], a, b);
    assert AllowedIn(Some(anew.(count := r)), lim, [], a, b) == 0;
  }

  /** maxRestarts restarts at the end of one window and as many at the start of the next. */
  function TwoBursts(lim: Limits, n: nat, maxTotal: Option<int>): seq<Call>
    requires lim.maxRestarts >= 0
  {
    Burst(n, lim.maxSeconds, maxTotal) + Burst(lim.maxRestarts, lim.maxSeconds + 1, maxTotal)
  }

  lemma BurstsAcrossWindows(row: Row, lim: Limits, n: nat, maxTotal: Option<int>)
    requires lim.maxRestarts >= 1 && lim.maxSeconds >= 1 && HasRoom(row.total, maxTotal)
    requires row.windowStart == 0 && row.count + n == lim.maxRestarts
    ensures var s := lim.maxSeconds;
            AllowedIn(Some(row), lim, TwoBursts(lim, n, maxTotal), s, s + s) == n + lim.maxRestarts
  {
    hide AllowedIn, Burst;
    var s, r := lim.maxSeconds, lim.maxRestarts;
    BurstIsAllowed(row, lim, n, s, maxTotal, Burst(r, s + 1, maxTotal), s, s + s);
    BurstOpensWindow(row.(count := row.count + n), lim, s + 1, maxTotal, s, s + s);
  }

  /** An escalation before the first restart, then twice maxRestarts restarts. */
  function AfterEscalation(lim: Limits, maxTotal: Option<int>): seq<Call>
    requires lim.maxRestarts >= 1
  {
    [Escalate(0)] + TwoBursts(lim, lim.maxRestarts, maxTotal)
  }

  /** No escalation, and one restart fewer. */
  function AfterRestart(lim: Limits, maxTotal: Option<int>): seq<Call>
    requires lim.maxRestarts >= 1
  {
    [Bump(0, false, maxTotal)] + TwoBursts(lim, lim.maxRestarts - 1, maxTotal)
  }

  /** With a window that lasts and room under the total both bounds of RestartsAreBounded are
      reached. */
  lemma BoundsAreReached(lim: Limits, maxTotal: Option<int>)
    requires lim.maxRestarts >= 1 && lim.maxSeconds >= 1 && HasRoom(0, maxTotal)
    ensures var r, s := lim.maxRestarts, lim.maxSeconds;
            && AllowedIn(None, lim, AfterEscalation(lim, maxTotal), s, s + s) == 2 * r
            && AllowedIn(None, lim, AfterRestart(lim, maxTotal), s, s + s) == 2 * r - 1
  {
    var r := lim.maxRestarts;
    var x, y := AfterEscalation(lim, maxTotal), AfterRestart(lim, maxTotal);
    assert x[1..] == TwoBursts(lim, r, maxTotal) && y[1..] == TwoBursts(lim, r - 1, maxTotal);
    hide TwoBursts;
    BurstsAcrossWindows(Row(0, 0, 0, Some(0)), lim, r, maxTotal);
    BurstsAcrossWindows(Row(1, 0, 0, None), lim, r - 1, maxTotal);
  }

  // ------------------------------------------------------------------
  // When maxRestarts is the bound
  // ------------------------------------------------------------------

  /** How the restarts of a run bring their limit on the total: as they please, all the same
      one, or, as the scheduler does, one limit when charged and none otherwise. */
  datatype Use = Anyhow | Always(maxTotal: Option<int>) | WhenCharged(maxTotal: Option<int>)

  function LimitOf(use: Use, charged: bool): Option<int> {
    match use
    case Anyhow => None
    case Always(n) => n
    case WhenCharged(n) => if charged then n else None
  }

  predicate Follows(use: Use, calls: seq<Call>) {
    forall c <- calls :: c.Bump? && !use.Anyhow? ==> c.maxTotal == LimitOf(use, c.charged)
  }

  /** At most maxRestarts restarts are allowed from a on for maxSeconds. */
  predicate WithinBound(lim: Limits, calls: seq<Call>, a: int) {
    AllowedIn(None, lim, calls, a, a + lim.maxSeconds) <= Max(0, lim.maxRestarts)
  }

  /** The documented bound: it holds of every run and every interval. */
  ghost predicate DocumentedBound(lim: Limits, use: Use) {
    forall calls, from, a :: Timed(calls, from) && Follows(use, calls) ==> WithinBound(lim, calls, a)
  }

  /** The same of the runs in which no escalation comes before the first restart. */
  ghost predicate DocumentedBoundCounted(lim: Limits, use: Use) {
    forall calls, from, a :: Timed(calls, from) && Follows(use, calls) && Counted(None, calls) ==> WithinBound(lim, calls, a)
  }

  /** No restart is ever allowed, or a window ends with the instant it opens in. */
  predicate NoSecondWindow(lim: Limits, use: Use) {
    lim.maxRestarts <= 0 || lim.maxSeconds <= 0 || (use.Always? && !HasRoom(0, use.maxTotal))
  }

  /** A limit below zero that every restart brings allows none, charged or not. */
  lemma {:induction false} NegativeTotalAllowsNothing(row: Option<Row>, lim: Limits, use: Use, calls: seq<Call>, a: int, b: int)
    requires use.Always? && !HasRoom(0, use.maxTotal) && Follows(use, calls)
    ensures AllowedIn(row, lim, calls, a, b) == 0
    decreases |calls|
  {
    if calls != [] {
      assert calls[0] in calls && forall c <- calls[1..] :: c in calls;
      NegativeTotalAllowsNothing(Next(row, lim, calls[0]), lim, use, calls[1..], a, b);
    }
  }

  /** With a window of no length an instant has one window, and what is left in it. */
  lemma {:induction false} InstantHasOneWindow(row: Option<Row>, lim: Limits, calls: seq<Call>, from: int, a: int)
    requires lim.maxSeconds <= 0 && Timed(calls, from) && (row.Some? ==> row.value.windowStart <= from)
    ensures AllowedIn(row, lim, calls, a, a + lim.maxSeconds)
         <= if from > a || lim.maxSeconds < 0 then 0
            else if row.Some? && row.value.windowStart >= a then LeftInWindow(row, lim)
            else Max(0, lim.maxRestarts)
    decreases |calls|
  {
    if calls != [] {
      InstantHasOneWindow(Next(row, lim, calls[0]), lim, calls[1..], calls[0].now, a);
    }
  }

  lemma BoundHolds(lim: Limits, use: Use, calls: seq<Call>, from: int, a: int)
    requires Timed(calls, from) && Follows(use, calls)
    requires NoSecondWindow(lim, use) || (lim.maxRestarts == 1 && Counted(None, calls))
    ensures WithinBound(lim, calls, a)
  {
    RestartsAreBounded(lim, calls, from, a);
    if lim.maxSeconds <= 0 {
      InstantHasOneWindow(None, lim, calls, from, a);
    } else if use.Always? && !HasRoom(0, use.maxTotal) {
      NegativeTotalAllowsNothing(None, lim, use, calls, a, a + lim.maxSeconds);
    }
  }

  lemma {:induction false} BurstFits(n: nat, now: int, maxTotal: Option<int>, rest: seq<Call>)
    requires Timed(rest, now)
    ensures Timed(Burst(n, now, maxTotal) + rest, now)
    ensures forall c <- Burst(n, now, maxTotal) :: c == Bump(now, false, maxTotal)
    decreases n
  {
    if n == 0 {
      assert Burst(n, now, maxTotal) + rest == rest;
    } else {
      BurstFits(n - 1, now, maxTotal, rest);
      assert (Burst(n, now, maxTotal) + rest)[1..] == Burst(n - 1, now, maxTotal) + rest;
    }
  }

  /** The calls that reach the bounds are runs of the kind considered. */
  lemma ReachingRunsFit(lim: Limits, use: Use, first: Call, n: nat)
    requires lim.maxRestarts >= 1 && lim.maxSeconds >= 1 && first.now == 0
    requires first.Bump? ==> first == Bump(0, false, LimitOf(use, false))
    ensures var calls := [first] + TwoBursts(lim, n, LimitOf(use, false));
            Timed(calls, 0) && Follows(use, calls)
  {
    var s, total := lim.maxSeconds, LimitOf(use, false);
    var later := Burst(lim.maxRestarts, s + 1, total);
    BurstFits(lim.maxRestarts, s + 1, total, []);
    assert later + [] == later;
    assert Timed(later, s) by { assert later[0] == Bump(s + 1, false, total); }
    BurstFits(n, s, total, later);
    var calls := [first] + TwoBursts(lim, n, total);
    assert calls[1..] == Burst(n, s, total) + later;
    FirstIsNoEarlier(calls[1..], s);
  }

  lemma FirstIsNoEarlier(calls: seq<Call>, from: int)
    requires Timed(calls, from) && from >= 0
    ensures Timed(calls, 0)
  {
  }

  /** Exactly when the documented bound holds, over all runs and all intervals: when nothing is
      allowed at all, or a window has no length. Where it fails twice maxRestarts is the bound. */
  lemma DocumentedBoundIff(lim: Limits, use: Use)
    ensures DocumentedBound(lim, use) <==> NoSecondWindow(lim, use)
  {
    if NoSecondWindow(lim, use) {
      forall calls, from, a | Timed(calls, from) && Follows(use, calls)
        ensures WithinBound(lim, calls, a)
      {
        BoundHolds(lim, use, calls, from, a);
      }
    } else {
      var total := LimitOf(use, false);
      BoundsAreReached(lim, total);
      ReachingRunsFit(lim, use, Escalate(0), lim.maxRestarts);
      assert !WithinBound(lim, AfterEscalation(lim, total), lim.maxSeconds);
    }
  }

  /** When no escalation comes before the first restart, it also holds of a single restart. */
  lemma DocumentedBoundCountedIff(lim: Limits, use: Use)
    ensures DocumentedBoundCounted(lim, use) <==> NoSecondWindow(lim, use) || lim.maxRestarts == 1
  {
    if NoSecondWindow(lim, use) || lim.maxRestarts == 1 {
      forall calls, from, a | Timed(calls, from) && Follows(use, calls) && Counted(None, calls)
        ensures WithinBound(lim, calls, a)
      {
        BoundHolds(lim, use, calls, from, a);
      }
    } else {
      var total := LimitOf(use, false);
      BoundsAreReached(lim, total);
      ReachingRunsFit(lim, use, Bump(0, false, total), lim.maxRestarts - 1);
      assert Counted(None, AfterRestart(lim, total));
      assert !WithinBound(lim, AfterRestart(lim, total), lim.maxSeconds);
    }
  }

  // ------------------------------------------------------------------
  // The lifetime bound
  // ------------------------------------------------------------------

  /** How many calls that charge the lifetime total answer True. */
  function ChargedAllowed(row: Option<Row>, lim: Limits, calls: seq<Call>): nat
    decreases |calls|
  {
    if calls == [] then 0
    else
      (if Allowed(row, lim, calls[0]) && calls[0].charged then 1 else 0)
      + ChargedAllowed(Next(row, lim, calls[0]), lim, calls[1..])
  }

  /** Every charged restart brings a limit, of at most n; others need not bring one. */
  predicate ChargedUnder(calls: seq<Call>, n: int) {
    forall c <- calls :: c.Bump? && c.charged ==> c.maxTotal.Some? && c.maxTotal.value <= n
  }

  lemma {:induction false} LifetimeBudget(row: Option<Row>, lim: Limits, calls: seq<Call>, n: int)
    requires ChargedUnder(calls, n)
    ensures ChargedAllowed(row, lim, calls) <= Max(0, n - if row.Some? then row.value.total else 0)
    decreases |calls|
  {
    if calls != [] {
      assert calls[0] in calls && forall c <- calls[1..] :: c in calls;
      LifetimeBudget(Next(row, lim, calls[0]), lim, calls[1..], n);
    }
  }

  /** Whatever the windows do, and whatever limit uncharged restarts bring, at most as many
      charged restarts are ever allowed as the largest limit they bring. */
  lemma LifetimeIsBounded(lim: Limits, calls: seq<Call>, n: int)
    requires ChargedUnder(calls, n)
    ensures ChargedAllowed(None, lim, calls) <= Max(0, n)
  {
    LifetimeBudget(None, lim, calls, n);
  }

  function RunRow(row: Option<Row>, lim: Limits, calls: seq<Call>): Option<Row>
    decreases |calls|
  {
    if calls == [] then row else RunRow(Next(row, lim, calls[0]), lim, calls[1..])
  }

  function ChargedIn(calls: seq<Call>): nat {
    if calls == [] then 0
    else ChargedIn(calls[..|calls| - 1]) + if calls[|calls| - 1].Bump? && calls[|calls| - 1].charged then 1 else 0
  }

  function LastEscalation(calls: seq<Call>): Option<int> {
    if calls == [] then None
    else if calls[|calls| - 1].Escalate? then Some(calls[|calls| - 1].now)
    else LastEscalation(calls[..|calls| - 1])
  }

  lemma {:induction false} RunRowAppend(row: Option<Row>, lim: Limits, calls: seq<Call>, c: Call)
    ensures RunRow(row, lim, calls + [c]) == Next(RunRow(row, lim, calls), lim, c)
    decreases |calls|
  {
    hide Next;
    if calls == [] {
      assert calls + [c] == [c] && [c][1..] == [];
    } else {
      assert (calls + [c])[1..] == calls[1..] + [c];
      RunRowAppend(Next(row, lim, calls[0]), lim, calls[1..], c);
    }
  }

  /** What the row of an agent records: every charged restart, whether it was allowed or not, and
      when the agent was last escalated. */
  lemma {:induction false} RowRecords(lim: Limits, calls: seq<Call>)
    ensures var row := RunRow(None, lim, calls);
            && (row == None <==> calls == [])
            && (row.Some? ==> row.value.total == ChargedIn(calls) && row.value.escalatedAt == LastEscalation(calls))
  {
    hide RunRow, ChargedIn, LastEscalation;
    NothingRecorded(lim);
    if calls != [] {
      var init, last := calls[..|calls| - 1], calls[|calls| - 1];
      assert calls == init + [last];
      RowRecords(lim, init);
      RunRowAppend(None, lim, init, last);
      OneMoreCall(init, last);
    }
  }

  lemma NothingRecorded(lim: Limits)
    ensures RunRow(None, lim, []) == None && ChargedIn([]) == 0 && LastEscalation([]) == None
  {
  }

  lemma OneMoreCall(calls: seq<Call>, c: Call)
    ensures ChargedIn(calls + [c]) == ChargedIn(calls) + if c.Bump? && c.charged then 1 else 0
    ensures LastEscalation(calls + [c]) == if c.Escalate? then Some(c.now) else LastEscalation(calls)
  {
    assert (calls + [c])[..|calls|] == calls;
  }

  /** Charged restarts far enough apart that each opens a window of its own. */
  function Apart(lim: Limits, now: int, k: nat, n: int): seq<Call>
    decreases k
  {
    if k == 0 then []
    else [Bump(now, true, Some(n))] + Apart(lim, now + 1 + if lim.maxSeconds > 0 then lim.maxSeconds else 0, k - 1, n)
  }

  lemma {:induction false} ApartAllowed(row: Option<Row>, lim: Limits, now: int, k: nat, n: int)
    requires lim.maxRestarts >= 1 && (row.Some? ==> now - row.value.windowStart > lim.maxSeconds)
    ensures var total := if row.Some? then row.value.total else 0;
            ChargedAllowed(row, lim, Apart(lim, now, k, n)) == if k <= n - total then k else Max(0, n - total)
    decreases k
  {
    if k > 0 {
      var calls := Apart(lim, now, k, n);
      var later := now + 1 + if lim.maxSeconds > 0 then lim.maxSeconds else 0;
      assert calls[1..] == Apart(lim, later, k - 1, n);
      ApartAllowed(Next(row, lim, calls[0]), lim, later, k - 1, n);
    }
  }

  /** The lifetime bound is reached: of enough charged restarts that no window holds back, exactly
      as many are allowed as the limit says. */
  lemma LifetimeIsReached(lim: Limits, k: nat, n: nat)
    requires lim.maxRestarts >= 1 && k >= n
    ensures ChargedAllowed(None, lim, Apart(lim, 0, k, n)) == n && ChargedUnder(Apart(lim, 0, k, n), n)
  {
    ApartAllowed(None, lim, 0, k, n);
    ApartUnder(lim, 0, k, n);
  }

  lemma {:induction false} ApartUnder(lim: Limits, now: int, k: nat, n: int)
    ensures ChargedUnder(Apart(lim, now, k, n), n)
    decreases k
  {
    if k > 0 { ApartUnder(lim, now + 1 + if lim.maxSeconds > 0 then lim.maxSeconds else 0, k - 1, n); }
  }

  // ------------------------------------------------------------------
  // The repository object: one agent's row
  // ------------------------------------------------------------------

  class SupervisionRow {
    var row: Option<Row>

    constructor ()
      ensures row == None
    {
      row := None;
    }

    method BumpAndCheckIntensity(lim: Limits, now: int, charged: bool, maxTotal: Option<int>) returns (ok: bool)
      modifies this
      ensures row == Next(old(row), lim, Bump(now, charged, maxTotal))
      ensures ok == Allowed(old(row), lim, Bump(now, charged, maxTotal))
    {
      var count, windowStart := 1, now;
      var total := if charged then 1 else 0;
      var escalatedAt := None;
      if row.Some? {
        if now - row.value.windowStart <= lim.maxSeconds {
          count, windowStart := row.value.count + 1, row.value.windowStart;
        }
        total := total + row.value.total;
        escalatedAt := row.value.escalatedAt;
      }
      row := Some(Row(count, total, windowStart, escalatedAt));
      return count <= lim.maxRestarts && (maxTotal == None || total <= maxTotal.value);
    }

    method MarkEscalated(lim: Limits, now: int)
      modifies this
      ensures row == Next(old(row), lim, Escalate(now))
    {
      if row.None? {
        row := Some(Row(0, 0, now, Some(now)));
      } else {
        row := Some(row.value.(escalatedAt := Some(now)));
      }
    }
  }
}
