/**
 The per-model circuit breaker (src/lyre/runtime/health_tracker.py): a sliding window of
 failures and an open/half-open/closed circuit. Times are reals; the clock is a parameter.
 */
module HealthTracker {
  import opened Wrappers

  datatype Config = Config(window: real, threshold: int, cooldown: real)

  datatype Model = Model(failures: seq<real>, openedAt: Option<real>)

  const HEALTHY := Model([], None)

  datatype Circuit = Closed | Open | HalfOpen

  function Prune(failures: seq<real>, cutoff: real): seq<real> {
    if failures != [] && failures[0] < cutoff then Prune(failures[1..], cutoff) else failures
  }

  function Fail(cfg: Config, m: Model, now: real): Model {
    var failures := Prune(m.failures, now - cfg.window) + [now];
    var tripped :=
      if m.openedAt.None? then |failures| >= cfg.threshold else now - m.openedAt.value >= cfg.cooldown;
    Model(failures, if tripped then Some(now) else m.openedAt)
  }

  function CircuitOf(cfg: Config, m: Model, now: real): Circuit {
    if m.openedAt.None? then Closed
    else if now - m.openedAt.value >= cfg.cooldown then HalfOpen
    else Open
  }

  predicate Available(cfg: Config, m: Model, now: real) {
    !CircuitOf(cfg, m, now).Open?
  }

  // ------------------------------------------------------------------
  // The event log of one model
  // ------------------------------------------------------------------

  datatype Event = Failed(at: real) | Succeeded(at: real)

  predicate Timed(log: seq<Event>) {
    forall i, j :: 0 <= i < j < |log| ==> log[i].at <= log[j].at
  }

  function Run(cfg: Config, log: seq<Event>): Model
    decreases |log|
  {
    if log == [] then HEALTHY
    else match log[|log| - 1]
      case Failed(at) => Fail(cfg, Run(cfg, log[..|log| - 1]), at)
      case Succeeded(_) => HEALTHY
  }

  /** Times of the failures since the last success that are no older than the cutoff. */
  function FailuresSince(log: seq<Event>, cutoff: real): seq<real>
    decreases |log|
  {
    if log == [] || log[|log| - 1].Succeeded? then []
    else FailuresSince(log[..|log| - 1], cutoff) + if log[|log| - 1].at >= cutoff then [log[|log| - 1].at] else []
  }

  /** The failures that count against the model at the time of its last event. */
  function Recent(cfg: Config, log: seq<Event>): seq<real> {
    if log == [] then [] else FailuresSince(log, log[|log| - 1].at - cfg.window)
  }

  predicate Sorted(s: seq<real>) {
    forall i, j :: 0 <= i < j < |s| ==> s[i] <= s[j]
  }

  lemma {:induction false} PruneConcat(a: seq<real>, x: real, cutoff: real)
    ensures Sorted(a + [x]) ==> Prune(a + [x], cutoff) == Prune(a, cutoff) + if x >= cutoff then [x] else []
  {
    if a == [] {
      assert a + [x] == [x];
      assert [x][1..] == [];
    } else if Sorted(a + [x]) {
      assert (a + [x])[0] <= (a + [x])[|a|];
      assert (a + [x])[1..] == a[1..] + [x];
      assert Sorted(a[1..] + [x]) by {
        forall i, j | 0 <= i < j < |a[1..] + [x]|
          ensures (a[1..] + [x])[i] <= (a[1..] + [x])[j]
        {
          assert (a[1..] + [x])[i] == (a + [x])[i + 1] && (a[1..] + [x])[j] == (a + [x])[j + 1];
        }
      }
      PruneConcat(a[1..], x, cutoff);
    }
  }

  lemma {:induction false} FailuresSorted(log: seq<Event>, cutoff: real)
    requires Timed(log)
    ensures Sorted(FailuresSince(log, cutoff))
    ensures forall t <- FailuresSince(log, cutoff) :: log != [] && t <= log[|log| - 1].at
    decreases |log|
  {
    if log != [] && log[|log| - 1].Failed? {
      FailuresSorted(log[..|log| - 1], cutoff);
      var f := FailuresSince(log[..|log| - 1], cutoff);
      assert forall k :: 0 <= k < |f| ==> f[k] in f;
    }
  }

  /** Dropping old failures from the front of the deque is filtering the log by a later cutoff. */
  lemma {:induction false} PruneIsFilter(log: seq<Event>, from: real, cutoff: real)
    requires Timed(log) && from <= cutoff
    ensures Prune(FailuresSince(log, from), cutoff) == FailuresSince(log, cutoff)
    decreases |log|
  {
    if log != [] && log[|log| - 1].Failed? {
      var init, t := log[..|log| - 1], log[|log| - 1].at;
      PruneIsFilter(init, from, cutoff);
      FailuresSorted(log, from);
      if t >= from {
        PruneConcat(FailuresSince(init, from), t, cutoff);
      } else {
        assert FailuresSince(init, from) + [] == FailuresSince(init, from);
        assert FailuresSince(init, cutoff) + [] == FailuresSince(init, cutoff);
      }
    }
  }

  /** After every event the deque holds exactly the failures since the last success that lie in
      the window ending at that event. */
  lemma {:induction false} DequeIsRecent(cfg: Config, log: seq<Event>)
    requires Timed(log) && cfg.window >= 0.0
    ensures Run(cfg, log).failures == Recent(cfg, log)
    decreases |log|
  {
    if log != [] && log[|log| - 1].Failed? {
      var init, t := log[..|log| - 1], log[|log| - 1].at;
      DequeIsRecent(cfg, init);
      if init != [] {
        assert log[|log| - 2].at <= log[|log| - 1].at;
        PruneIsFilter(init, init[|init| - 1].at - cfg.window, t - cfg.window);
      }
      assert Prune(Recent(cfg, init), t - cfg.window) == FailuresSince(init, t - cfg.window);
      assert t >= t - cfg.window;
    }
  }

  // ------------------------------------------------------------------
  // When the breaker trips, and for how long
  // ------------------------------------------------------------------

  /** The last event opens the circuit, or opens it anew. */
  predicate Trips(cfg: Config, log: seq<Event>) {
    log != [] && log[|log| - 1].Failed? && Run(cfg, log).openedAt != Run(cfg, log[..|log| - 1]).openedAt
  }

  /** The breaker trips on `threshold` failures in the window since the last success, or on a
      failed call at least a cooldown after the previous trip, and on nothing else. */
  lemma TripsIff(cfg: Config, log: seq<Event>, t: real)
    requires Timed(log + [Failed(t)]) && cfg.window >= 0.0 && cfg.cooldown > 0.0
    ensures Trips(cfg, log + [Failed(t)]) <==>
              if Run(cfg, log).openedAt.None? then |Recent(cfg, log + [Failed(t)])| >= cfg.threshold
              else t - Run(cfg, log).openedAt.value >= cfg.cooldown
    ensures Trips(cfg, log + [Failed(t)]) ==> Run(cfg, log + [Failed(t)]).openedAt == Some(t)
    ensures !Trips(cfg, log + [Failed(t)]) ==> Run(cfg, log + [Failed(t)]).openedAt == Run(cfg, log).openedAt
  {
    assert (log + [Failed(t)])[..|log|] == log;
    DequeIsRecent(cfg, log + [Failed(t)]);
  }

  predicate NoSuccess(log: seq<Event>) {
    forall e <- log :: e.Failed?
  }

  /** The first n events end in a failure that no success follows. */
  predicate Stands(log: seq<Event>, n: nat) {
    0 < n <= |log| && forall k :: n - 1 <= k < |log| ==> log[k].Failed?
  }

  /** The circuit is closed exactly when no failure since the last success ever completed
      `threshold` of them within one window. */
  lemma {:induction false} ClosedIff(cfg: Config, log: seq<Event>)
    requires Timed(log) && cfg.window >= 0.0
    ensures Run(cfg, log).openedAt == None <==>
            forall n: nat :: Stands(log, n) ==> |Recent(cfg, log[..n])| < cfg.threshold
    decreases |log|
  {
    if log != [] {
      var init, last := log[..|log| - 1], log[|log| - 1];
      if last.Succeeded? {
        assert forall n: nat :: !Stands(log, n);
      } else {
        ClosedIff(cfg, init);
        DequeIsRecent(cfg, log);
        assert log[..|log|] == log && Stands(log, |log|);
        forall n: nat | n < |log|
          ensures Stands(log, n) == Stands(init, n) && log[..n] == init[..n]
        {
          assert forall k :: 0 <= k < |init| ==> init[k] == log[k];
        }
      }
    }
  }

  /** When the circuit last tripped, told from the log: on the failure that completes the
      threshold, and again on a failure at least a cooldown later; a success forgets it. */
  function LastTrip(cfg: Config, log: seq<Event>): Option<real>
    decreases |log|
  {
    if log == [] || log[|log| - 1].Succeeded? then None
    else
      var at, before := log[|log| - 1].at, LastTrip(cfg, log[..|log| - 1]);
      if (if before == None then |Recent(cfg, log)| >= cfg.threshold else at >= before.value + cfg.cooldown)
      then Some(at) else before
  }

  lemma {:induction false} OpenedAtLastTrip(cfg: Config, log: seq<Event>)
    requires Timed(log) && cfg.window >= 0.0
    ensures Run(cfg, log).openedAt == LastTrip(cfg, log)
    decreases |log|
  {
    if log != [] {
      OpenedAtLastTrip(cfg, log[..|log| - 1]);
      DequeIsRecent(cfg, log);
    }
  }

  /** The circuit at any time: closed before it trips, open for a cooldown after its last trip,
      half-open from then on; calls are held back only while it is open. */
  lemma CircuitIs(cfg: Config, log: seq<Event>, now: real)
    requires Timed(log) && cfg.window >= 0.0
    ensures var trip := LastTrip(cfg, log);
            && CircuitOf(cfg, Run(cfg, log), now)
               == (if trip == None then Closed else if now < trip.value + cfg.cooldown then Open else HalfOpen)
            && (Available(cfg, Run(cfg, log), now) <==> trip == None || now >= trip.value + cfg.cooldown)
  {
    OpenedAtLastTrip(cfg, log);
  }

  /** While the cooldown lasts, failures neither extend it nor move it. */
  lemma {:induction false} OpenHolds(cfg: Config, log: seq<Event>, more: seq<Event>, since: real)
    requires Run(cfg, log).openedAt == Some(since)
    requires NoSuccess(more) && forall e <- more :: e.at - since < cfg.cooldown
    ensures Run(cfg, log + more).openedAt == Some(since)
    decreases |more|
  {
    if more == [] {
      assert log + more == log;
    } else {
      var init := more[..|more| - 1];
      assert forall e <- init :: e in more;
      assert more[|more| - 1] in more;
      OpenHolds(cfg, log, init, since);
      assert (log + more)[..|log + more| - 1] == log + init;
    }
  }

  /** A trip makes the model unavailable for exactly the cooldown: without a success, it is
      unavailable at every moment before the cooldown ends, whatever fails meanwhile, and
      available again from its end until the next call fails. */
  lemma UnavailableForExactlyCooldown(cfg: Config, log: seq<Event>, trip: real, more: seq<Event>, now: real)
    requires Timed(log + [Failed(trip)]) && cfg.window >= 0.0 && cfg.cooldown > 0.0 && Trips(cfg, log + [Failed(trip)])
    requires NoSuccess(more) && forall e <- more :: e.at - trip < cfg.cooldown
    ensures Available(cfg, Run(cfg, log + [Failed(trip)] + more), now) <==> now - trip >= cfg.cooldown
  {
    TripsIff(cfg, log, trip);
    OpenHolds(cfg, log + [Failed(trip)], more, trip);
  }

  /** The first failed call after the cooldown trips the breaker anew, however few failures the
      window holds by then. */
  lemma ProbeFailureReopens(cfg: Config, log: seq<Event>, trip: real, more: seq<Event>, probe: real)
    requires Timed(log + [Failed(trip)] + more + [Failed(probe)]) && cfg.window >= 0.0 && cfg.cooldown > 0.0
    requires Timed(log + [Failed(trip)]) && Trips(cfg, log + [Failed(trip)])
    requires NoSuccess(more) && forall e <- more :: e.at - trip < cfg.cooldown
    requires probe - trip >= cfg.cooldown
    ensures Trips(cfg, log + [Failed(trip)] + more + [Failed(probe)])
    ensures !Available(cfg, Run(cfg, log + [Failed(trip)] + more + [Failed(probe)]), probe)
  {
    TripsIff(cfg, log, trip);
    OpenHolds(cfg, log + [Failed(trip)], more, trip);
    TripsIff(cfg, log + [Failed(trip)] + more, probe);
  }

  // ------------------------------------------------------------------
  // The object
  // ------------------------------------------------------------------

  function Get(models: map<string, Model>, id: string): Model {
    if id in models then models[id] else HEALTHY
  }

  class Tracker {
    const cfg: Config
    var models: map<string, Model>

    constructor (cfg: Config)
      ensures this.cfg == cfg && models == map[]
    {
      this.cfg := cfg;
      models := map[];
    }

    method PruneOld(failures: seq<real>, now: real) returns (kept: seq<real>)
      ensures kept == Prune(failures, now - cfg.window)
    {
      var cutoff := now - cfg.window;
      kept := failures;
      while kept != [] && kept[0] < cutoff
        invariant Prune(kept, cutoff) == Prune(failures, cutoff)
      {
        kept := kept[1..];
      }
    }

    method MarkFailure(id: string, now: real)
      modifies this
      ensures models == old(models)[id := Fail(cfg, Get(old(models), id), now)]
    {
      var m := Get(models, id);
      var failures := PruneOld(m.failures, now);
      failures := failures + [now];
      var openedAt := m.openedAt;
      if openedAt.None? {
        if |failures| >= cfg.threshold {
          openedAt := Some(now);
        }
      } else if now - openedAt.value >= cfg.cooldown {
        openedAt := Some(now);
      }
      models := models[id := Model(failures, openedAt)];
    }

    method MarkSuccess(id: string)
      modifies this
      ensures models == old(models)[id := HEALTHY]
    {
      models := models[id := HEALTHY];
    }

    /** Reading a model's circuit creates its entry. */
    method State(id: string, now: real) returns (c: Circuit)
      modifies this
      ensures c == CircuitOf(cfg, Get(old(models), id), now)
      ensures models == old(models)[id := Get(old(models), id)]
    {
      var m := Get(models, id);
      models := models[id := m];
      if m.openedAt.None? {
        return Closed;
      }
      return if now - m.openedAt.value >= cfg.cooldown then HalfOpen else Open;
    }
  }
}
