/** What can happen to a half-open probe while it is still in flight
    (internal/quota/store.go). */
module QuotaProbes {
  import opened Domain
  import opened Quota
  import opened QuotaLedger
  import opened QuotaRuns

  // ----- an open breaker has reached its threshold --------------------------------------------

  ghost predicate Tripped(q: Snapshot) { q.breakerUntil.Some? ==> q.failures >= q.threshold }

  ghost predicate AllTripped(db: Db) { forall g :: g in db.quotas ==> Tripped(db.quotas[g]) }

  /** The step does not raise the failure threshold of a configured group. */
  ghost predicate KeepsThreshold(db: Db, step: Step) {
    step.Configure? && step.config.group in db.quotas ==> step.config.threshold <= db.quotas[step.config.group].threshold
  }

  lemma SweepTripped(q: Snapshot, rows: seq<Reservation>, group: string, now: Instant)
    requires Tripped(q) && (q.probe.Some? ==> q.breakerUntil.Some?) && SweepQuota(Rotate(q, now), rows, group, now).Some?
    ensures Tripped(SweepQuota(Rotate(q, now), rows, group, now).value)
  {
    hide ProbeOverdue, OverdueCount, Find;
  }

  lemma EffectTripped(q: Snapshot, r: Reservation, now: Instant, action: Action)
    requires Tripped(q) && (q.probe.Some? ==> q.breakerUntil.Some?) && ActEffect(Rotate(q, now), r, now, action).Success?
    ensures Tripped(ActEffect(Rotate(q, now), r, now, action).value.q)
  {}

  lemma ReserveTripped(db: Db, r: Request, now: Instant)
    requires AllTripped(db) && (r.group in db.quotas && db.quotas[r.group].probe.Some? ==> db.quotas[r.group].breakerUntil.Some?)
    ensures AllTripped(Quota.Reserve(db, r, now).0)
  {
    hide SweepQuota, SweepRows, Rotate, Find, ValidRequest, Fresh, DenialOf;
    if r.group in db.quotas && SweepQuota(Rotate(db.quotas[r.group], now), db.rows, r.group, now).Some? {
      SweepTripped(db.quotas[r.group], db.rows, r.group, now);
    }
  }

  lemma DoTripped(db: Db, step: Step)
    requires Inv(db) && AllTripped(db) && KeepsThreshold(db, step)
    ensures AllTripped(Do(db, step))
  {
    hide Inv, SweepQuota, SweepRows, ActEffect, Rotate, Find, ValidRequest, ValidAction, Quota.Reserve, OverdueCount;
    forall g | g in db.quotas ensures db.quotas[g].probe.Some? ==> db.quotas[g].breakerUntil.Some? {
      ProbeNeedsOpen(db, g);
    }
    match step
    case Configure(c, now) =>
    case Reserve(r, now) => ReserveTripped(db, r, now);
    case Mutate(key, action, now) =>
      var i := Find(db.rows, key);
      if i < |db.rows| && db.rows[i].request.group in db.quotas {
        var q := db.quotas[db.rows[i].request.group];
        if ActEffect(Rotate(q, now), db.rows[i], now, action).Success? {
          EffectTripped(q, db.rows[i], now, action);
        }
      }
    case Expire(group, now) =>
      if group in db.quotas && SweepQuota(Rotate(db.quotas[group], now), db.rows, group, now).Some? {
        SweepTripped(db.quotas[group], db.rows, group, now);
      }
  }

  ghost predicate ThresholdsKept(steps: seq<Step>) {
    forall i :: 0 <= i < |steps| ==> KeepsThreshold(Exec(EMPTY, steps[..i]), steps[i])
  }

  /** Unless a configuration raised the threshold, an open breaker means that the
      failures have reached it. */
  lemma {:induction false} OpenMeansTripped(steps: seq<Step>)
    requires ThresholdsKept(steps)
    ensures AllTripped(Exec(EMPTY, steps))
  {
    hide Inv, Do, KeepsThreshold, AllTripped;
    if steps == [] {
      NothingTripped();
    } else {
      var rest := steps[..|steps| - 1];
      assert forall i :: 0 <= i < |rest| ==> rest[..i] == steps[..i];
      OpenMeansTripped(rest);
      EmptyInv();
      ExecInv(EMPTY, rest);
      DoTripped(Exec(EMPTY, rest), steps[|steps| - 1]);
    }
  }

  lemma NothingTripped()
    ensures AllTripped(EMPTY)
  {}

  // ----- when another request's transaction discards a live probe ---------------------------------

  /** The probe's reservation still has time. */
  ghost predicate LiveProbe(db: Db, group: string, probe: Key, now: Instant) {
    && group in db.quotas && db.quotas[group].probe == Some(probe)
    && Find(db.rows, probe) < |db.rows| && now < db.rows[Find(db.rows, probe)].request.deadline
  }

  /** The first outcome reported for a dispatched reservation of the group. */
  ghost predicate FirstReport(db: Db, step: Step, group: string, outcome: Outcome) {
    && step.Mutate? && step.action == RecordOutcome(outcome) && Find(db.rows, step.key) < |db.rows|
    && var r := db.rows[Find(db.rows, step.key)]; r.request.group == group && r.dispatchedAt.Some? && r.outcome.None?
  }

  lemma SweepSparesLive(q: Snapshot, rows: seq<Reservation>, group: string, now: Instant)
    requires q.probe.Some? && KeysUnique(rows)
    requires Find(rows, q.probe.value) < |rows| && now < rows[Find(rows, q.probe.value)].request.deadline
    ensures SweepQuota(Rotate(q, now), rows, group, now).Some?
    ensures var v := SweepQuota(Rotate(q, now), rows, group, now).value; v.probe == q.probe && v.breakerUntil == q.breakerUntil
  {
    hide OverdueCount;
    forall i | 0 <= i < |rows| && rows[i].request.key == q.probe.value ensures !Overdue(rows[i], group, now) {
      FindAt(rows, i);
    }
  }

  lemma EffectDiscards(q: Snapshot, r: Reservation, now: Instant, action: Action)
    requires q.probe.Some? && q.breakerUntil.Some? && !OwnsProbe(q, r) && ActEffect(Rotate(q, now), r, now, action).Success?
    ensures var v := ActEffect(Rotate(q, now), r, now, action).value.q;
      v.probe != q.probe <==> action == RecordOutcome(Failed) && r.outcome.None? && q.failures + 1 >= q.threshold
  {}

  lemma ReserveSparesLive(db: Db, r: Request, now: Instant, group: string, probe: Key)
    requires Inv(db) && LiveProbe(db, group, probe, now)
    ensures var v := Quota.Reserve(db, r, now).0; group in v.quotas && v.quotas[group].probe == Some(probe)
  {
    hide Inv, SweepQuota, SweepRows, Rotate, Find, ValidRequest, Fresh, KeysUnique, Admit;
    ProbeNeedsOpen(db, group);
    KeysAreUnique(db);
    if r.group == group {
      SweepSparesLive(db.quotas[group], db.rows, group, now);
      ProbeDenies(SweepQuota(Rotate(db.quotas[group], now), db.rows, group, now).value, r, now);
      hide DenialOf;
    } else {
      ReserveElsewhere(db, r, now, group);
    }
  }

  lemma ProbeDenies(q: Snapshot, r: Request, now: Instant)
    requires q.breakerUntil.Some? && q.probe.Some?
    ensures DenialOf(q, r, now).Some?
  {}

  lemma KeysAreUnique(db: Db)
    requires Inv(db)
    ensures KeysUnique(db.rows)
  {}

  lemma MutateDiscards(db: Db, key: Key, action: Action, now: Instant, group: string, probe: Key)
    requires Inv(db) && LiveProbe(db, group, probe, now) && key != probe
    ensures var v := Quota.Mutate(db, key, action, now).0;
      && group in v.quotas
      && (v.quotas[group].probe != Some(probe) <==>
            FirstReport(db, Step.Mutate(key, action, now), group, Failed) && db.quotas[group].failures + 1 >= db.quotas[group].threshold)
  {
    ProbeNeedsOpen(db, group);
    hide Inv, Rotate, ActEffect, Find, KeysUnique;
    var i := Find(db.rows, key);
    if i < |db.rows| && db.rows[i].request.group == group && ValidAction(action) {
      var e := ActEffect(Rotate(db.quotas[group], now), db.rows[i], now, action);
      FirstReportAccepted(Rotate(db.quotas[group], now), db.rows[i], now, action);
      if e.Success? {
        EffectDiscards(db.quotas[group], db.rows[i], now, action);
        ReportNeedsDispatch(Rotate(db.quotas[group], now), db.rows[i], now, action);
      }
    }
  }

  lemma FirstReportAccepted(q: Snapshot, r: Reservation, now: Instant, action: Action)
    ensures action.RecordOutcome? && r.outcome.None? && r.dispatchedAt.Some? ==> ActEffect(q, r, now, action).Success?
  {}

  lemma ReportNeedsDispatch(q: Snapshot, r: Reservation, now: Instant, action: Action)
    requires ActEffect(q, r, now, action).Success?
    ensures action.RecordOutcome? && r.outcome.None? ==> r.dispatchedAt.Some?
  {}

  /** A live probe is discarded by another key's transaction exactly when that
      transaction is a first failure report that meets the threshold. */
  lemma ProbeDiscardedIff(db: Db, step: Step, group: string, probe: Key)
    requires Inv(db) && LiveProbe(db, group, probe, step.now) && (step.Mutate? ==> step.key != probe)
    ensures group in Do(db, step).quotas
    ensures Do(db, step).quotas[group].probe != Some(probe) <==>
      FirstReport(db, step, group, Failed) && db.quotas[group].failures + 1 >= db.quotas[group].threshold
  {
    KeysAreUnique(db);
    hide Inv, SweepQuota, SweepRows, Rotate, Find, Quota.Mutate, Quota.Reserve, KeysUnique, OverdueCount;
    match step
    case Configure(c, now) =>
    case Reserve(r, now) => ReserveSparesLive(db, r, now, group, probe);
    case Mutate(key, action, now) => MutateDiscards(db, key, action, now, group, probe);
    case Expire(g, now) =>
      if g == group {
        SweepSparesLive(db.quotas[group], db.rows, group, now);
      }
  }

  /** Over every run: while no configuration raises the threshold, every first failure
      report of another dispatched reservation of the group discards the live probe, and
      nothing else of another key does.  After a raise it does so exactly when
      the failures counted so far, plus this one, meet the new threshold. */
  lemma AnyFirstReportDiscardsProbe(steps: seq<Step>, step: Step, group: string, probe: Key)
    requires LiveProbe(Exec(EMPTY, steps), group, probe, step.now) && (step.Mutate? ==> step.key != probe)
    ensures var db := Exec(EMPTY, steps); var q := db.quotas[group]; var v := Do(db, step);
      && group in v.quotas
      && (v.quotas[group].probe != Some(probe) <==> FirstReport(db, step, group, Failed) && q.failures + 1 >= q.threshold)
      && (ThresholdsKept(steps) ==> (v.quotas[group].probe != Some(probe) <==> FirstReport(db, step, group, Failed)))
  {
    hide Inv, Do, Exec, LiveProbe, FirstReport;
    LiveGroup(Exec(EMPTY, steps), group, probe, step.now);
    EmptyInv();
    ExecInv(EMPTY, steps);
    ProbeDiscardedIff(Exec(EMPTY, steps), step, group, probe);
    if ThresholdsKept(steps) {
      OpenMeansTripped(steps);
      ProbeNeedsOpen(Exec(EMPTY, steps), group);
    }
  }

  lemma LiveGroup(db: Db, group: string, probe: Key, now: Instant)
    requires LiveProbe(db, group, probe, now)
    ensures group in db.quotas && db.quotas[group].probe == Some(probe)
  {}

  // ----- when a closed breaker opens -----------------------------------------------------------------

  lemma EffectOpens(q: Snapshot, r: Reservation, now: Instant, action: Action)
    requires q.probe.None? && q.breakerUntil.None? && ActEffect(Rotate(q, now), r, now, action).Success?
    ensures var v := ActEffect(Rotate(q, now), r, now, action).value.q;
      v.breakerUntil.Some? <==> action == RecordOutcome(Failed) && r.outcome.None? && q.failures + 1 >= q.threshold
  {}

  lemma MutateOpens(db: Db, key: Key, action: Action, now: Instant, group: string)
    requires Inv(db) && group in db.quotas && db.quotas[group].breakerUntil.None?
    ensures var v := Quota.Mutate(db, key, action, now).0;
      && group in v.quotas
      && (v.quotas[group].breakerUntil.Some? <==>
            FirstReport(db, Step.Mutate(key, action, now), group, Failed) && db.quotas[group].failures + 1 >= db.quotas[group].threshold)
  {
    ProbeNeedsOpen(db, group);
    hide Inv, Rotate, ActEffect, Find;
    var i := Find(db.rows, key);
    if i < |db.rows| && db.rows[i].request.group == group && ValidAction(action) {
      FirstReportAccepted(Rotate(db.quotas[group], now), db.rows[i], now, action);
      if ActEffect(Rotate(db.quotas[group], now), db.rows[i], now, action).Success? {
        EffectOpens(db.quotas[group], db.rows[i], now, action);
        ReportNeedsDispatch(Rotate(db.quotas[group], now), db.rows[i], now, action);
      }
    }
  }

  /** Over every run, a closed breaker opens exactly on a first failure report of a
      dispatched reservation of the group that meets the threshold. */
  lemma BreakerOpensIff(steps: seq<Step>, step: Step, group: string)
    requires var db := Exec(EMPTY, steps); group in db.quotas && db.quotas[group].breakerUntil.None?
    ensures var db := Exec(EMPTY, steps); var q, v := db.quotas[group], Do(db, step);
      && group in v.quotas
      && (v.quotas[group].breakerUntil.Some? <==> FirstReport(db, step, group, Failed) && q.failures + 1 >= q.threshold)
  {
    var db := Exec(EMPTY, steps);
    EmptyInv();
    ExecInv(EMPTY, steps);
    hide Inv, Exec, Quota.Mutate, Quota.Reserve, Quota.Configure, ExpireRequestSlots, FirstReport;
    ProbeNeedsOpen(db, group);
    NotAFailure(db, step, group);
    match step
    case Configure(c, now) => ConfigureChanges(db, c, now, group);
    case Reserve(r, now) => ReserveStaysClosed(db, r, now, group);
    case Mutate(key, action, now) => MutateOpens(db, key, action, now, group);
    case Expire(g, now) => ExpireStaysClosed(db, g, now, group);
  }

  lemma NotAFailure(db: Db, step: Step, group: string)
    ensures !step.Mutate? ==> !FirstReport(db, step, group, Failed)
  {}

  lemma ReserveStaysClosed(db: Db, r: Request, now: Instant, group: string)
    requires group in db.quotas && db.quotas[group].breakerUntil.None? && db.quotas[group].probe.None?
    ensures var v := Quota.Reserve(db, r, now).0; group in v.quotas && v.quotas[group].breakerUntil.None?
  {
    hide SweepQuota, SweepRows, Rotate, Find, ValidRequest, Fresh;
    if r.group == group && SweepQuota(Rotate(db.quotas[group], now), db.rows, group, now).Some? {
      SweepMeans(db.quotas[group], db.rows, group, now);
    }
  }

  lemma ExpireStaysClosed(db: Db, g: string, now: Instant, group: string)
    requires group in db.quotas && db.quotas[group].breakerUntil.None? && db.quotas[group].probe.None?
    ensures var v := ExpireRequestSlots(db, g, now).0; group in v.quotas && v.quotas[group].breakerUntil.None?
  {
    hide SweepQuota, SweepRows, Rotate, OverdueCount;
    if g == group && SweepQuota(Rotate(db.quotas[group], now), db.rows, group, now).Some? {
      SweepMeans(db.quotas[group], db.rows, group, now);
    }
  }

  // ----- how long the breaker can deny ---------------------------------------------------------------

  /** Step `i` of the run opened or reopened the breaker of `group` until `until`. */
  ghost predicate OpenedAt(steps: seq<Step>, i: nat, group: string, until: Instant) {
    && i < |steps| && group in Exec(EMPTY, steps[..i]).quotas
    && until == steps[i].now + Exec(EMPTY, steps[..i]).quotas[group].cooldown
    && OpenUntil(Do(Exec(EMPTY, steps[..i]), steps[i]), group, until)
  }

  lemma OpenedEarlier(steps: seq<Step>, step: Step, i: nat, group: string, until: Instant)
    requires OpenedAt(steps, i, group, until)
    ensures OpenedAt(steps + [step], i, group, until)
  {
    hide Do, Exec;
    assert (steps + [step])[..i] == steps[..i];
  }

  /** Every open breaker stems from a step that opened it for exactly one cooldown. */
  lemma {:induction false} OpeningOnRecord(steps: seq<Step>, group: string) returns (i: nat)
    ensures var db := Exec(EMPTY, steps);
      group in db.quotas && db.quotas[group].breakerUntil.Some? ==> OpenedAt(steps, i, group, db.quotas[group].breakerUntil.value)
  {
    i := 0;
    if steps != [] {
      var rest, step := steps[..|steps| - 1], steps[|steps| - 1];
      var db := Exec(EMPTY, rest);
      assert steps == rest + [step] && steps[..|rest|] == rest;
      hide Inv, Do;
      EmptyInv();
      ExecInv(EMPTY, rest);
      i := OpeningOnRecord(rest, group);
      if group in db.quotas {
        DoChanges(db, step, group);
        var q, v := db.quotas[group], Do(db, step).quotas[group];
        if v.breakerUntil.Some? {
          if v.breakerUntil == q.breakerUntil {
            OpenedEarlier(rest, step, i, group, v.breakerUntil.value);
          } else {
            i := |rest|;
          }
        }
      } else {
        NewGroupIsClosed(db, step, group);
      }
    }
  }

  lemma NewGroupIsClosed(db: Db, step: Step, group: string)
    requires group !in db.quotas
    ensures group in Do(db, step).quotas ==> Do(db, step).quotas[group].breakerUntil.None?
  {
    hide SweepQuota, SweepRows, ActEffect, Rotate, Find, ValidRequest, ValidAction, OverdueCount;
  }

  lemma DenialMeans(db: Db, r: Request, now: Instant)
    requires Inv(db) && Quota.Reserve(db, r, now).1.Denied?
    ensures r.group in db.quotas
    ensures var q, reason := db.quotas[r.group], Quota.Reserve(db, r, now).1.reason;
      && (reason == ProbeInProgress ==> q.probe.Some? && LiveProbe(db, r.group, q.probe.value, now))
      && (reason == CircuitOpen ==>
            || (q.breakerUntil.Some? && now < q.breakerUntil.value)
            || (q.probe.Some? && !LiveProbe(db, r.group, q.probe.value, now)))
  {
    hide Inv, SweepQuota, SweepRows, Rotate, Find, ValidRequest, Fresh, Admit, KeysUnique, LiveProbe;
    var q := db.quotas[r.group];
    SweepInv(db, r.group, now);
    SweepChanges(q, db.rows, r.group, now);
    KeysAreUnique(db);
    if q.probe.Some? {
      ProbeStored(db, r.group);
      SweptProbe(q, db.rows, r.group, now);
      LiveIs(db, r.group, q.probe.value, now);
      if LiveProbe(db, r.group, q.probe.value, now) {
        SweepSparesLive(q, db.rows, r.group, now);
      }
    } else {
      SweepMeans(q, db.rows, r.group, now);
    }
  }

  lemma LiveIs(db: Db, group: string, probe: Key, now: Instant)
    requires group in db.quotas && db.quotas[group].probe == Some(probe) && Find(db.rows, probe) < |db.rows|
    ensures LiveProbe(db, group, probe, now) <==> now < db.rows[Find(db.rows, probe)].request.deadline
  {}

  lemma ProbeStored(db: Db, group: string)
    requires Inv(db) && group in db.quotas && db.quotas[group].probe.Some?
    ensures Find(db.rows, db.quotas[group].probe.value) < |db.rows|
  {
    assert ProbeOk(db.quotas[group], db.rows, group);
  }

  lemma SweptProbe(q: Snapshot, rows: seq<Reservation>, group: string, now: Instant)
    requires q.probe.Some? && Find(rows, q.probe.value) < |rows| && SweepQuota(Rotate(q, now), rows, group, now).Some?
    ensures var v := SweepQuota(Rotate(q, now), rows, group, now).value;
      v.probe.Some? ==> now < rows[Find(rows, q.probe.value)].request.deadline
  {
    hide OverdueCount, ProbeOverdue, Find;
  }

  /** In every run the breaker denies a request only while a probe whose own deadline
      lies ahead is in flight, or within one cooldown of an opening: one on record, or
      the one this very request causes by giving up an overdue probe. */
  lemma BreakerDeniesOnlyIf(steps: seq<Step>, r: Request, now: Instant)
    requires Quota.Reserve(Exec(EMPTY, steps), r, now).1.Denied?
    ensures var db := Exec(EMPTY, steps); var reason := Quota.Reserve(db, r, now).1.reason;
      && r.group in db.quotas
      && (reason == ProbeInProgress ==> db.quotas[r.group].probe.Some? && LiveProbe(db, r.group, db.quotas[r.group].probe.value, now))
      && (reason == CircuitOpen ==>
            || (exists i, until :: OpenedAt(steps, i, r.group, until) && now < until)
            || (db.quotas[r.group].probe.Some? && !LiveProbe(db, r.group, db.quotas[r.group].probe.value, now)))
  {
    hide Inv, Exec, Quota.Reserve, LiveProbe, OpenedAt;
    var db := Exec(EMPTY, steps);
    EmptyInv();
    ExecInv(EMPTY, steps);
    DenialMeans(db, r, now);
    var i := OpeningOnRecord(steps, r.group);
  }

  // ----- two probes in flight: a run that has them ---------------------------------------------------

  lemma {:induction false} Calm(rows: seq<Reservation>, group: string, now: Instant)
    requires forall i :: 0 <= i < |rows| ==> !Overdue(rows[i], group, now)
    ensures SweepRows(rows, group, now) == rows && OverdueCount(rows, group, now) == 0
  {
    if rows != [] {
      Calm(rows[..|rows| - 1], group, now);
    }
  }

  /** An admission with nothing to maintain. */
  lemma AdmitStep(db: Db, r: Request, now: Instant)
    requires ValidRequest(r) && r.group in db.quotas && Find(db.rows, r.key) == |db.rows| && now < r.deadline
    requires forall i :: 0 <= i < |db.rows| ==> !Overdue(db.rows[i], r.group, now)
    requires var q := db.quotas[r.group]; now < q.windowEndsAt && q.probe.None? && DenialOf(q, r, now).None?
    ensures var q := db.quotas[r.group];
      Do(db, Step.Reserve(r, now)) == Db(db.quotas[r.group := Admit(q, r)], db.rows + [Fresh(r, q.generation)])
  {
    hide ValidRequest, Overdue, DenialOf, Admit, Fresh;
    Calm(db.rows, r.group, now);
  }

  /** An accepted action within the window. */
  lemma ActStep(db: Db, i: nat, action: Action, now: Instant)
    requires KeysUnique(db.rows) && i < |db.rows| && db.rows[i].request.group in db.quotas && ValidAction(action)
    requires var q := db.quotas[db.rows[i].request.group]; now < q.windowEndsAt && ActEffect(q, db.rows[i], now, action).Success?
    ensures var g := db.rows[i].request.group; var e := ActEffect(db.quotas[g], db.rows[i], now, action).value;
      Do(db, Step.Mutate(db.rows[i].request.key, action, now)) == Db(db.quotas[g := e.q], db.rows[i := e.r])
  {
    hide ActEffect;
    FindAt(db.rows, i);
  }

  function Ask(attempt: string): Request { Request(Key("t", attempt), "r", "g", 1, 1, 1, "v", 100) }

  const LIMITS := Config("g", 10, 1000, 1000, 1000, 1, 1)

  /** Two requests are dispatched, one fails and opens the breaker, a probe is
      dispatched, the other fails and discards it, and a second probe is admitted. */
  const RUN: seq<Step> := [
    Step.Configure(LIMITS, 1),
    Step.Reserve(Ask("a"), 1), Step.Mutate(Ask("a").key, Dispatch, 1),
    Step.Reserve(Ask("b"), 1), Step.Mutate(Ask("b").key, Dispatch, 1),
    Step.Mutate(Ask("a").key, RecordOutcome(Failed), 2),
    Step.Reserve(Ask("p"), 3), Step.Mutate(Ask("p").key, Dispatch, 3),
    Step.Mutate(Ask("b").key, RecordOutcome(Failed), 3),
    Step.Reserve(Ask("q"), 4)]

  /** The group's row after `n` admissions. */
  function Group(n: nat, failures: nat, until: Option<Instant>, probe: Option<Key>): Snapshot {
    Snapshot(10, 1000, 1000, n, 2 * n, 0, n, 0, 1001, 1, until, failures, probe, 1000, 1, 1)
  }

  function Sent(attempt: string, at: Instant, outcome: Option<Outcome>): Reservation {
    Fresh(Ask(attempt), 1).(dispatchedAt := Some(at), outcome := outcome)
  }

  function Ledger(q: Snapshot, rows: seq<Reservation>): Db { Db(map["g" := q], rows) }

  lemma AskIsValid(attempt: string)
    requires attempt == "a" || attempt == "b" || attempt == "p" || attempt == "q"
    ensures ValidRequest(Ask(attempt))
  {
    assert ValidId("t") && ValidId("r") && ValidId(attempt);
  }

  /** Reserve, then dispatch. */
  lemma Send(q: Snapshot, rows: seq<Reservation>, attempt: string, now: Instant, n: nat, failures: nat, until: Option<Instant>)
    requires attempt == "a" || attempt == "b" || attempt == "p" || attempt == "q"
    requires q == Group(n, failures, until, None) && n < 10 && now < 100 && (until.Some? ==> until.value <= now)
    requires KeysUnique(rows) && forall i :: 0 <= i < |rows| ==> rows[i].request.key != Ask(attempt).key && rows[i].request.deadline == 100
    ensures var admitted := Group(n + 1, failures, until, if until.Some? then Some(Ask(attempt).key) else None);
      && Do(Ledger(q, rows), Step.Reserve(Ask(attempt), now)) == Ledger(admitted, rows + [Fresh(Ask(attempt), 1)])
      && Do(Ledger(admitted, rows + [Fresh(Ask(attempt), 1)]), Step.Mutate(Ask(attempt).key, Dispatch, now))
         == Ledger(admitted, rows + [Sent(attempt, now, None)])
      && KeysUnique(rows + [Sent(attempt, now, None)])
  {
    hide ValidRequest, Do, Find;
    AskIsValid(attempt);
    var r := Ask(attempt);
    var admitted := Group(n + 1, failures, until, if until.Some? then Some(r.key) else None);
    var db, more := Ledger(q, rows), rows + [Fresh(r, 1)];
    assert Admit(q, r) == admitted;
    AdmitStep(db, r, now);
    assert db.quotas["g" := admitted] == map["g" := admitted];
    AppendUnique(rows, Fresh(r, 1));
    AppendUnique(rows, Sent(attempt, now, None));
    ActStep(Ledger(admitted, more), |rows|, Dispatch, now);
    assert more[|rows| := Sent(attempt, now, None)] == rows + [Sent(attempt, now, None)];
  }

  /** Report a first failure of row `i`, at threshold one. */
  lemma Report(q: Snapshot, rows: seq<Reservation>, i: nat, now: Instant, n: nat, failures: nat, until: Option<Instant>, probe: Option<Key>)
    requires q == Group(n, failures, until, probe) && failures <= 1 && now < 1001 && KeysUnique(rows) && i < |rows|
    requires rows[i].request.group == "g" && rows[i].dispatchedAt.Some? && rows[i].outcome.None?
    ensures Do(Ledger(q, rows), Step.Mutate(rows[i].request.key, RecordOutcome(Failed), now))
      == Ledger(Group(n, 1, Some(now + 1), None), rows[i := rows[i].(outcome := Some(Failed))])
  {
    hide Do, Find;
    ActStep(Ledger(q, rows), i, RecordOutcome(Failed), now);
    assert map["g" := q]["g" := Group(n, 1, Some(now + 1), None)] == map["g" := Group(n, 1, Some(now + 1), None)];
  }

  lemma ExecOne(steps: seq<Step>, n: nat)
    requires n < |steps|
    ensures Exec(EMPTY, steps[..n + 1]) == Do(Exec(EMPTY, steps[..n]), steps[n])
  {
    hide Do;
    assert steps[..n + 1][..n] == steps[..n];
  }

  /** "One probe in flight" is false: at the end of this run the new probe is admitted
      while the first one is dispatched, unreported, unreleased and before its deadline. */
  lemma TwoProbesInFlight()
    ensures Timed(RUN)
    ensures var db := Exec(EMPTY, RUN[..7]); "g" in db.quotas && db.quotas["g"].probe == Some(Ask("p").key)
    ensures var db := Exec(EMPTY, RUN);
      && "g" in db.quotas && db.quotas["g"].probe == Some(Ask("q").key)
      && |db.rows| == 4 && db.rows[2] == Sent("p", 3, None) && !db.rows[2].slotReleased && db.rows[2].request.deadline > RUN[9].now
  {
    hide Do, Exec, Find, KeysUnique;
    Opening();
    Probing();
    ExecOne(RUN, 6);
    ExecOne(RUN, 7);
    ExecOne(RUN, 8);
    ExecOne(RUN, 9);
    assert RUN[..10] == RUN;
  }

  lemma Opening()
    ensures Exec(EMPTY, RUN[..6]) == Ledger(Group(2, 1, Some(3), None), [Sent("a", 1, Some(Failed)), Sent("b", 1, None)])
  {
    hide Do, Exec, Find, KeysUnique;
    NoneUnique();
    ExecNone();
    ConfigureFirst();
    Send(Group(0, 0, None, None), [], "a", 1, 0, 0, None);
    assert [] + [Sent("a", 1, None)] == [Sent("a", 1, None)] && [] + [Fresh(Ask("a"), 1)] == [Fresh(Ask("a"), 1)];
    Send(Group(1, 0, None, None), [Sent("a", 1, None)], "b", 1, 1, 0, None);
    var rows := [Sent("a", 1, None)] + [Sent("b", 1, None)];
    Report(Group(2, 0, None, None), rows, 0, 2, 2, 0, None, None);
    assert rows[0 := Sent("a", 1, Some(Failed))] == [Sent("a", 1, Some(Failed)), Sent("b", 1, None)];
    ExecOne(RUN, 0);
    ExecOne(RUN, 1);
    ExecOne(RUN, 2);
    ExecOne(RUN, 3);
    ExecOne(RUN, 4);
    ExecOne(RUN, 5);
  }

  lemma NoneUnique()
    ensures KeysUnique([])
  {}

  lemma ExecNone()
    ensures Exec(EMPTY, RUN[..0]) == EMPTY
  {}

  lemma ConfigureFirst()
    ensures Do(EMPTY, RUN[0]) == Ledger(Group(0, 0, None, None), [])
  {
    assert map[]["g" := Group(0, 0, None, None)] == map["g" := Group(0, 0, None, None)];
  }

  /** The steps after the breaker opened. */
  lemma Probing()
    ensures var rows := [Sent("a", 1, Some(Failed)), Sent("b", 1, None)];
      var open, half := Group(2, 1, Some(3), None), Group(3, 1, Some(3), Some(Ask("p").key));
      var failed := [Sent("a", 1, Some(Failed)), Sent("b", 1, Some(Failed)), Sent("p", 3, None)];
      && Do(Ledger(open, rows), RUN[6]) == Ledger(half, rows + [Fresh(Ask("p"), 1)])
      && Do(Ledger(half, rows + [Fresh(Ask("p"), 1)]), RUN[7]) == Ledger(half, rows + [Sent("p", 3, None)])
      && Do(Ledger(half, rows + [Sent("p", 3, None)]), RUN[8]) == Ledger(Group(3, 1, Some(4), None), failed)
      && Do(Ledger(Group(3, 1, Some(4), None), failed), RUN[9])
         == Ledger(Group(4, 1, Some(4), Some(Ask("q").key)), failed + [Fresh(Ask("q"), 1)])
  {
    hide Do, Find;
    var rows := [Sent("a", 1, Some(Failed)), Sent("b", 1, None)];
    var failed := [Sent("a", 1, Some(Failed)), Sent("b", 1, Some(Failed)), Sent("p", 3, None)];
    Send(Group(2, 1, Some(3), None), rows, "p", 3, 2, 1, Some(3));
    Report(Group(3, 1, Some(3), Some(Ask("p").key)), rows + [Sent("p", 3, None)], 1, 3, 3, 1, Some(3), Some(Ask("p").key));
    assert (rows + [Sent("p", 3, None)])[1 := Sent("b", 1, Some(Failed))] == failed;
    Send(Group(3, 1, Some(4), None), failed, "q", 4, 3, 1, Some(4));
  }
}
