/** The ledger over every sequence of transactions, and the circuit breaker over time. */
module QuotaRuns {
  import opened Domain
  import opened Quota
  import opened QuotaLedger

  const EMPTY := Db(map[], [])

  function Exec(db: Db, steps: seq<Step>): Db {
    if steps == [] then db else Do(Exec(db, steps[..|steps| - 1]), steps[|steps| - 1])
  }

  lemma {:induction false} ExecInv(db: Db, steps: seq<Step>)
    requires Inv(db)
    ensures Inv(Exec(db, steps))
  {
    hide Inv, Do;
    if steps != [] {
      ExecInv(db, steps[..|steps| - 1]);
      DoInv(Exec(db, steps[..|steps| - 1]), steps[|steps| - 1]);
    }
  }

  /** The CHECK constraints of the two tables. */
  ghost predicate QuotaChecks(q: Snapshot) {
    && q.maxConcurrent > 0 && q.maxTokens >= 0 && q.maxCost >= 0 && q.active >= 0
    && q.reservedTokens >= 0 && q.committedTokens >= 0 && q.reservedCost >= 0 && q.committedCost >= 0
    && q.window > 0 && q.generation > 0 && q.failures >= 0 && q.threshold > 0 && q.cooldown > 0
  }

  ghost predicate RowChecks(r: Reservation) {
    && r.request.Tokens() >= 0 && r.request.maxCost >= 0 && r.generation > 0
    && (r.actual.Some? ==> r.actual.value.tokens >= 0 && r.actual.value.cost >= 0)
  }

  /** In every reachable ledger the counters are the sums over the reservations, every
      CHECK constraint of the two tables holds and no token or cost amount leaves int64. */
  lemma {:induction false} CountersAreSums(steps: seq<Step>, group: string)
    requires group in Exec(EMPTY, steps).quotas
    ensures var db := Exec(EMPTY, steps); var q, held := db.quotas[group], Held(db.rows, group);
      && q.active == held.active && q.reservedTokens == held.tokens && q.reservedCost == held.cost
      && QuotaChecks(q) && (forall i :: 0 <= i < |db.rows| ==> RowChecks(db.rows[i]))
      && q.reservedTokens <= MAX_INT64 && q.reservedCost <= MAX_INT64
      && q.committedTokens <= MAX_INT64 && q.committedCost <= MAX_INT64
      && q.maxTokens <= MAX_INT64 && q.maxCost <= MAX_INT64
  {
    hide Exec, Inv, Held, QuotaChecks, RowChecks;
    var db := Exec(EMPTY, steps);
    EmptyInv();
    ExecInv(EMPTY, steps);
    RowsNonNegative(db, group);
    GroupChecks(db, group);
    forall i | 0 <= i < |db.rows| ensures RowChecks(db.rows[i]) {
      RowIsOk(db, i);
      RowOkChecks(db.rows[i]);
    }
  }

  lemma GroupChecks(db: Db, group: string)
    requires Inv(db) && group in db.quotas
    requires var held := Held(db.rows, group); held.active >= 0 && held.tokens >= 0 && held.cost >= 0
    ensures Balanced(db.quotas[group], Held(db.rows, group)) && QuotaChecks(db.quotas[group])
  {
    hide Held, RowOk, ProbeOk, KeysUnique;
  }

  lemma RowsNonNegative(db: Db, group: string)
    requires Inv(db)
    ensures var held := Held(db.rows, group); held.active >= 0 && held.tokens >= 0 && held.cost >= 0
  {
    hide Balanced, ProbeOk, KeysUnique, Held;
    HeldNonNegative(db.rows, group);
  }

  lemma RowOkChecks(r: Reservation)
    requires RowOk(r)
    ensures RowChecks(r)
  {}

  lemma EmptyInv()
    ensures Inv(EMPTY)
  {}

  lemma {:induction false} HeldNonNegative(rows: seq<Reservation>, group: string)
    requires forall i :: 0 <= i < |rows| ==> RowOk(rows[i])
    ensures var held := Held(rows, group); held.active >= 0 && held.tokens >= 0 && held.cost >= 0
  {
    hide ValidId;
    if rows != [] {
      HeldNonNegative(rows[..|rows| - 1], group);
    }
  }

  // ----- limits ------------------------------------------------------------------------------------

  ghost predicate Within(q: Snapshot) {
    && q.committedTokens + q.reservedTokens <= q.maxTokens && q.committedCost + q.reservedCost <= q.maxCost
    && q.active <= q.maxConcurrent
  }

  ghost predicate AllWithin(db: Db) { forall g :: g in db.quotas ==> Within(db.quotas[g]) }

  /** Limits are not lowered and no settlement exceeds its reservation. */
  ghost predicate Frugal(db: Db, step: Step) {
    match step
    case Configure(c, _) =>
      c.group in db.quotas ==>
        var q := db.quotas[c.group]; q.maxConcurrent <= c.maxConcurrent && q.maxTokens <= c.maxTokens && q.maxCost <= c.maxCost
    case Mutate(key, Settle(actual, _), _) =>
      var i := Find(db.rows, key);
      i < |db.rows| ==> actual.tokens <= db.rows[i].request.Tokens() && actual.cost <= db.rows[i].request.maxCost
    case _ => true
  }

  lemma SweepWithin(q: Snapshot, rows: seq<Reservation>, group: string, now: Instant)
    requires Within(q) && 0 <= q.committedTokens && 0 <= q.committedCost && SweepQuota(Rotate(q, now), rows, group, now).Some?
    ensures var v := SweepQuota(Rotate(q, now), rows, group, now).value;
      Within(v) && 0 <= v.committedTokens && 0 <= v.committedCost
  {}

  lemma EffectWithin(q: Snapshot, r: Reservation, now: Instant, action: Action)
    requires Within(Rotate(q, now)) && ActEffect(Rotate(q, now), r, now, action).Success? && ValidAction(action)
    requires action.Settle? ==> action.actual.tokens <= r.request.Tokens() && action.actual.cost <= r.request.maxCost
    ensures Within(ActEffect(Rotate(q, now), r, now, action).value.q)
  {}

  lemma RotateWithin(q: Snapshot, now: Instant)
    requires Within(q) && 0 <= q.committedTokens && 0 <= q.committedCost
    ensures Within(Rotate(q, now))
  {}

  lemma ReserveWithin(db: Db, r: Request, now: Instant)
    requires AllWithin(db) && (r.group in db.quotas ==> 0 <= db.quotas[r.group].committedTokens && 0 <= db.quotas[r.group].committedCost)
    ensures AllWithin(Quota.Reserve(db, r, now).0)
  {
    hide SweepQuota, SweepRows, Rotate, Find, ValidRequest, Fresh;
    if r.group in db.quotas && SweepQuota(Rotate(db.quotas[r.group], now), db.rows, r.group, now).Some? {
      SweepWithin(db.quotas[r.group], db.rows, r.group, now);
    }
  }

  lemma DoWithin(db: Db, step: Step)
    requires Inv(db) && AllWithin(db) && Frugal(db, step)
    ensures AllWithin(Do(db, step))
  {
    assert forall g :: g in db.quotas ==> Balanced(db.quotas[g], Held(db.rows, g));
    hide Inv, Held, ProbeOk, SweepQuota, SweepRows, ActEffect, Rotate, Find, ValidRequest, ValidAction, Quota.Reserve;
    match step
    case Configure(c, now) =>
    case Reserve(r, now) => ReserveWithin(db, r, now);
    case Mutate(key, action, now) =>
      var i := Find(db.rows, key);
      if i < |db.rows| && db.rows[i].request.group in db.quotas && ValidAction(action) {
        var q := db.quotas[db.rows[i].request.group];
        RotateWithin(q, now);
        if ActEffect(Rotate(q, now), db.rows[i], now, action).Success? {
          EffectWithin(q, db.rows[i], now, action);
        }
      }
    case Expire(group, now) =>
      if group in db.quotas && SweepQuota(Rotate(db.quotas[group], now), db.rows, group, now).Some? {
        SweepWithin(db.quotas[group], db.rows, group, now);
      }
  }

  ghost predicate FrugalRun(db: Db, steps: seq<Step>) {
    forall i :: 0 <= i < |steps| ==> Frugal(Exec(db, steps[..i]), steps[i])
  }

  /** Across window rotation, slot expiry and unknown obligations, committed plus
      reserved never exceeds the limit and concurrency never exceeds its maximum. */
  lemma {:induction false} LimitsHold(steps: seq<Step>)
    requires FrugalRun(EMPTY, steps)
    ensures AllWithin(Exec(EMPTY, steps))
  {
    hide Inv, Do, Frugal, AllWithin;
    if steps == [] {
      NothingWithin();
    } else {
      var rest := steps[..|steps| - 1];
      assert forall i :: 0 <= i < |rest| ==> rest[..i] == steps[..i];
      LimitsHold(rest);
      EmptyInv();
      ExecInv(EMPTY, rest);
      DoWithin(Exec(EMPTY, rest), steps[|steps| - 1]);
    }
  }

  lemma NothingWithin()
    ensures AllWithin(EMPTY)
  {}

  // ----- the circuit breaker ------------------------------------------------------------------------

  predicate Timed(steps: seq<Step>) {
    forall i, j :: 0 <= i < j < |steps| ==> steps[i].now <= steps[j].now
  }

  predicate Admits(db: Db, step: Step, group: string) {
    step.Reserve? && step.request.group == group && Quota.Reserve(db, step.request, step.now).1.Admitted?
  }

  predicate OpenUntil(db: Db, group: string, until: Instant) {
    group in db.quotas && db.quotas[group].breakerUntil == Some(until)
  }

  /** Requests admitted while the breaker of `group` stood open until `until`. */
  function Admissions(steps: seq<Step>, group: string, until: Instant): nat {
    if steps == [] then 0
    else
      var db, step := Exec(EMPTY, steps[..|steps| - 1]), steps[|steps| - 1];
      Admissions(steps[..|steps| - 1], group, until) + if Admits(db, step, group) && OpenUntil(Do(db, step), group, until) then 1 else 0
  }

  /** One step seen from the breaker of one group. */
  datatype Change = Keeps | Closes | Reopens | Probes

  ghost predicate Changed(q: Snapshot, v: Snapshot, now: Instant, change: Change) {
    match change
    case Keeps => v.breakerUntil == q.breakerUntil && v.probe == q.probe
    case Closes => v.breakerUntil.None? && v.probe.None?
    case Reopens => v.breakerUntil == Some(now + q.cooldown) && v.probe.None?
    case Probes => v.breakerUntil == q.breakerUntil && q.breakerUntil.Some? && q.breakerUntil.value <= now && q.probe.None? && v.probe.Some?
  }

  lemma SweepChanges(q: Snapshot, rows: seq<Reservation>, group: string, now: Instant)
    requires SweepQuota(Rotate(q, now), rows, group, now).Some?
    ensures var v := SweepQuota(Rotate(q, now), rows, group, now).value;
      (Changed(q, v, now, Keeps) || Changed(q, v, now, Reopens)) && v.cooldown == q.cooldown
  {
    hide ProbeOverdue, OverdueCount, Find;
  }

  lemma ReserveChanges(db: Db, r: Request, now: Instant)
    requires Inv(db) && r.group in db.quotas
    ensures var v, answer := Quota.Reserve(db, r, now).0, Quota.Reserve(db, r, now).1; var q := db.quotas[r.group];
      && r.group in v.quotas
      && (|| (Changed(q, v.quotas[r.group], now, Keeps) && (answer.Admitted? ==> v.quotas[r.group].breakerUntil.None?))
          || (Changed(q, v.quotas[r.group], now, Reopens) && !answer.Admitted?)
          || (Changed(q, v.quotas[r.group], now, Probes) && answer.Admitted?))
  {
    hide Inv, SweepQuota, SweepRows, Rotate, ValidRequest, Find, Quota.Fresh;
    var q := db.quotas[r.group];
    CooldownPositive(db, r.group);
    if ValidRequest(r) {
      SweepInv(db, r.group, now);
      SweepChanges(q, db.rows, r.group, now);
      var swept, rows := SweepQuota(Rotate(q, now), db.rows, r.group, now).value, SweepRows(db.rows, r.group, now);
      if Find(rows, r.key) == |rows| && now < r.deadline && DenialOf(swept, r, now).None? {
        assert Quota.Reserve(db, r, now).1.Admitted?;
        assert Quota.Reserve(db, r, now).0.quotas[r.group] == Admit(swept, r);
        ProbeNeedsOpen(db, r.group);
      } else {
        assert !Quota.Reserve(db, r, now).1.Admitted?;
      }
    }
  }

  lemma ProbeNeedsOpen(db: Db, group: string)
    requires Inv(db) && group in db.quotas
    ensures db.quotas[group].probe.Some? ==> db.quotas[group].breakerUntil.Some?
  {
    assert ProbeOk(db.quotas[group], db.rows, group);
  }

  lemma EffectChanges(q: Snapshot, r: Reservation, now: Instant, action: Action)
    requires ActEffect(Rotate(q, now), r, now, action).Success? && (q.probe.Some? ==> q.breakerUntil.Some?)
    ensures var v := ActEffect(Rotate(q, now), r, now, action).value.q;
      || Changed(q, v, now, Keeps) || Changed(q, v, now, Reopens)
      || (Changed(q, v, now, Closes) && action == RecordOutcome(Succeeded) && q.probe == Some(r.request.key))
  {}

  /** Every way a transaction can move the breaker. */
  lemma DoChanges(db: Db, step: Step, group: string)
    requires Inv(db) && group in db.quotas
    ensures group in Do(db, step).quotas
    ensures var q, v := db.quotas[group], Do(db, step).quotas[group];
      || (Changed(q, v, step.now, Keeps) && (Admits(db, step, group) ==> v.breakerUntil.None?))
      || (Changed(q, v, step.now, Reopens) && !Admits(db, step, group))
      || (Changed(q, v, step.now, Probes) && Admits(db, step, group))
      || (Changed(q, v, step.now, Closes) && step.Mutate? && step.action == RecordOutcome(Succeeded) && q.probe == Some(step.key))
  {
    hide Inv, Quota.Configure, Quota.Mutate, Quota.Reserve, ExpireRequestSlots, Changed;
    match step
    case Configure(c, now) => ConfigureChanges(db, c, now, group);
    case Reserve(r, now) =>
      if r.group == group {
        ReserveChanges(db, r, now);
      } else {
        ReserveElsewhere(db, r, now, group);
      }
    case Mutate(key, action, now) => MutateChanges(db, key, action, now, group);
    case Expire(g, now) => ExpireChanges(db, g, now, group);
  }

  lemma ConfigureChanges(db: Db, c: Config, now: Instant, group: string)
    requires group in db.quotas
    ensures var v := Quota.Configure(db, c, now); group in v.quotas && Changed(db.quotas[group], v.quotas[group], now, Keeps)
  {}

  lemma ReserveElsewhere(db: Db, r: Request, now: Instant, group: string)
    requires group in db.quotas && group != r.group
    ensures var v := Quota.Reserve(db, r, now).0; group in v.quotas && Changed(db.quotas[group], v.quotas[group], now, Keeps)
  {
    hide SweepRows, SweepQuota, Rotate, Find, ValidRequest;
  }

  lemma MutateChanges(db: Db, key: Key, action: Action, now: Instant, group: string)
    requires Inv(db) && group in db.quotas
    ensures var v, q := Quota.Mutate(db, key, action, now).0, db.quotas[group];
      && group in v.quotas
      && (|| Changed(q, v.quotas[group], now, Keeps) || Changed(q, v.quotas[group], now, Reopens)
          || (Changed(q, v.quotas[group], now, Closes) && action == RecordOutcome(Succeeded) && q.probe == Some(key)))
  {
    hide Inv, Rotate, ActEffect, Find, ValidAction;
    ProbeNeedsOpen(db, group);
    var i := Find(db.rows, key);
    if i < |db.rows| && db.rows[i].request.group == group && ActEffect(Rotate(db.quotas[group], now), db.rows[i], now, action).Success? {
      EffectChanges(db.quotas[group], db.rows[i], now, action);
    }
  }

  lemma ExpireChanges(db: Db, g: string, now: Instant, group: string)
    requires group in db.quotas
    ensures var v := ExpireRequestSlots(db, g, now).0;
      group in v.quotas && (Changed(db.quotas[group], v.quotas[group], now, Keeps) || Changed(db.quotas[group], v.quotas[group], now, Reopens))
  {
    hide SweepRows, SweepQuota, Rotate, OverdueCount;
    if g == group && SweepQuota(Rotate(db.quotas[group], now), db.rows, group, now).Some? {
      SweepChanges(db.quotas[group], db.rows, group, now);
    }
  }

  /** An open breaker closes only on the success of the probe that holds it. */
  lemma OnlyTheProbeCloses(db: Db, step: Step, group: string)
    requires Inv(db) && group in db.quotas && db.quotas[group].breakerUntil.Some?
    requires group in Do(db, step).quotas && Do(db, step).quotas[group].breakerUntil.None?
    ensures step.Mutate? && step.action == RecordOutcome(Succeeded) && db.quotas[group].probe == Some(step.key)
  {
    hide Inv, Do;
    DoChanges(db, step, group);
  }

  /** How many requests the current opening has admitted. */
  ghost predicate AdmissionsOk(db: Db, clock: Instant, group: string, until: Instant, n: nat) {
    && n <= 1 && (n == 1 ==> until <= clock)
    && (OpenUntil(db, group, until) ==> n == if db.quotas[group].probe.Some? then 1 else 0)
  }

  lemma AdmissionsStep(db: Db, clock: Instant, step: Step, group: string, until: Instant, n: nat)
    requires Inv(db) && AdmissionsOk(db, clock, group, until, n) && clock <= step.now
    ensures var v := Do(db, step);
      AdmissionsOk(v, step.now, group, until, n + if Admits(db, step, group) && OpenUntil(v, group, until) then 1 else 0)
  {
    if group in db.quotas {
      assert Balanced(db.quotas[group], Held(db.rows, group));
      hide Inv, Do, Admits, Balanced, Held;
      DoChanges(db, step, group);
      CooldownPositive(db, group);
    } else {
      hide SweepQuota, SweepRows, ActEffect, Rotate, Find, ValidRequest, ValidAction;
    }
  }

  lemma CooldownPositive(db: Db, group: string)
    requires Inv(db) && group in db.quotas
    ensures db.quotas[group].cooldown > 0
  {
    assert Balanced(db.quotas[group], Held(db.rows, group));
  }

  function LastClock(steps: seq<Step>): Instant { if steps == [] then 0 else steps[|steps| - 1].now }

  lemma {:induction false} AdmissionsBounded(steps: seq<Step>, group: string, until: Instant)
    requires Timed(steps)
    ensures AdmissionsOk(Exec(EMPTY, steps), LastClock(steps), group, until, Admissions(steps, group, until))
  {
    hide Inv, Do, Admits;
    if steps != [] {
      var rest := steps[..|steps| - 1];
      AdmissionsBounded(rest, group, until);
      EmptyInv();
      ExecInv(EMPTY, rest);
      AdmissionsStep(Exec(EMPTY, rest), LastClock(rest), steps[|steps| - 1], group, until, Admissions(rest, group, until));
    }
  }

  /** Between one opening of the breaker and its next closing or reopening at most one
      request is admitted, however the transactions interleave. */
  lemma OneAdmissionPerOpening(steps: seq<Step>, group: string, until: Instant)
    requires Timed(steps)
    ensures Admissions(steps, group, until) <= 1
  {
    hide Admissions, Exec;
    AdmissionsBounded(steps, group, until);
  }

  ghost predicate ProbeLive(q: Snapshot, rows: seq<Reservation>, now: Instant) {
    q.probe.Some? ==> Find(rows, q.probe.value) < |rows| && now < rows[Find(rows, q.probe.value)].request.deadline
  }

  /** After any sweep, a remaining probe still has time. */
  lemma SweepLeavesLiveProbe(db: Db, step: Step, group: string)
    requires Inv(db) && group in db.quotas
    requires step == Expire(group, step.now)
      || (step.Reserve? && step.request.group == group && !Quota.Reserve(db, step.request, step.now).1.Rejected?)
    ensures var v := Do(db, step); group in v.quotas && ProbeLive(v.quotas[group], v.rows, step.now)
  {
    hide Inv, SweepQuota, SweepRows, ValidRequest, Rotate, Find, ProbeLive, Fresh, Admit;
    SweptLive(db, group, step.now);
    if step.Reserve? && Quota.Reserve(db, step.request, step.now).1.Admitted? {
      var rows := SweepRows(db.rows, group, step.now);
      var q := SweepQuota(Rotate(db.quotas[group], step.now), db.rows, group, step.now).value;
      AdmitLive(q, rows, step.request, step.now);
    }
  }

  lemma SweptLive(db: Db, group: string, now: Instant)
    requires Inv(db) && group in db.quotas
    ensures SweepQuota(Rotate(db.quotas[group], now), db.rows, group, now).Some?
    ensures var q := SweepQuota(Rotate(db.quotas[group], now), db.rows, group, now).value;
      ProbeLive(q, SweepRows(db.rows, group, now), now) && KeysUnique(SweepRows(db.rows, group, now))
  {
    hide Inv, SweepQuota, Rotate, KeysUnique, SameKeys, Balanced, Find;
    SweepFacts(db, group, now);
  }

  lemma AdmitLive(q: Snapshot, rows: seq<Reservation>, r: Request, now: Instant)
    requires ProbeLive(q, rows, now) && KeysUnique(rows) && Find(rows, r.key) == |rows| && now < r.deadline
    ensures ProbeLive(Admit(q, r), rows + [Fresh(r, q.generation)], now)
  {
    hide KeysUnique, Find;
    var row := Fresh(r, q.generation);
    AppendUnique(rows, row);
    if q.probe.Some? {
      FindAppend(rows, row, q.probe.value);
    }
  }

  /** No probe pins admission: once its deadline has passed, a sweep reopens the
      breaker for one cooldown, after which the breaker denies nobody. */
  lemma BreakerRecovers(db: Db, group: string, sweep: Instant, r: Request, now: Instant)
    requires Inv(db) && group in db.quotas && r.group == group && db.quotas[group].probe.Some?
    requires var i := Find(db.rows, db.quotas[group].probe.value); i < |db.rows| && db.rows[i].request.deadline <= sweep
    requires sweep + db.quotas[group].cooldown <= now
    ensures var answer := Quota.Reserve(Do(db, Expire(group, sweep)), r, now).1;
      answer != Denied(CircuitOpen) && answer != Denied(ProbeInProgress)
  {
    hide Inv, SweepRows, SweepQuota, Rotate, Quota.Reserve;
    SweepInv(db, group, sweep);
    SweepRecovers(db.quotas[group], db.rows, group, sweep);
    OpenToAll(Do(db, Expire(group, sweep)), r, now);
  }

  lemma SweepRecovers(q: Snapshot, rows: seq<Reservation>, group: string, now: Instant)
    requires q.probe.Some?
    requires Find(rows, q.probe.value) < |rows| && rows[Find(rows, q.probe.value)].request.deadline <= now
    ensures SweepQuota(Rotate(q, now), rows, group, now).Some?
    ensures var v := SweepQuota(Rotate(q, now), rows, group, now).value; v.probe.None? && v.breakerUntil == Some(now + q.cooldown)
  {
    hide OverdueCount, ProbeOverdue, Find;
  }

  lemma OpenToAll(db: Db, r: Request, now: Instant)
    requires r.group in db.quotas && db.quotas[r.group].probe.None?
    requires db.quotas[r.group].breakerUntil.Some? ==> db.quotas[r.group].breakerUntil.value <= now
    ensures var answer := Quota.Reserve(db, r, now).1; answer != Denied(CircuitOpen) && answer != Denied(ProbeInProgress)
  {
    hide OverdueCount, ProbeOverdue, Find, ValidRequest, SweepRows, Fresh, Admit;
  }

  // ----- admission and consumption against the rows themselves ------------------------------------

  /** What the current window has committed, once a finished window is forgotten. */
  function Carried(q: Snapshot, committed: int, now: Instant): int { if now < q.windowEndsAt then committed else 0 }

  /** A new attempt is admitted exactly when its deadline lies ahead, the breaker is
      closed or due for its one probe, and the reservations themselves leave room. */
  lemma AdmittedIff(db: Db, r: Request, now: Instant)
    requires Inv(db) && ValidRequest(r) && r.group in db.quotas && Find(db.rows, r.key) == |db.rows|
    ensures var q, held := db.quotas[r.group], Held(SweepRows(db.rows, r.group, now), r.group);
      Quota.Reserve(db, r, now).1.Admitted? <==>
        && now < r.deadline
        && (q.breakerUntil.None? || (q.breakerUntil.value <= now && q.probe.None?))
        && held.active < q.maxConcurrent
        && Carried(q, q.committedTokens, now) + held.tokens + r.Tokens() <= q.maxTokens
        && Carried(q, q.committedCost, now) + held.cost + r.maxCost <= q.maxCost
  {
    hide Inv, SweepQuota, SweepRows, ValidRequest, Held, Find, Rotate, DenialOf, Quota.Reserve, Balanced;
    var q, rows := db.quotas[r.group], SweepRows(db.rows, r.group, now);
    SweptBalance(db, r.group, now);
    var v := SweepQuota(Rotate(q, now), db.rows, r.group, now).value;
    AbsentAfterSweep(db.rows, rows, r.key);
    ReserveAdmits(db, r, now);
    SweepChanges(q, db.rows, r.group, now);
    SweepMeans(q, db.rows, r.group, now);
    CooldownPositive(db, r.group);
    ProbeNeedsOpen(db, r.group);
    SizesNonNegative(db, r, now);
    NoDenialIff(v, r, now);
  }

  lemma SweptBalance(db: Db, group: string, now: Instant)
    requires Inv(db) && group in db.quotas
    ensures SweepQuota(Rotate(db.quotas[group], now), db.rows, group, now).Some?
    ensures var rows := SweepRows(db.rows, group, now); var v := SweepQuota(Rotate(db.quotas[group], now), db.rows, group, now).value;
      && SameKeys(db.rows, rows) && v.active == Held(rows, group).active && v.reservedTokens == Held(rows, group).tokens
      && v.reservedCost == Held(rows, group).cost
  {
    hide Inv, SweepQuota, Held, Find, Rotate, KeysUnique, SameKeys, ProbeOk;
    SweepFacts(db, group, now);
  }

  lemma ReserveAdmits(db: Db, r: Request, now: Instant)
    requires ValidRequest(r) && r.group in db.quotas && SweepQuota(Rotate(db.quotas[r.group], now), db.rows, r.group, now).Some?
    requires Find(SweepRows(db.rows, r.group, now), r.key) == |SweepRows(db.rows, r.group, now)|
    ensures Quota.Reserve(db, r, now).1.Admitted? <==>
      now < r.deadline && DenialOf(SweepQuota(Rotate(db.quotas[r.group], now), db.rows, r.group, now).value, r, now).None?
  {
    hide SweepQuota, SweepRows, Rotate, ValidRequest, Find, DenialOf, Fresh, Admit;
  }

  /** The subtractions of the source test exactly the sums. */
  lemma NoDenialIff(q: Snapshot, r: Request, now: Instant)
    requires 0 <= q.committedTokens && 0 <= q.committedCost && 0 <= q.reservedTokens && 0 <= q.reservedCost && 0 <= r.Tokens() && 0 <= r.maxCost
    ensures DenialOf(q, r, now).None? <==>
      && (q.breakerUntil.None? || (q.breakerUntil.value <= now && q.probe.None?)) && q.active < q.maxConcurrent
      && q.committedTokens + q.reservedTokens + r.Tokens() <= q.maxTokens && q.committedCost + q.reservedCost + r.maxCost <= q.maxCost
  {}

  lemma AbsentAfterSweep(a: seq<Reservation>, b: seq<Reservation>, key: Key)
    requires SameKeys(a, b) && Find(a, key) == |a|
    ensures Find(b, key) == |b|
  {}

  /** A sweep changes no limit and no committed amount, and never leaves an idle probe. */
  lemma SweepMeans(q: Snapshot, rows: seq<Reservation>, group: string, now: Instant)
    requires SweepQuota(Rotate(q, now), rows, group, now).Some?
    ensures var v := SweepQuota(Rotate(q, now), rows, group, now).value;
      && v.maxConcurrent == q.maxConcurrent && v.maxTokens == q.maxTokens && v.maxCost == q.maxCost
      && v.committedTokens == Carried(q, q.committedTokens, now) && v.committedCost == Carried(q, q.committedCost, now)
      && v.generation == (if now < q.windowEndsAt then q.generation else q.generation + 1)
      && (q.probe.None? ==> v.breakerUntil == q.breakerUntil && v.probe.None?)
  {
    hide ProbeOverdue, OverdueCount, Find;
  }

  lemma SizesNonNegative(db: Db, r: Request, now: Instant)
    requires Inv(db) && ValidRequest(r) && r.group in db.quotas
    ensures var held := Held(SweepRows(db.rows, r.group, now), r.group);
      held.tokens >= 0 && held.cost >= 0 && r.Tokens() >= 0 && r.maxCost >= 0
    ensures db.quotas[r.group].committedTokens >= 0 && db.quotas[r.group].committedCost >= 0
  {
    assert Balanced(db.quotas[r.group], Held(db.rows, r.group));
    HeldSweep(db.rows, r.group, now, r.group);
    HeldNonNegative(db.rows, r.group);
  }

  /** Definitive usage of the settled reservations of a group. */
  function Spent(rows: seq<Reservation>, group: string): Settlement {
    if rows == [] then Settlement(0, 0)
    else Plus(Spent(rows[..|rows| - 1], group), UsageOf(rows[|rows| - 1], group))
  }

  function Plus(a: Settlement, b: Settlement): Settlement { Settlement(a.tokens + b.tokens, a.cost + b.cost) }

  function UsageOf(r: Reservation, group: string): Settlement {
    if r.request.group == group && r.status == Settled && r.actual.Some? then r.actual.value else Settlement(0, 0)
  }

  lemma {:induction false} SpentUpdate(rows: seq<Reservation>, i: nat, r: Reservation, group: string)
    requires i < |rows|
    ensures Plus(Spent(rows[i := r], group), UsageOf(rows[i], group)) == Plus(Spent(rows, group), UsageOf(r, group))
  {
    hide UsageOf;
    var n := |rows| - 1;
    if i < n {
      assert rows[i := r][..n] == rows[..n][i := r];
      SpentUpdate(rows[..n], i, r, group);
    } else {
      assert rows[i := r][..n] == rows[..n];
    }
  }

  lemma {:induction false} SpentSweep(rows: seq<Reservation>, group: string, now: Instant, other: string)
    ensures Spent(SweepRows(rows, group, now), other) == Spent(rows, other)
  {
    if rows != [] {
      var n := |rows| - 1;
      SpentSweep(rows[..n], group, now, other);
      assert SweepRows(rows, group, now)[..n] == SweepRows(rows[..n], group, now);
    }
  }

  lemma SpentAppend(rows: seq<Reservation>, r: Reservation, group: string)
    ensures Spent(rows + [r], group) == Plus(Spent(rows, group), UsageOf(r, group))
  {
    assert (rows + [r])[..|rows|] == rows;
  }

  /** Committed amounts move with definitive usage and with nothing else; a new
      generation starts from zero. */
  ghost predicate Accounts(q: Snapshot, a: Settlement, v: Snapshot, b: Settlement) {
    && q.generation <= v.generation
    && v.committedTokens == (if v.generation == q.generation then q.committedTokens else 0) + b.tokens - a.tokens
    && v.committedCost == (if v.generation == q.generation then q.committedCost else 0) + b.cost - a.cost
  }

  lemma EffectAccounts(q: Snapshot, r: Reservation, now: Instant, action: Action, spent: Settlement)
    requires RowOk(r) && ActEffect(Rotate(q, now), r, now, action).Success?
    ensures var e := ActEffect(Rotate(q, now), r, now, action).value; var g := r.request.group;
      Accounts(q, spent, e.q, Settlement(spent.tokens - UsageOf(r, g).tokens + UsageOf(e.r, g).tokens,
                                         spent.cost - UsageOf(r, g).cost + UsageOf(e.r, g).cost))
      && e.r.request == r.request
  {
    hide ValidRequest;
  }

  lemma MutateAccounts(db: Db, key: Key, action: Action, now: Instant, group: string)
    requires Inv(db) && group in db.quotas
    ensures var v := Quota.Mutate(db, key, action, now).0;
      group in v.quotas && Accounts(db.quotas[group], Spent(db.rows, group), v.quotas[group], Spent(v.rows, group))
  {
    hide Inv, Find, RowOk, ActEffect, Rotate, ValidAction, Spent, UsageOf;
    var i := Find(db.rows, key);
    if i < |db.rows| {
      var r := db.rows[i];
      var g := r.request.group;
      if g in db.quotas && ActEffect(Rotate(db.quotas[g], now), r, now, action).Success? {
        var e := ActEffect(Rotate(db.quotas[g], now), r, now, action).value;
        RowIsOk(db, i);
        EffectAccounts(db.quotas[g], r, now, action, Spent(db.rows, g));
        SpentUpdate(db.rows, i, e.r, group);
        if g != group {
          NoUsage(r, group);
          NoUsage(e.r, group);
        }
      }
    }
  }

  lemma RowIsOk(db: Db, i: nat)
    requires Inv(db) && i < |db.rows|
    ensures RowOk(db.rows[i])
  {}

  lemma NoUsage(r: Reservation, group: string)
    requires r.request.group != group
    ensures UsageOf(r, group) == Settlement(0, 0)
  {}

  lemma SweepAccounts(q: Snapshot, rows: seq<Reservation>, group: string, now: Instant)
    requires SweepQuota(Rotate(q, now), rows, group, now).Some?
    ensures Accounts(q, Spent(rows, group), SweepQuota(Rotate(q, now), rows, group, now).value, Spent(SweepRows(rows, group, now), group))
  {
    hide SweepQuota, Spent;
    SweepMeans(q, rows, group, now);
    SpentSweep(rows, group, now, group);
  }

  lemma ReserveAccounts(db: Db, r: Request, now: Instant, group: string)
    requires group in db.quotas
    ensures var v := Quota.Reserve(db, r, now).0;
      group in v.quotas && Accounts(db.quotas[group], Spent(db.rows, group), v.quotas[group], Spent(v.rows, group))
  {
    hide SweepQuota, Spent, SweepRows, Rotate, ValidRequest, Find;
    if r.group in db.quotas && SweepQuota(Rotate(db.quotas[r.group], now), db.rows, r.group, now).Some? {
      var rows, q := SweepRows(db.rows, r.group, now), SweepQuota(Rotate(db.quotas[r.group], now), db.rows, r.group, now).value;
      SpentSweep(db.rows, r.group, now, group);
      SpentAppend(rows, Fresh(r, q.generation), group);
      SweepAccounts(db.quotas[r.group], db.rows, r.group, now);
    }
  }

  lemma DoAccounts(db: Db, step: Step, group: string)
    requires Inv(db) && group in db.quotas
    ensures group in Do(db, step).quotas
    ensures Accounts(db.quotas[group], Spent(db.rows, group), Do(db, step).quotas[group], Spent(Do(db, step).rows, group))
  {
    hide Inv, SweepQuota, Spent, SweepRows, Rotate, Quota.Reserve, Quota.Mutate;
    match step
    case Configure(c, now) =>
    case Reserve(r, now) => ReserveAccounts(db, r, now, group);
    case Mutate(key, action, now) => MutateAccounts(db, key, action, now, group);
    case Expire(g, now) =>
      if g in db.quotas && SweepQuota(Rotate(db.quotas[g], now), db.rows, g, now).Some? {
        SpentSweep(db.rows, g, now, group);
        SweepAccounts(db.quotas[g], db.rows, g, now);
      }
  }

  /** Within one window the committed amounts grow by exactly the usage settled in it. */
  lemma {:induction false} CommittedIsSettledUsage(db: Db, steps: seq<Step>, group: string)
    requires Inv(db) && group in db.quotas
    ensures group in Exec(db, steps).quotas
    ensures var q, v := db.quotas[group], Exec(db, steps).quotas[group];
      && q.generation <= v.generation
      && (v.generation == q.generation ==>
            && v.committedTokens - q.committedTokens == Spent(Exec(db, steps).rows, group).tokens - Spent(db.rows, group).tokens
            && v.committedCost - q.committedCost == Spent(Exec(db, steps).rows, group).cost - Spent(db.rows, group).cost)
  {
    hide Inv, Do, Spent;
    if steps != [] {
      var rest := steps[..|steps| - 1];
      CommittedIsSettledUsage(db, rest, group);
      ExecInv(db, rest);
      DoAccounts(Exec(db, rest), steps[|steps| - 1], group);
    }
  }
}
