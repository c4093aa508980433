/** Conservation in the quota ledger: the counters of every group always equal the
    sums over its reservations, and stay within its limits. */
module QuotaLedger {
  import opened Domain
  import opened Quota

  /** What reservations hold: request slots, tokens and cost. */
  datatype Load = Load(active: int, tokens: int, cost: int) {
    function Plus(o: Load): Load { Load(active + o.active, tokens + o.tokens, cost + o.cost) }
  }

  function LoadOf(r: Reservation, group: string): Load {
    if r.request.group != group then Load(0, 0, 0)
    else Load(if r.slotReleased then 0 else 1,
              if r.status == Settled then 0 else r.request.Tokens(),
              if r.status == Settled then 0 else r.request.maxCost)
  }

  function Held(rows: seq<Reservation>, group: string): Load {
    if rows == [] then Load(0, 0, 0) else Held(rows[..|rows| - 1], group).Plus(LoadOf(rows[|rows| - 1], group))
  }

  lemma HeldAppend(rows: seq<Reservation>, r: Reservation, group: string)
    ensures Held(rows + [r], group) == Held(rows, group).Plus(LoadOf(r, group))
  {
    assert (rows + [r])[..|rows|] == rows;
  }

  lemma {:induction false} HeldUpdate(rows: seq<Reservation>, i: nat, r: Reservation, group: string)
    requires i < |rows|
    ensures Held(rows[i := r], group).Plus(LoadOf(rows[i], group)) == Held(rows, group).Plus(LoadOf(r, group))
  {
    hide LoadOf;
    var n := |rows| - 1;
    if i < n {
      assert rows[i := r][..n] == rows[..n][i := r];
      HeldUpdate(rows[..n], i, r, group);
    } else {
      assert rows[i := r][..n] == rows[..n];
    }
  }

  /** A sweep of `group` releases exactly the slots it counts. */
  lemma {:induction false} HeldSweep(rows: seq<Reservation>, group: string, now: Instant, other: string)
    ensures Held(SweepRows(rows, group, now), other) ==
      Held(rows, other).(active := Held(rows, other).active - if other == group then OverdueCount(rows, group, now) else 0)
  {
    if rows != [] {
      var n := |rows| - 1;
      HeldSweep(rows[..n], group, now, other);
      assert SweepRows(rows, group, now)[..n] == SweepRows(rows[..n], group, now);
    }
  }

  // ----- the invariant ------------------------------------------------------------------------

  ghost predicate RowOk(r: Reservation) {
    && ValidRequest(r.request)
    && (r.status == Settled ==> r.slotReleased && r.kind.Some? && r.actual.Some?)
    && (r.kind == Some(NotDispatched) ==> r.dispatchedAt.None? && r.status == Settled && r.actual == Some(Settlement(0, 0)))
    && (r.outcome.Some? ==> r.dispatchedAt.Some?)
    && r.generation > 0 && (r.actual.Some? ==> r.actual.value.tokens >= 0 && r.actual.value.cost >= 0)
  }

  ghost predicate Balanced(q: Snapshot, held: Load) {
    && q.active == held.active && q.reservedTokens == held.tokens && q.reservedCost == held.cost
    && 0 <= q.committedTokens <= MAX_INT64 && 0 <= q.committedCost <= MAX_INT64
    && q.reservedTokens <= MAX_INT64 && q.reservedCost <= MAX_INT64 && q.failures >= 0 && q.generation > 0
    && 0 <= q.maxTokens <= MAX_INT64 && 0 <= q.maxCost <= MAX_INT64 && q.maxConcurrent > 0
    && q.threshold > 0 && q.cooldown > 0 && q.window > 0
  }

  /** A probe is an unreported reservation of its group, taken with the breaker open. */
  ghost predicate ProbeOk(q: Snapshot, rows: seq<Reservation>, group: string) {
    q.probe.Some? ==>
      && q.breakerUntil.Some? && Find(rows, q.probe.value) < |rows|
      && rows[Find(rows, q.probe.value)].request.group == group && rows[Find(rows, q.probe.value)].outcome.None?
  }

  ghost predicate KeysUnique(rows: seq<Reservation>) {
    forall i, j :: 0 <= i < j < |rows| ==> rows[i].request.key != rows[j].request.key
  }

  ghost predicate Inv(db: Db) {
    && KeysUnique(db.rows)
    && (forall i :: 0 <= i < |db.rows| ==> RowOk(db.rows[i]) && db.rows[i].request.group in db.quotas)
    && (forall g :: g in db.quotas ==> Balanced(db.quotas[g], Held(db.rows, g)) && ProbeOk(db.quotas[g], db.rows, g))
  }

  datatype Step =
    | Configure(config: Config, now: Instant)
    | Reserve(request: Request, now: Instant)
    | Mutate(key: Key, action: Action, now: Instant)
    | Expire(group: string, now: Instant)

  function Do(db: Db, step: Step): Db {
    match step
    case Configure(c, now) => Quota.Configure(db, c, now)
    case Reserve(r, now) => Quota.Reserve(db, r, now).0
    case Mutate(key, action, now) => Quota.Mutate(db, key, action, now).0
    case Expire(group, now) => ExpireRequestSlots(db, group, now).0
  }

  /** Rows keep their keys and groups, so lookups are stable. */
  ghost predicate SameKeys(a: seq<Reservation>, b: seq<Reservation>) {
    |a| == |b| && forall i :: 0 <= i < |a| ==> b[i].request == a[i].request
  }

  lemma FindSame(a: seq<Reservation>, b: seq<Reservation>, key: Key)
    requires SameKeys(a, b) && KeysUnique(a)
    ensures Find(a, key) == Find(b, key)
  {}

  lemma FindAt(rows: seq<Reservation>, i: nat)
    requires KeysUnique(rows) && i < |rows|
    ensures Find(rows, rows[i].request.key) == i
  {}

  lemma FindAppend(rows: seq<Reservation>, r: Reservation, key: Key)
    requires Find(rows, key) < |rows|
    ensures Find(rows + [r], key) == Find(rows, key)
  {
    assert (rows + [r])[..|rows|] == rows;
  }

  // ----- maintenance keeps the invariant ---------------------------------------------------------

  /** Replacing one group's quota row, when that row balances the new reservations and
      the other groups' sums and probes are untouched. */
  lemma InvFrom(db: Db, group: string, q: Snapshot, rows: seq<Reservation>)
    requires Inv(db) && group in db.quotas && KeysUnique(rows)
    requires forall i :: 0 <= i < |rows| ==> RowOk(rows[i]) && rows[i].request.group in db.quotas
    requires Balanced(q, Held(rows, group)) && ProbeOk(q, rows, group)
    requires forall g :: g in db.quotas && g != group ==> Held(rows, g) == Held(db.rows, g) && ProbeOk(db.quotas[g], rows, g)
    ensures Inv(Db(db.quotas[group := q], rows))
  {
    hide Balanced, ProbeOk, RowOk, Held;
  }

  /** The group after rotation and sweep. */
  lemma SweepFacts(db: Db, group: string, now: Instant)
    requires Inv(db) && group in db.quotas
    ensures SweepQuota(Rotate(db.quotas[group], now), db.rows, group, now).Some?
    ensures var rows := SweepRows(db.rows, group, now); var q := SweepQuota(Rotate(db.quotas[group], now), db.rows, group, now).value;
      && Balanced(q, Held(rows, group)) && ProbeOk(q, rows, group) && KeysUnique(rows) && SameKeys(db.rows, rows)
      && (q.probe.Some? ==> now < rows[Find(rows, q.probe.value)].request.deadline)
  {
    hide Held, RowOk, OverdueCount, ProbeOverdue, SweepRow, Overdue;
    var rows, locked := SweepRows(db.rows, group, now), Rotate(db.quotas[group], now);
    HeldSweep(db.rows, group, now, group);
    SweptRows(db.rows, group, now);
    assert Balanced(db.quotas[group], Held(db.rows, group)) && ProbeOk(db.quotas[group], db.rows, group);
    if locked.probe.Some? {
      FindSame(db.rows, rows, locked.probe.value);
    }
    hide Find, KeysUnique, SameKeys;
  }

  lemma SweptRows(rows: seq<Reservation>, group: string, now: Instant)
    ensures var swept := SweepRows(rows, group, now);
      && SameKeys(rows, swept) && (KeysUnique(rows) ==> KeysUnique(swept))
      && forall i :: 0 <= i < |rows| ==> swept[i].outcome == rows[i].outcome
  {}

  lemma SweepInv(db: Db, group: string, now: Instant)
    requires Inv(db) && group in db.quotas
    ensures SweepQuota(Rotate(db.quotas[group], now), db.rows, group, now).Some?
    ensures Inv(Db(db.quotas[group := SweepQuota(Rotate(db.quotas[group], now), db.rows, group, now).value], SweepRows(db.rows, group, now)))
  {
    hide Held, SweepQuota, OverdueCount;
    SweepFacts(db, group, now);
    var rows := SweepRows(db.rows, group, now);
    forall g | g in db.quotas && g != group ensures Held(rows, g) == Held(db.rows, g) && ProbeOk(db.quotas[g], rows, g) {
      HeldSweep(db.rows, group, now, g);
      assert ProbeOk(db.quotas[g], db.rows, g);
      if db.quotas[g].probe.Some? {
        FindSame(db.rows, rows, db.quotas[g].probe.value);
      }
    }
    hide ProbeOk, Balanced;
    InvFrom(db, group, SweepQuota(Rotate(db.quotas[group], now), db.rows, group, now).value, rows);
  }

  // ----- every transaction keeps the invariant ----------------------------------------------------

  lemma ConfigureInv(db: Db, c: Config, now: Instant)
    requires Inv(db)
    ensures Inv(Quota.Configure(db, c, now))
  {
    var v := Quota.Configure(db, c, now);
    if c.group !in db.quotas {
      NoRows(db.rows, c.group);
    }
    hide Held, RowOk, KeysUnique, Find;
    forall g | g in v.quotas ensures Balanced(v.quotas[g], Held(v.rows, g)) && ProbeOk(v.quotas[g], v.rows, g) {
      assert g in db.quotas ==> Balanced(db.quotas[g], Held(db.rows, g)) && ProbeOk(db.quotas[g], db.rows, g);
    }
  }

  lemma {:induction false} NoRows(rows: seq<Reservation>, group: string)
    requires forall i :: 0 <= i < |rows| ==> rows[i].request.group != group
    ensures Held(rows, group) == Load(0, 0, 0)
  {
    if rows != [] {
      NoRows(rows[..|rows| - 1], group);
      assert LoadOf(rows[|rows| - 1], group) == Load(0, 0, 0);
    }
  }

  lemma AdmitInv(db: Db, r: Request, now: Instant)
    requires Inv(db) && ValidRequest(r) && r.group in db.quotas && Find(db.rows, r.key) == |db.rows|
    requires DenialOf(db.quotas[r.group], r, now).None?
    ensures var q := db.quotas[r.group]; Inv(Db(db.quotas[r.group := Admit(q, r)], db.rows + [Fresh(r, q.generation)]))
  {
    var q := db.quotas[r.group];
    var row := Fresh(r, q.generation);
    var rows := db.rows + [row];
    forall g | g in db.quotas ensures Held(rows, g) == Held(db.rows, g).Plus(LoadOf(row, g)) && (g != r.group ==> ProbeOk(db.quotas[g], rows, g)) {
      HeldAppend(db.rows, row, g);
      assert ProbeOk(db.quotas[g], db.rows, g);
      if db.quotas[g].probe.Some? {
        FindAppend(db.rows, row, db.quotas[g].probe.value);
      }
    }
    AppendUnique(db.rows, row);
    assert Balanced(q, Held(db.rows, r.group)) && ProbeOk(q, db.rows, r.group);
    hide Held, KeysUnique, RowOk, Find;
    assert RowOk(row) by { FreshOk(r, q.generation); }
    InvFrom(db, r.group, Admit(q, r), rows);
  }

  lemma FreshOk(r: Request, generation: int)
    requires ValidRequest(r) && generation > 0
    ensures RowOk(Fresh(r, generation))
  {}

  lemma AppendUnique(rows: seq<Reservation>, row: Reservation)
    requires KeysUnique(rows) && Find(rows, row.request.key) == |rows|
    ensures KeysUnique(rows + [row]) && Find(rows + [row], row.request.key) == |rows|
  {
    assert (rows + [row])[..|rows|] == rows;
  }

  lemma ReserveInv(db: Db, r: Request, now: Instant)
    requires Inv(db)
    ensures Inv(Quota.Reserve(db, r, now).0)
  {
    hide Inv, ValidRequest, SweepQuota, SweepRows, Rotate, Find, Admit, Fresh;
    if ValidRequest(r) && r.group in db.quotas {
      SweepInv(db, r.group, now);
      var q, rows := SweepQuota(Rotate(db.quotas[r.group], now), db.rows, r.group, now).value, SweepRows(db.rows, r.group, now);
      var swept := Db(db.quotas[r.group := q], rows);
      if Find(rows, r.key) == |rows| && DenialOf(q, r, now).None? {
        AdmitInv(swept, r, now);
        assert swept.quotas[r.group := Admit(q, r)] == db.quotas[r.group := Admit(q, r)];
      }
    }
  }

  /** What an accepted action does to the row, the counters and the probe. */
  lemma EffectFacts(q: Snapshot, r: Reservation, now: Instant, action: Action, held: Load)
    requires RowOk(r) && ValidAction(action) && ActEffect(q, r, now, action).Success?
    requires Balanced(q, held) && (q.probe.Some? ==> q.breakerUntil.Some?)
    ensures var e := ActEffect(q, r, now, action).value; var g := r.request.group;
      && RowOk(e.r) && e.r.request == r.request
      && Balanced(e.q, Load(held.active - LoadOf(r, g).active + LoadOf(e.r, g).active,
                            held.tokens - LoadOf(r, g).tokens + LoadOf(e.r, g).tokens,
                            held.cost - LoadOf(r, g).cost + LoadOf(e.r, g).cost))
      && (e.q.probe.Some? ==> e.q.probe == q.probe && e.q.breakerUntil.Some? && (q.probe == Some(r.request.key) ==> e.r.outcome == r.outcome))
  {
    RequestSizes(r.request);
    hide ValidRequest;
  }

  lemma RequestSizes(r: Request)
    requires ValidRequest(r)
    ensures 0 <= r.Tokens() <= MAX_INT64 && 0 <= r.maxCost <= MAX_INT64
  {}

  lemma MutateInv(db: Db, key: Key, action: Action, now: Instant)
    requires Inv(db)
    ensures Inv(Quota.Mutate(db, key, action, now).0)
  {
    hide RowOk, Balanced, ActEffect, Held;
    var i := Find(db.rows, key);
    if !ValidAction(action) || i == |db.rows| {
      return;
    }
    var r := db.rows[i];
    var g := r.request.group;
    var locked := Rotate(db.quotas[g], now);
    var e := ActEffect(locked, r, now, action);
    if e.Success? {
      RotateBalanced(db.quotas[g], now, Held(db.rows, g));
      assert ProbeOk(db.quotas[g], db.rows, g);
      EffectFacts(locked, r, now, action, Held(db.rows, g));
      var rows := db.rows[i := e.value.r];
      UpdateFacts(db.rows, i, e.value.r);
      HeldUpdate(db.rows, i, e.value.r, g);
      forall o | o in db.quotas && o != g ensures Held(rows, o) == Held(db.rows, o) && ProbeOk(db.quotas[o], rows, o) {
        HeldUpdate(db.rows, i, e.value.r, o);
        OtherGroup(db, o, i, e.value.r);
      }
      OwnProbe(db, i, e.value, now, action);
      hide Inv, ProbeOk, Rotate, KeysUnique, Find;
      InvFrom(db, g, e.value.q, rows);
    }
  }

  lemma RotateBalanced(q: Snapshot, now: Instant, held: Load)
    requires Balanced(q, held)
    ensures Balanced(Rotate(q, now), held) && Rotate(q, now).probe == q.probe && Rotate(q, now).breakerUntil == q.breakerUntil
  {}

  lemma UpdateFacts(rows: seq<Reservation>, i: nat, r: Reservation)
    requires i < |rows| && r.request == rows[i].request && KeysUnique(rows)
    ensures SameKeys(rows, rows[i := r]) && KeysUnique(rows[i := r])
  {}

  lemma OtherGroup(db: Db, o: string, i: nat, r: Reservation)
    requires i < |db.rows| && r.request == db.rows[i].request && KeysUnique(db.rows) && o in db.quotas && o != r.request.group
    requires ProbeOk(db.quotas[o], db.rows, o)
    ensures ProbeOk(db.quotas[o], db.rows[i := r], o)
  {
    if db.quotas[o].probe.Some? {
      UpdateFacts(db.rows, i, r);
      FindSame(db.rows, db.rows[i := r], db.quotas[o].probe.value);
    }
  }

  lemma OwnProbe(db: Db, i: nat, e: Effect, now: Instant, action: Action)
    requires i < |db.rows| && e.r.request == db.rows[i].request && KeysUnique(db.rows) && e.r.request.group in db.quotas
    requires ProbeOk(db.quotas[e.r.request.group], db.rows, e.r.request.group)
    requires var q := db.quotas[e.r.request.group];
      (e.q.probe.Some? ==> e.q.probe == q.probe && e.q.breakerUntil.Some? && (q.probe == Some(e.r.request.key) ==> e.r.outcome == db.rows[i].outcome))
    ensures ProbeOk(e.q, db.rows[i := e.r], e.r.request.group)
  {
    if e.q.probe.Some? {
      UpdateFacts(db.rows, i, e.r);
      FindSame(db.rows, db.rows[i := e.r], e.q.probe.value);
      FindAt(db.rows, i);
    }
  }

  /** One transaction, whatever its result. */
  lemma DoInv(db: Db, step: Step)
    requires Inv(db)
    ensures Inv(Do(db, step))
  {
    hide Inv, Quota.Configure, Quota.Reserve, Quota.Mutate, SweepQuota;
    match step
    case Configure(c, now) => ConfigureInv(db, c, now);
    case Reserve(r, now) => ReserveInv(db, r, now);
    case Mutate(key, action, now) => MutateInv(db, key, action, now);
    case Expire(group, now) =>
      if group in db.quotas {
        SweepInv(db, group, now);
      }
  }
}
