/** The remaining steps: the daemon, lock changes, and the transactions that create
    or settle rows. */
module EngineTables {
  import opened Domain
  import opened Patch
  import opened Journal
  import opened Engine
  import opened EngineInvariant
  import opened EngineSteps

  // ----- steps taken without the lock ----------------------------------------------------

  /** Whatever can still act is the active operation of its workspace. */
  lemma ActiveFacts(w: World, id: string)
    requires Inv(w)
    requires id in w.sent || JobRunning(w, id) || (id in w.tables.operations && !w.tables.operations[id].status.Terminal())
    ensures id in w.tables.operations && !w.tables.operations[id].status.Terminal()
    ensures var workspace := w.tables.operations[id].request.workspace;
      && workspace in w.tables.workspaces && w.tables.workspaces[workspace].active == Some(id)
      && Live(w.tables.operations[id], w.tables.workspaces[workspace].revision, LocalOf(w, id), PcAt(w, workspace), Seen(Files(w, workspace)))
  {
    hide Live, Seen, ChainAt, HolderAt, Listed;
    assert id in w.tables.operations;
    assert w.tables.operations[id].status.Terminal() ==> SettledAt(w, id);
    assert RowPlaced(w.tables, id);
    assert LiveAt(w, w.tables.operations[id].request.workspace);
  }

  lemma LooseStep(w: World, v: World, id: string)
    requires Inv(w) && id in w.tables.operations && !w.tables.operations[id].status.Terminal()
    requires var workspace := w.tables.operations[id].request.workspace;
      && workspace in w.tables.workspaces && OnlyTouches(w, v, workspace, id) && v.holders == w.holders
      && RowStep(w.tables.operations[id], v.tables.operations[id])
      && Live(v.tables.operations[id], w.tables.workspaces[workspace].revision, LocalOf(v, id), PcAt(v, workspace), Seen(Files(v, workspace)))
    ensures Kept(w, v)
  {
    ActiveFacts(w, id);
    var workspace := w.tables.operations[id].request.workspace;
    assert workspace in w.holders ==> HolderAt(w, workspace);
    hide Live, Inv, Extends, LocalOf, Files;
    LocalStep(w, v, workspace, id);
  }

  lemma DeliverKept(w: World, id: string)
    requires Inv(w)
    ensures Kept(w, DoDeliver(w, id))
  {
    hide Framed, Inv, Kept, Extends, Seen;
    if id in w.sent {
      ActiveFacts(w, id);
      LooseStep(w, DoDeliver(w, id), id);
    } else {
      KeptSame(w);
    }
  }

  lemma JobWriteKept(w: World, id: string, tree: Tree)
    requires Inv(w)
    ensures Kept(w, DoJobWrite(w, id, tree))
  {
    hide Framed, Inv, Kept, Extends, Seen;
    if JobRunning(w, id) {
      ActiveFacts(w, id);
      LooseStep(w, DoJobWrite(w, id, tree), id);
    } else {
      KeptSame(w);
    }
  }

  lemma JobExitKept(w: World, id: string)
    requires Inv(w)
    ensures Kept(w, DoJobExit(w, id))
  {
    hide Framed, Inv, Kept, Extends, Seen;
    if JobRunning(w, id) {
      ActiveFacts(w, id);
      LooseStep(w, DoJobExit(w, id), id);
    } else {
      KeptSame(w);
    }
  }

  lemma CancelLive(row: Operation, revision: nat, l: Local, pc: Option<Pc>, tree: Tree)
    requires Live(row, revision, l, pc, tree)
    ensures Live(row.(cancelRequested := true), revision, l, pc, tree)
  {
    hide ApplyAll, VisibleEdits;
  }

  lemma CancelKept(w: World, id: string)
    requires Inv(w)
    ensures Kept(w, w.(tables := RequestCancel(w.tables, id)))
  {
    hide Framed, Inv, Kept, Extends, Seen, Live;
    var v := w.(tables := RequestCancel(w.tables, id));
    if id in w.tables.operations && !w.tables.operations[id].status.Terminal() {
      ActiveFacts(w, id);
      var workspace := w.tables.operations[id].request.workspace;
      CancelLive(w.tables.operations[id], w.tables.workspaces[workspace].revision, LocalOf(w, id), PcAt(w, workspace), Seen(Files(w, workspace)));
      LooseStep(w, v, id);
    } else {
      KeptSame(w);
    }
  }

  // ----- lock changes ----------------------------------------------------------------------

  /** Only locks change: some are dropped, some taken for a start. */
  lemma LocksKept(w: World, v: World)
    requires Inv(w) && v == w.(holders := v.holders)
    requires forall k :: k in v.holders ==> HolderAt(v, k)
    requires forall k :: PcAt(v, k).None? || PcAt(v, k) == PcAt(w, k)
    ensures Kept(w, v)
  {
    hide HolderAt, LiveAt, SettledAt, ChainAt, Listed, LocalOf, History, ActiveIsUnique, PcAt;
    forall k | k in v.tables.workspaces ensures ChainAt(v, k) && (v.tables.workspaces[k].active.Some? ==> LiveAt(v, k)) {
      LockAt(w, v, k);
    }
    forall k | k in v.tables.operations && v.tables.operations[k].status.Terminal() ensures SettledAt(v, k) && Listed(v, k) {
      LockSettled(w, v, k);
    }
    forall k ensures History(v, k) == History(w, k) && LocalOf(v, k) == LocalOf(w, k) {
      LockLocal(w, v, k);
    }
  }

  lemma LockAt(w: World, v: World, k: string)
    requires v == w.(holders := v.holders) && (PcAt(v, k).None? || PcAt(v, k) == PcAt(w, k))
    requires k in w.tables.workspaces && ChainAt(w, k) && (w.tables.workspaces[k].active.Some? ==> LiveAt(w, k))
    ensures ChainAt(v, k) && (v.tables.workspaces[k].active.Some? ==> LiveAt(v, k))
  {
    hide JobOk, TreeOk, PlanOk, PcOk, Chained, Seen;
  }

  lemma LockSettled(w: World, v: World, k: string)
    requires v == w.(holders := v.holders) && k in w.tables.operations && SettledAt(w, k) && Listed(w, k)
    ensures SettledAt(v, k) && Listed(v, k)
  {
    hide Settled;
  }

  lemma LockLocal(w: World, v: World, k: string)
    requires v == w.(holders := v.holders)
    ensures History(v, k) == History(w, k) && LocalOf(v, k) == LocalOf(w, k)
  {}

  lemma CrashKept(w: World, workspaces: set<string>)
    requires Inv(w)
    ensures Kept(w, w.(holders := w.holders - workspaces))
  {
    var v := w.(holders := w.holders - workspaces);
    forall k | k in v.holders ensures HolderAt(v, k) {
      assert HolderAt(w, k);
    }
    hide Inv, Kept;
    LocksKept(w, v);
  }

  lemma TakeKept(w: World, r: Request, expectedAfter: Option<Tree>)
    requires Inv(w) && r.workspace !in w.holders
    requires r.kind == ApplyPatch ==> expectedAfter == Some(ApplyAll(r.edits, Seen(Files(w, r.workspace))))
    ensures Kept(w, Taken(w, r, expectedAfter))
  {
    var v := Taken(w, r, expectedAfter);
    hide Kept, ApplyAll, Seen, ActiveIsUnique, LiveAt, SettledAt, ChainAt, Listed;
    forall k | k in v.holders ensures HolderAt(v, k) {
      if k != r.workspace {
        assert HolderAt(w, k);
      }
    }
    assert forall k :: PcAt(v, k) == PcAt(w, k);
    hide Inv, HolderAt, PcAt;
    LocksKept(w, v);
  }

  function Taken(w: World, r: Request, expectedAfter: Option<Tree>): World {
    w.(holders := w.holders[r.workspace := Holder(r.operation, Starting(r, Seen(Files(w, r.workspace)), expectedAfter))])
  }

  lemma BeginStartKept(w: World, r: Request, limits: Limits)
    requires Inv(w)
    ensures Kept(w, DoBeginStart(w, r, limits))
  {
    hide Inv, Kept, ApplyAll, Seen, ValidPatch;
    var before := Seen(Files(w, r.workspace));
    if r.workspace in w.holders || r.operation in w.tables.operations || r.expectedRevision == 0 {
      KeptSame(w);
    } else if r.kind != ApplyPatch {
      TakeKept(w, r, None);
    } else if !ValidPatch(r.edits, before, limits) {
      KeptSame(w);
    } else {
      TakeKept(w, r, Some(ApplyAll(r.edits, before)));
    }
  }

  lemma BeginReconcileKept(w: World, workspace: string, id: string, cancelJob: bool)
    requires Inv(w)
    ensures Kept(w, DoBeginReconcile(w, workspace, id, cancelJob))
  {
    hide Framed, Inv, Kept, Extends, Seen, JobOk, TreeOk, PlanOk;
    var v := DoBeginReconcile(w, workspace, id, cancelJob);
    if v == w {
      KeptSame(w);
    } else {
      ActiveFacts(w, id);
      assert LiveAt(v, workspace);
      LocalStep(w, v, workspace, id);
      KeptIntro(w, v);
    }
  }

  lemma KeptIntro(w: World, v: World)
    requires Inv(v) && Extends(w.tables, v.tables)
    ensures Kept(w, v)
  {}

  // ----- workspace flags and creation ---------------------------------------------------------

  lemma FlagsKept(w: World, id: string, x: Workspace)
    requires Inv(w) && id in w.tables.workspaces
    requires x.scope == w.tables.workspaces[id].scope && x.active == w.tables.workspaces[id].active
    requires x.revision == w.tables.workspaces[id].revision && w.tables.workspaces[id].epoch <= x.epoch
    requires (w.tables.workspaces[id].stopped ==> x.stopped) && (w.tables.workspaces[id].released ==> x.released)
    ensures Kept(w, Flagged(w, id, x))
  {
    hide Extends, ActiveIsUnique, LiveAt, SettledAt, ChainAt, HolderAt, Listed, LocalOf, History;
    var v := Flagged(w, id, x);
    FlagsKeep(w.tables, id, x);
    forall k ensures LocalOf(v, k) == LocalOf(w, k) && History(v, k) == History(w, k) {
      SameOutside(w, v, k);
    }
    forall k | k in v.tables.workspaces ensures ChainAt(v, k) && (v.tables.workspaces[k].active.Some? ==> LiveAt(v, k)) {
      FlagsAt(w, id, x, k);
    }
    forall k | k in v.holders ensures HolderAt(v, k) {
      FlagsHolder(w, id, x, k);
    }
    forall k | k in v.tables.operations && v.tables.operations[k].status.Terminal() ensures SettledAt(v, k) && Listed(v, k) {
      FlagsSettled(w, id, x, k);
    }
  }

  lemma SameOutside(w: World, v: World, k: string)
    requires v == w.(tables := v.tables)
    ensures LocalOf(v, k) == LocalOf(w, k) && History(v, k) == History(w, k)
  {}

  function Flagged(w: World, id: string, x: Workspace): World {
    w.(tables := w.tables.(workspaces := w.tables.workspaces[id := x]))
  }

  lemma FlagsAt(w: World, id: string, x: Workspace, k: string)
    requires id in w.tables.workspaces && k in w.tables.workspaces && ChainAt(w, k)
    requires x.active == w.tables.workspaces[id].active && x.revision == w.tables.workspaces[id].revision
    requires w.tables.workspaces[k].active.Some? ==> LiveAt(w, k)
    ensures var v := Flagged(w, id, x); ChainAt(v, k) && (v.tables.workspaces[k].active.Some? ==> LiveAt(v, k))
  {
    hide Live, Chained, Seen;
  }

  lemma FlagsHolder(w: World, id: string, x: Workspace, k: string)
    requires id in w.tables.workspaces && x.active == w.tables.workspaces[id].active && k in w.holders && HolderAt(w, k)
    ensures HolderAt(Flagged(w, id, x), k)
  {
    hide Seen, ApplyAll;
  }

  lemma FlagsSettled(w: World, id: string, x: Workspace, k: string)
    requires k in w.tables.operations && SettledAt(w, k) && Listed(w, k)
    ensures SettledAt(Flagged(w, id, x), k) && Listed(Flagged(w, id, x), k)
  {
    hide Settled;
  }

  lemma FenceKept(w: World, id: string, scope: Scope, epoch: nat, stop: bool)
    requires Inv(w)
    ensures Kept(w, w.(tables := SetFence(w.tables, id, scope, epoch, stop)))
  {
    hide Inv, Kept;
    var v := w.(tables := SetFence(w.tables, id, scope, epoch, stop));
    if v == w {
      KeptSame(w);
    } else {
      FlagsKept(w, id, v.tables.workspaces[id]);
    }
  }

  lemma AdoptKept(w: World, id: string, epoch: nat)
    requires Inv(w)
    ensures Kept(w, w.(tables := CompleteAdoption(w.tables, id, epoch)))
  {
    hide Inv, Kept;
    var v := w.(tables := CompleteAdoption(w.tables, id, epoch));
    if v == w {
      KeptSame(w);
    } else {
      FlagsKept(w, id, v.tables.workspaces[id]);
    }
  }

  lemma ReleaseKept(w: World, id: string, epoch: nat)
    requires Inv(w)
    ensures Kept(w, w.(tables := ReleaseWorkspace(w.tables, id, epoch)))
  {
    hide Inv, Kept;
    var v := w.(tables := ReleaseWorkspace(w.tables, id, epoch));
    if v == w {
      KeptSame(w);
    } else {
      FlagsKept(w, id, v.tables.workspaces[id]);
    }
  }

  /** `v` differs from `w` only in one workspace and one of its operations. */
  ghost predicate Confined(w: World, v: World, workspace: string, id: string) {
    && v.tables.operations.Keys == w.tables.operations.Keys + {id}
    && (forall k :: k in w.tables.operations && k != id ==> v.tables.operations[k] == w.tables.operations[k])
    && v.tables.workspaces.Keys == w.tables.workspaces.Keys
    && (forall k :: k in w.tables.workspaces && k != workspace ==> v.tables.workspaces[k] == w.tables.workspaces[k])
    && (forall k :: k != id ==> LocalOf(v, k) == LocalOf(w, k))
    && (forall k :: k != workspace ==> Files(v, k) == Files(w, k))
    && (forall k :: k != workspace ==> (k in v.holders <==> k in w.holders))
    && (forall k :: k != workspace && k in w.holders ==> v.holders[k] == w.holders[k])
    && (forall k :: k != workspace ==> History(v, k) == History(w, k))
  }

  lemma OthersKept(w: World, v: World, workspace: string, id: string, k: string)
    requires Confined(w, v, workspace, id) && k != workspace && k in w.tables.workspaces && ChainAt(w, k)
    requires id in w.tables.operations ==> !w.tables.operations[id].status.Terminal()
    requires w.tables.workspaces[k].active != Some(id)
    requires w.tables.workspaces[k].active.Some? ==> LiveAt(w, k)
    ensures ChainAt(v, k) && (v.tables.workspaces[k].active.Some? ==> LiveAt(v, k))
  {
    hide Live, Seen, Chained;
    assert PcAt(v, k) == PcAt(w, k);
    ChainSame(History(w, k), w.tables.operations, v.tables.operations, k, w.tables.workspaces[k].revision, id);
  }

  lemma OtherHolder(w: World, v: World, workspace: string, id: string, k: string)
    requires Confined(w, v, workspace, id) && k != workspace && k in w.holders && HolderAt(w, k)
    ensures HolderAt(v, k)
  {
    hide Seen, ApplyAll, LocalOf, History;
  }

  lemma OtherSettled(w: World, v: World, workspace: string, id: string, k: string)
    requires Confined(w, v, workspace, id) && k != id && k in w.tables.operations && SettledAt(w, k) && Listed(w, k)
    requires forall x :: x in History(w, workspace) ==> x in History(v, workspace)
    ensures SettledAt(v, k) && Listed(v, k)
  {
    hide Settled, LocalOf, History, Files;
  }

  lemma NotElsewhere(t: Tables, workspace: string, id: string)
    requires ActiveIsUnique(t) && (id in t.operations ==> t.operations[id].request.workspace == workspace)
    ensures forall k :: k in t.workspaces && k != workspace ==> t.workspaces[k].active != Some(id)
  {
    assert forall k :: k in t.workspaces ==> ActivePlaced(t, k);
  }

  /** A transaction confined to one workspace keeps the invariant if that workspace does. */
  lemma ConfinedKept(w: World, v: World, workspace: string, id: string)
    requires Inv(w) && Confined(w, v, workspace, id) && workspace in w.tables.workspaces
    requires id in w.tables.operations ==> !w.tables.operations[id].status.Terminal() && w.tables.operations[id].request.workspace == workspace
    requires ActiveIsUnique(v.tables) && Extends(w.tables, v.tables) && ChainAt(v, workspace)
    requires v.tables.workspaces[workspace].active.Some? ==> LiveAt(v, workspace)
    requires workspace in v.holders ==> HolderAt(v, workspace)
    requires v.tables.operations[id].status.Terminal() ==> SettledAt(v, id) && Listed(v, id)
    requires forall x :: x in History(w, workspace) ==> x in History(v, workspace)
    ensures Kept(w, v)
  {
    hide LiveAt, SettledAt, ChainAt, HolderAt, Listed, LocalOf, ActiveIsUnique, Extends, Files, History;
    NotElsewhere(w.tables, workspace, id);
    forall k | k in v.tables.workspaces ensures ChainAt(v, k) && (v.tables.workspaces[k].active.Some? ==> LiveAt(v, k)) {
      if k != workspace {
        OthersKept(w, v, workspace, id, k);
      }
    }
    forall k | k in v.holders ensures HolderAt(v, k) {
      if k != workspace {
        OtherHolder(w, v, workspace, id, k);
      }
    }
    forall k | k in v.tables.operations && v.tables.operations[k].status.Terminal() ensures SettledAt(v, k) && Listed(v, k) {
      if k != id {
        OtherSettled(w, v, workspace, id, k);
      }
    }
  }

  // ----- rows created and settled ----------------------------------------------------------

  lemma ReservedLive(r: Request, before: Tree, expectedAfter: Option<Tree>)
    requires r.kind == ApplyPatch ==> expectedAfter == Some(ApplyAll(r.edits, before))
    ensures Live(FreshRow(r, before, expectedAfter), r.expectedRevision, NOTHING, Some(Reserved), before)
  {
    hide Visible;
    assert r.edits[..0] == [];
  }

  lemma ReserveRowKept(w: World, workspace: string)
    requires Inv(w)
    ensures Kept(w, DoReserveRow(w, workspace))
  {
    hide Inv, Kept, Extends, ActiveIsUnique, Seen, Live;
    if workspace !in w.holders || !w.holders[workspace].pc.Starting? {
      KeptSame(w);
      return;
    }
    var h := w.holders[workspace].pc;
    if ReserveError(w.tables, h.request).Some? || h.request.operation in w.tables.operations {
      CrashKept(w, {workspace});
    } else {
      CreatedKept(w, workspace);
    }
  }

  lemma StartingFacts(w: World, workspace: string)
    requires Inv(w) && workspace in w.holders && w.holders[workspace].pc.Starting?
    requires ReserveError(w.tables, w.holders[workspace].pc.request).None?
    requires w.holders[workspace].pc.request.operation !in w.tables.operations
    ensures var pc := w.holders[workspace].pc; var id := pc.request.operation;
      && pc.request.workspace == workspace && workspace in w.tables.workspaces && ChainAt(w, workspace)
      && Seen(Files(w, workspace)) == pc.before && LocalOf(w, id) == NOTHING && ActiveIsUnique(w.tables)
      && w.tables.workspaces[workspace].revision == pc.request.expectedRevision
      && (pc.request.kind == ApplyPatch ==> pc.expectedAfter == Some(ApplyAll(pc.request.edits, pc.before)))
  {
    hide ApplyAll, Seen, LiveAt, SettledAt, ChainAt, Listed, ActiveIsUnique;
    assert HolderAt(w, workspace);
  }

  lemma CreatedConfined(w: World, workspace: string)
    requires workspace in w.holders && w.holders[workspace].pc.Starting? && w.holders[workspace].pc.request.workspace == workspace
    requires ReserveError(w.tables, w.holders[workspace].pc.request).None?
    requires w.holders[workspace].pc.request.operation !in w.tables.operations
    ensures var v := DoReserveRow(w, workspace); var pc := w.holders[workspace].pc; var id := pc.request.operation;
      && Confined(w, v, workspace, id) && v.tables == Reserve(w.tables, pc.request, pc.before, pc.expectedAfter)
      && v == w.(tables := v.tables, holders := v.holders)
      && workspace in v.holders && v.holders[workspace] == Holder(id, Reserved)
      && id in v.tables.operations && v.tables.operations[id] == FreshRow(pc.request, pc.before, pc.expectedAfter)
      && v.tables.workspaces[workspace] == w.tables.workspaces[workspace].(active := Some(id))
  {}

  lemma CreatedKept(w: World, workspace: string)
    requires Inv(w) && workspace in w.holders && w.holders[workspace].pc.Starting?
    requires ReserveError(w.tables, w.holders[workspace].pc.request).None?
    requires w.holders[workspace].pc.request.operation !in w.tables.operations
    ensures Kept(w, DoReserveRow(w, workspace))
  {
    hide Inv, Kept, Extends, ActiveIsUnique, Seen, Live, ApplyAll, Chained, Confined, DoReserveRow, ReserveError;
    var v, pc := DoReserveRow(w, workspace), w.holders[workspace].pc;
    var id := pc.request.operation;
    StartingFacts(w, workspace);
    CreatedConfined(w, workspace);
    ReserveKeeps(w.tables, pc.request, pc.before, pc.expectedAfter);
    ReservedLive(pc.request, pc.before, pc.expectedAfter);
    assert LocalOf(v, id) == NOTHING && PcAt(v, workspace) == Some(Reserved) && Files(v, workspace) == Files(w, workspace);
    assert LiveAt(v, workspace);
    assert History(v, workspace) == History(w, workspace);
    CreatedChain(w, v, workspace, id);
    ConfinedKept(w, v, workspace, id);
  }

  lemma CreatedChain(w: World, v: World, workspace: string, id: string)
    requires Confined(w, v, workspace, id) && workspace in w.tables.workspaces && id !in w.tables.operations && ChainAt(w, workspace)
    requires History(v, workspace) == History(w, workspace)
    requires v.tables.workspaces[workspace].revision == w.tables.workspaces[workspace].revision
    ensures ChainAt(v, workspace)
  {
    hide Chained, History, LocalOf, Files;
    ChainSame(History(w, workspace), w.tables.operations, v.tables.operations, workspace, w.tables.workspaces[workspace].revision, id);
  }

  /** What a row says once it settles. */
  lemma SettleFacts(row: Operation, revision: nat, l: Local, status: Status, never: bool, tree: Tree)
    requires Live(row, revision, l, Some(Finishing(status, never, tree)), tree) && !PartialPatch(row, status, tree)
    ensures var s := SettlementOf(row, status, never, tree);
      Settled(row.(status := s.status, after := Some(s.after), afterRevision := s.afterRevision, neverStarted := s.neverStarted), l)
  {
    hide ApplyAll, VisibleEdits;
    assert row.request.edits[..|row.request.edits|] == row.request.edits;
  }

  lemma ChainGrows(h: seq<string>, a: map<string, Operation>, workspace: string, revision: nat, id: string, row: Operation)
    requires Chained(h, a, workspace, revision) && id in a && !a[id].status.Terminal() && row.status.Terminal()
    requires row.request.workspace == workspace && row.request.expectedRevision == revision
    ensures Chained(h + [id], a[id := row], workspace, row.afterRevision)
  {
    ChainSame(h, a, a[id := row], workspace, revision, id);
    NotInChain(h, a, workspace, revision, id);
    ChainAppend(h, a[id := row], workspace, revision, id);
  }

  lemma NotInChain(h: seq<string>, a: map<string, Operation>, workspace: string, revision: nat, id: string)
    requires Chained(h, a, workspace, revision) && id in a && !a[id].status.Terminal()
    ensures id !in h
  {}

  lemma ChainAppend(h: seq<string>, ops: map<string, Operation>, workspace: string, revision: nat, id: string)
    requires Chained(h, ops, workspace, revision) && id in ops && id !in h && ops[id].status.Terminal()
    requires ops[id].request.workspace == workspace && ops[id].request.expectedRevision == revision
    ensures Chained(h + [id], ops, workspace, ops[id].afterRevision)
  {
    var g := h + [id];
    assert forall i :: 0 <= i < |h| ==> g[i] == h[i];
    assert forall n: nat :: n <= |h| ==> RevisionAt(g, ops, n) == RevisionAt(h, ops, n);
  }

  ghost predicate MaySettle(w: World, workspace: string) {
    Held(w, workspace) && w.holders[workspace].pc.Finishing?
    && !PartialPatch(Row(w, workspace), w.holders[workspace].pc.status, w.holders[workspace].pc.seen)
  }

  function SettledRow(w: World, workspace: string): Operation
    requires Held(w, workspace) && w.holders[workspace].pc.Finishing?
  {
    var row, pc := Row(w, workspace), w.holders[workspace].pc;
    var s := SettlementOf(row, pc.status, pc.never, pc.seen);
    row.(status := s.status, after := Some(s.after), afterRevision := s.afterRevision, neverStarted := s.neverStarted)
  }

  /** A settlement that reaches the journal is accepted. */
  lemma FinishAccepted(w: World, workspace: string)
    requires Inv(w) && MaySettle(w, workspace)
    ensures var id, pc := w.holders[workspace].operation, w.holders[workspace].pc;
      && FinishError(w.tables, id, SettlementOf(Row(w, workspace), pc.status, pc.never, pc.seen)).None?
      && !Row(w, workspace).status.Terminal() && pc.status.Terminal() && pc.seen == Seen(Files(w, workspace))
      && workspace in w.tables.workspaces && w.tables.workspaces[workspace].active == Some(id)
      && Row(w, workspace).request.workspace == workspace
      && Row(w, workspace).request.expectedRevision == w.tables.workspaces[workspace].revision
      && Settled(SettledRow(w, workspace), LocalOf(w, id))
  {
    hide Inv, Seen, ApplyAll, VisibleEdits, Settled;
    HeldFacts(w, workspace);
    var id, pc := w.holders[workspace].operation, w.holders[workspace].pc;
    SettleFacts(Row(w, workspace), w.tables.workspaces[workspace].revision, LocalOf(w, id), pc.status, pc.never, pc.seen);
  }

  lemma FinishConfined(w: World, workspace: string)
    requires MaySettle(w, workspace) && workspace in w.tables.workspaces
    requires Row(w, workspace).request.workspace == workspace && !Row(w, workspace).status.Terminal()
    requires var id, pc := w.holders[workspace].operation, w.holders[workspace].pc;
      FinishError(w.tables, id, SettlementOf(Row(w, workspace), pc.status, pc.never, pc.seen)).None?
    ensures var v, id, pc := DoFinishRow(w, workspace), w.holders[workspace].operation, w.holders[workspace].pc;
      && Confined(w, v, workspace, id)
      && v.tables == Finish(w.tables, id, SettlementOf(Row(w, workspace), pc.status, pc.never, pc.seen))
      && v.tables.operations == w.tables.operations[id := SettledRow(w, workspace)]
      && workspace !in v.holders && LocalOf(v, id) == LocalOf(w, id) && workspace in v.tables.workspaces
      && v.tables.workspaces[workspace].active.None?
      && v.tables.workspaces[workspace].revision == SettledRow(w, workspace).afterRevision
      && History(v, workspace) == History(w, workspace) + [id]
  {
    hide Seen, Finish, FinishError, Confined, LocalOf;
    var v, id, pc := DoFinishRow(w, workspace), w.holders[workspace].operation, w.holders[workspace].pc;
    FinishShape(w.tables, id, SettlementOf(Row(w, workspace), pc.status, pc.never, pc.seen));
    assert v == w.(tables := v.tables, holders := w.holders - {workspace}, finished := w.finished[workspace := History(w, workspace) + [id]]);
    ConfinedBy(w, v, workspace, id);
  }

  lemma ConfinedBy(w: World, v: World, workspace: string, id: string)
    requires id in w.tables.operations && id in v.tables.operations && workspace in w.tables.workspaces && workspace in v.tables.workspaces
    requires v.tables.operations == w.tables.operations[id := v.tables.operations[id]]
    requires v.tables.workspaces == w.tables.workspaces[workspace := v.tables.workspaces[workspace]]
    requires v == w.(tables := v.tables, holders := w.holders - {workspace}, finished := w.finished[workspace := History(w, workspace) + [id]])
    ensures Confined(w, v, workspace, id) && LocalOf(v, id) == LocalOf(w, id)
  {}

  lemma FinishShape(t: Tables, id: string, s: Settlement)
    requires id in t.operations && FinishError(t, id, s).None? && !t.operations[id].status.Terminal()
    ensures var workspace := t.operations[id].request.workspace;
      && workspace in t.workspaces
      && Finish(t, id, s) == Tables(
        t.workspaces[workspace := t.workspaces[workspace].(active := None, revision := s.afterRevision)],
        t.operations[id := t.operations[id].(status := s.status, after := Some(s.after), afterRevision := s.afterRevision,
                                             neverStarted := s.neverStarted)])
  {}

  lemma FinishRowKept(w: World, workspace: string)
    requires Inv(w)
    ensures Kept(w, DoFinishRow(w, workspace))
  {
    hide Inv, Kept, Seen, Finish, FinishError, SettlementOf;
    if !Held(w, workspace) || !w.holders[workspace].pc.Finishing? {
      KeptSame(w);
    } else if !MaySettle(w, workspace) {
      DropKept(w, workspace, true);
    } else {
      SettlementKept(w, workspace);
    }
  }

  lemma SettlementKept(w: World, workspace: string)
    requires Inv(w) && MaySettle(w, workspace)
    ensures Kept(w, DoFinishRow(w, workspace))
  {
    hide Inv, Kept, Seen, Finish, FinishError, Settled, Confined, DoFinishRow, Chained, History, LocalOf, ActiveIsUnique, Extends;
    var v, id, pc := DoFinishRow(w, workspace), w.holders[workspace].operation, w.holders[workspace].pc;
    FinishAccepted(w, workspace);
    FinishConfined(w, workspace);
    InvParts(w, workspace);
    FinishKeeps(w.tables, id, SettlementOf(Row(w, workspace), pc.status, pc.never, pc.seen));
    ChainGrows(History(w, workspace), w.tables.operations, workspace, w.tables.workspaces[workspace].revision, id, SettledRow(w, workspace));
    ConfinedKept(w, v, workspace, id);
  }

  lemma InvParts(w: World, workspace: string)
    requires Inv(w) && workspace in w.tables.workspaces
    ensures ActiveIsUnique(w.tables) && ChainAt(w, workspace)
  {}

  // ----- a new workspace -------------------------------------------------------------------

  lemma PrepareKept(w: World, workspace: string, scope: Scope, epoch: nat, tree: Tree)
    requires Inv(w)
    ensures Kept(w, DoPrepare(w, workspace, scope, epoch, tree))
  {
    hide LiveAt, SettledAt, ChainAt, HolderAt, Listed, LocalOf, ActiveIsUnique, Extends, History, Files;
    if workspace in w.tables.workspaces || workspace in w.holders {
      ExtendsSame(w.tables);
      return;
    }
    var v := DoPrepare(w, workspace, scope, epoch, tree);
    CreateKeeps(w.tables, workspace, scope, epoch);
    forall k ensures LocalOf(v, k) == LocalOf(w, k) && History(v, k) == History(w, k) {
      PrepareLocal(w, v, k);
    }
    forall k | k in v.tables.workspaces ensures ChainAt(v, k) && (v.tables.workspaces[k].active.Some? ==> LiveAt(v, k)) {
      PrepareAt(w, workspace, scope, epoch, tree, k);
    }
    forall k | k in v.holders ensures HolderAt(v, k) {
      PrepareHolder(w, workspace, scope, epoch, tree, k);
    }
    forall k | k in v.tables.operations && v.tables.operations[k].status.Terminal() ensures SettledAt(v, k) && Listed(v, k) {
      PrepareSettled(w, v, k);
    }
  }

  lemma ExtendsSame(t: Tables)
    ensures Extends(t, t)
  {}

  lemma PrepareLocal(w: World, v: World, k: string)
    requires v == w.(tables := v.tables, files := v.files)
    ensures LocalOf(v, k) == LocalOf(w, k) && History(v, k) == History(w, k)
  {}

  lemma PrepareSettled(w: World, v: World, k: string)
    requires v == w.(tables := v.tables, files := v.files) && v.tables.operations == w.tables.operations
    requires k in w.tables.operations && SettledAt(w, k) && Listed(w, k)
    ensures SettledAt(v, k) && Listed(v, k)
  {
    hide Settled;
  }

  lemma PrepareAt(w: World, workspace: string, scope: Scope, epoch: nat, tree: Tree, k: string)
    requires workspace !in w.tables.workspaces && workspace !in w.holders && History(w, workspace) == []
    requires k == workspace || k in w.tables.workspaces
    requires k in w.tables.workspaces ==> ChainAt(w, k) && (w.tables.workspaces[k].active.Some? ==> LiveAt(w, k))
    ensures var v := DoPrepare(w, workspace, scope, epoch, tree);
      k in v.tables.workspaces && ChainAt(v, k) && (v.tables.workspaces[k].active.Some? ==> LiveAt(v, k))
  {
    hide Live, Seen;
  }

  lemma PrepareHolder(w: World, workspace: string, scope: Scope, epoch: nat, tree: Tree, k: string)
    requires workspace !in w.tables.workspaces && workspace !in w.holders && k in w.holders && HolderAt(w, k)
    ensures HolderAt(DoPrepare(w, workspace, scope, epoch, tree), k)
  {
    hide Seen, ApplyAll;
  }

  // ----- every step, every run -----------------------------------------------------------------

  lemma AbandonKept(w: World, workspace: string, mark: bool)
    requires Inv(w)
    ensures Kept(w, DoAbandon(w, workspace, mark))
  {
    hide Inv, Kept;
    if Held(w, workspace) {
      DropKept(w, workspace, mark);
    } else {
      CrashKept(w, {workspace});
    }
  }

  lemma ExecuteKept(w: World, step: Step)
    requires Inv(w)
    requires step.Prepare? || step.BeginStart? || step.ReserveRow? || step.Mark? || step.CheckCancel? || step.StartTool? || step.RejectArgs?
      || step.Launch? || step.Intend? || step.Send? || step.Collect? || step.Kill? || step.EditFile? || step.EndEdits? || step.ReadBack?
    ensures Kept(w, Do(w, step))
  {
    hide Inv, Kept, DoPrepare, DoBeginStart, DoReserveRow, DoMark, DoCheckCancel, DoStartTool, DoRejectArgs, DoLaunch, DoIntend, DoSend,
      DoCollect, DoKill, DoEditFile, DoEndEdits, DoReadBack, DoFinishRow, DoAbandon, DoBeginReconcile, DoSettleNever,
      DoRemoveNever, DoSettleTree, DoDeliver, DoJobWrite, DoJobExit, RequestCancel, SetFence, CompleteAdoption, ReleaseWorkspace;
    match step
    case Prepare(workspace, scope, epoch, tree) => PrepareKept(w, workspace, scope, epoch, tree);
    case BeginStart(r, limits) => BeginStartKept(w, r, limits);
    case ReserveRow(workspace) => ReserveRowKept(w, workspace);
    case Mark(workspace) => MarkKept(w, workspace);
    case CheckCancel(workspace) => CheckCancelKept(w, workspace);
    case StartTool(workspace, ok) => StartToolKept(w, workspace, ok);
    case RejectArgs(workspace) => RejectArgsKept(w, workspace);
    case Launch(workspace) => LaunchKept(w, workspace);
    case Intend(workspace) => IntendKept(w, workspace);
    case Send(workspace) => SendKept(w, workspace);
    case Collect(workspace, exitCode, interrupted) => CollectKept(w, workspace, exitCode, interrupted);
    case Kill(workspace) => KillKept(w, workspace);
    case EditFile(workspace) => EditFileKept(w, workspace);
    case EndEdits(workspace, ok) => EndEditsKept(w, workspace, ok);
    case ReadBack(workspace) => ReadBackKept(w, workspace);
  }

  lemma DoKept(w: World, step: Step)
    requires Inv(w)
    ensures Kept(w, Do(w, step))
  {
    hide Inv, Kept, DoPrepare, DoBeginStart, DoReserveRow, DoMark, DoCheckCancel, DoStartTool, DoRejectArgs, DoLaunch, DoIntend, DoSend,
      DoCollect, DoKill, DoEditFile, DoEndEdits, DoReadBack, DoFinishRow, DoAbandon, DoBeginReconcile, DoSettleNever,
      DoRemoveNever, DoSettleTree, DoDeliver, DoJobWrite, DoJobExit, RequestCancel, SetFence, CompleteAdoption, ReleaseWorkspace;
    match step
    case FinishRow(workspace) => FinishRowKept(w, workspace);
    case Abandon(workspace, mark) => AbandonKept(w, workspace, mark);
    case Crash(workspaces) => CrashKept(w, workspaces);
    case BeginReconcile(workspace, id, cancelJob) => BeginReconcileKept(w, workspace, id, cancelJob);
    case SettleNever(workspace) => SettleNeverKept(w, workspace);
    case RemoveNever(workspace) => RemoveNeverKept(w, workspace);
    case SettleTree(workspace) => SettleTreeKept(w, workspace);
    case Deliver(id) => DeliverKept(w, id);
    case JobWrite(id, tree) => JobWriteKept(w, id, tree);
    case JobExit(id) => JobExitKept(w, id);
    case Cancel(id) => CancelKept(w, id);
    case Fence(workspace, scope, epoch, stop) => FenceKept(w, workspace, scope, epoch, stop);
    case Adopt(workspace, epoch) => AdoptKept(w, workspace, epoch);
    case Release(workspace, epoch) => ReleaseKept(w, workspace, epoch);
    case _ => ExecuteKept(w, step);
  }
}
