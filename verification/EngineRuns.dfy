/** What the runner guarantees over every sequence of steps, crashes included. */
module EngineRuns {
  import opened Domain
  import opened Patch
  import opened Journal
  import opened Engine
  import opened EngineInvariant
  import opened EngineSteps
  import opened EngineTables

  lemma {:induction false} ExecKept(w: World, steps: seq<Step>)
    requires Inv(w)
    ensures Kept(w, Exec(w, steps))
  {
    hide Inv, Do;
    if steps == [] {
      ExtendsSame(w.tables);
    } else {
      var u := Exec(w, steps[..|steps| - 1]);
      ExecKept(w, steps[..|steps| - 1]);
      DoKept(u, steps[|steps| - 1]);
      ExtendsTransitive(w.tables, u.tables, Exec(w, steps).tables);
    }
  }

  /** The world after `steps` from an empty machine. */
  ghost function Reached(steps: seq<Step>): World { Exec(INIT, steps) }

  lemma ReachedInv(steps: seq<Step>)
    ensures Inv(Reached(steps))
  {
    hide Inv, Exec;
    InitInv();
    ExecKept(INIT, steps);
    KeptInv(INIT, Reached(steps));
  }

  lemma KeptInv(w: World, v: World)
    requires Kept(w, v)
    ensures Inv(v) && Extends(w.tables, v.tables)
  {}

  /** Locks, rows and daemon state of one operation, settled or not. */
  lemma OperationFacts(w: World, id: string)
    requires Inv(w)
    ensures LocalOf(w, id).bodies <= 1
    ensures id in w.tables.operations && w.tables.operations[id].status.Terminal() ==> Settled(w.tables.operations[id], LocalOf(w, id))
    ensures id in w.tables.operations && !w.tables.operations[id].status.Terminal() ==> JobOk(w.tables.operations[id], LocalOf(w, id))
    ensures id !in w.tables.operations ==> LocalOf(w, id) == NOTHING
  {
    if id in w.tables.operations {
      if w.tables.operations[id].status.Terminal() {
        assert SettledAt(w, id);
      } else {
        hide Inv, LocalOf, TreeOk, PlanOk, PcOk, Seen;
        ActiveFacts(w, id);
      }
    }
  }

  // ----- did the command run? ------------------------------------------------------------------

  /** Whatever the mix of retries, crashes, restarts and takeovers, an operation's
      body runs at most once. */
  lemma BodyRunsAtMostOnce(steps: seq<Step>, id: string)
    ensures LocalOf(Reached(steps), id).bodies <= 1
  {
    hide Inv, LocalOf, Exec;
    ReachedInv(steps);
    OperationFacts(Reached(steps), id);
  }

  /** A process whose cancel request committed before its start intent never starts. */
  lemma CancelPrecludesStart(steps: seq<Step>, later: seq<Step>, id: string)
    requires var t := Reached(steps).tables;
      id in t.operations && t.operations[id].cancelRequested && !t.operations[id].startIntent
    ensures var v := Exec(Reached(steps), later);
      && id in v.tables.operations && v.tables.operations[id].cancelRequested && !v.tables.operations[id].startIntent
      && (v.tables.operations[id].request.kind == Process ==> LocalOf(v, id).bodies == 0 && id !in v.sent)
  {
    hide Inv, Exec, LocalOf;
    var w, v := Reached(steps), Exec(Reached(steps), later);
    ReachedInv(steps);
    ExecKept(w, later);
    KeptInv(w, v);
    OperationFacts(v, id);
    assert RowExtends(w.tables.operations[id], v.tables.operations[id]);
    SentIs(v, id);
  }

  lemma SentIs(w: World, id: string)
    ensures LocalOf(w, id).sent <==> id in w.sent
  {}

  /** A never-started receipt is true when written and stays true. */
  lemma NeverStartedForever(steps: seq<Step>, later: seq<Step>, id: string)
    requires var t := Reached(steps).tables;
      id in t.operations && t.operations[id].status.Terminal() && t.operations[id].neverStarted
    ensures var v := Exec(Reached(steps), later);
      && id in v.tables.operations && v.tables.operations[id] == Reached(steps).tables.operations[id]
      && !v.tables.operations[id].startIntent && LocalOf(v, id).bodies == 0 && id !in v.sent
      && !JobRunning(v, id)
  {
    hide Inv, Exec;
    var w, v := Reached(steps), Exec(Reached(steps), later);
    ReachedInv(steps);
    ExecKept(w, later);
    KeptInv(w, v);
    assert RowExtends(w.tables.operations[id], v.tables.operations[id]);
    OperationFacts(v, id);
  }

  /** A body starts only past the cancel check, or on a start request still in flight. */
  lemma BodyNeedsLiveOperation(w: World, step: Step, id: string)
    ensures LocalOf(Do(w, step), id).bodies == LocalOf(w, id).bodies || id in w.sent
      || (step.StartTool? && Held(w, step.workspace) && w.holders[step.workspace] == Holder(id, Cleared))
  {
    hide Seen, ValidPatch, ApplyAll, Journal.Reserve, Finish, MarkRunning, MarkUnknown, SetStartIntent, RequestCancel, SetFence, CompleteAdoption,
      ReleaseWorkspace, CreateWorkspace, ReserveError, FinishError, PartialPatch, MaySettleNever, Apply, LocalOf;
    if step.StartTool? {
      StartToolBodies(w, step.workspace, step.ok, id);
    } else if step.Deliver? {
      DeliverBodies(w, step.operation, id);
    } else {
      NoBodies(w, step);
      SameBodies(w, Do(w, step), id);
    }
  }

  lemma SameBodies(w: World, v: World, id: string)
    requires v.bodies == w.bodies
    ensures LocalOf(v, id).bodies == LocalOf(w, id).bodies
  {}

  lemma StartToolBodies(w: World, workspace: string, ok: bool, id: string)
    ensures LocalOf(DoStartTool(w, workspace, ok), id).bodies == LocalOf(w, id).bodies
      || (Held(w, workspace) && w.holders[workspace] == Holder(id, Cleared))
  {
    hide Framed;
  }

  lemma DeliverBodies(w: World, sent: string, id: string)
    ensures LocalOf(DoDeliver(w, sent), id).bodies == LocalOf(w, id).bodies || id in w.sent
  {}

  /** All but seven kinds of step leave bodies, history, rows, starts, checks and fences alone. */
  lemma DoFramed(w: World, step: Step)
    requires !step.BeginStart? && !step.ReserveRow? && !step.CheckCancel? && !step.StartTool? && !step.Deliver? && !step.FinishRow? && !step.Adopt?
    ensures Framed(w, Do(w, step))
  {
    hide DoPrepare, DoBeginStart, DoReserveRow, DoMark, DoCheckCancel, DoStartTool, DoRejectArgs, DoLaunch, DoIntend, DoSend,
      DoCollect, DoKill, DoEditFile, DoEndEdits, DoReadBack, DoFinishRow, DoAbandon, DoBeginReconcile, DoSettleNever,
      DoRemoveNever, DoSettleTree, DoDeliver, DoJobWrite, DoJobExit, DoCrash, DoCancel, DoFence, DoAdopt, DoRelease, Framed;
  }

  lemma NoBodies(w: World, step: Step)
    requires !step.StartTool? && !step.Deliver?
    ensures Do(w, step).bodies == w.bodies
  {
    hide DoPrepare, DoBeginStart, DoReserveRow, DoMark, DoCheckCancel, DoStartTool, DoRejectArgs, DoLaunch, DoIntend, DoSend,
      DoCollect, DoKill, DoEditFile, DoEndEdits, DoReadBack, DoFinishRow, DoAbandon, DoBeginReconcile, DoSettleNever,
      DoRemoveNever, DoSettleTree, DoDeliver, DoJobWrite, DoJobExit, DoCrash, DoCancel, DoFence, DoAdopt, DoRelease;
    if !step.BeginStart? && !step.ReserveRow? && !step.CheckCancel? && !step.FinishRow? && !step.Adopt? {
      DoFramed(w, step);
    }
  }

  /** The executor of `id` has passed its check for a cancel request and not yet
      started the file tool. */
  ghost predicate PastCheck(w: World, id: string)
    requires id in w.tables.operations
  {
    var workspace := w.tables.operations[id].request.workspace;
    workspace in w.holders && w.holders[workspace] == Holder(id, Cleared)
  }

  lemma ChecksPass(w: World, step: Step)
    requires !step.CheckCancel?
    ensures NoneCleared(w, Do(w, step))
  {
    hide DoPrepare, DoBeginStart, DoReserveRow, DoMark, DoCheckCancel, DoStartTool, DoRejectArgs, DoLaunch, DoIntend, DoSend,
      DoCollect, DoKill, DoEditFile, DoEndEdits, DoReadBack, DoFinishRow, DoAbandon, DoBeginReconcile, DoSettleNever,
      DoRemoveNever, DoSettleTree, DoDeliver, DoJobWrite, DoJobExit, DoCrash, DoCancel, DoFence, DoAdopt, DoRelease;
    if !step.BeginStart? && !step.ReserveRow? && !step.StartTool? && !step.Deliver? && !step.FinishRow? && !step.Adopt? {
      DoFramed(w, step);
    }
  }

  /** A cancelled operation does not pass the check any more. */
  lemma CancelledFailsCheck(w: World, step: Step, id: string)
    requires Inv(w) && id in w.tables.operations && w.tables.operations[id].cancelRequested && !PastCheck(w, id)
    ensures id in Do(w, step).tables.operations && !PastCheck(Do(w, step), id)
  {
    hide Inv, Do, DoCheckCancel;
    DoKept(w, step);
    KeptInv(w, Do(w, step));
    SameRequest(w, Do(w, step), id);
    if step.CheckCancel? {
      CheckIs(w, step);
    } else {
      ChecksPass(w, step);
    }
  }

  lemma CheckIs(w: World, step: Step)
    requires step.CheckCancel?
    ensures Do(w, step) == DoCheckCancel(w, step.workspace)
  {}

  /** A cancel request that commits before the executor's check, and before the start
      intent of a process, keeps the body from ever running. */
  lemma {:induction false} CancelledNeverRuns(w: World, later: seq<Step>, id: string)
    requires Inv(w) && id in w.tables.operations && w.tables.operations[id].cancelRequested
    requires !w.tables.operations[id].startIntent && LocalOf(w, id).bodies == 0 && !PastCheck(w, id)
    ensures var v := Exec(w, later); id in v.tables.operations && LocalOf(v, id).bodies == 0 && !PastCheck(v, id)
  {
    hide Inv, Do, LocalOf, Settled;
    if later != [] {
      var u, step := Exec(w, later[..|later| - 1]), later[|later| - 1];
      CancelledNeverRuns(w, later[..|later| - 1], id);
      ExecKept(w, later[..|later| - 1]);
      KeptInv(w, u);
      assert RowExtends(w.tables.operations[id], u.tables.operations[id]);
      BodyNeedsLiveOperation(u, step, id);
      UnsentWithoutIntent(u, id);
      CancelledFailsCheck(u, step, id);
      if step.StartTool? && Held(u, step.workspace) {
        HeldFacts(u, step.workspace);
      }
    }
  }

  /** Exactly when a cancelled operation whose body has not run can still run it: its
      start intent is unset, and its file tool has already passed the check. */
  lemma CancelledRunsIff(steps: seq<Step>, id: string)
    requires var w := Reached(steps);
      && id in w.tables.operations && w.tables.operations[id].cancelRequested
      && !w.tables.operations[id].startIntent && LocalOf(w, id).bodies == 0
    ensures (exists later :: LocalOf(Exec(Reached(steps), later), id).bodies > 0) <==> PastCheck(Reached(steps), id)
  {
    hide Inv, Exec, LocalOf, PastCheck;
    var w := Reached(steps);
    ReachedInv(steps);
    if PastCheck(w, id) {
      var workspace := w.tables.operations[id].request.workspace;
      StartsTool(w, id);
      assert LocalOf(Exec(w, [StartTool(workspace, true)]), id).bodies > 0;
    } else {
      forall later ensures LocalOf(Exec(w, later), id).bodies == 0 {
        CancelledNeverRuns(w, later, id);
      }
    }
  }

  lemma StartsTool(w: World, id: string)
    requires id in w.tables.operations && PastCheck(w, id)
    ensures LocalOf(Exec(w, [StartTool(w.tables.operations[id].request.workspace, true)]), id).bodies > 0
  {
    var step := StartTool(w.tables.operations[id].request.workspace, true);
    assert [step][..0] == [];
    assert Exec(w, [step]) == Do(Exec(w, []), step);
  }

  lemma UnsentWithoutIntent(w: World, id: string)
    requires Inv(w) && id in w.tables.operations && !w.tables.operations[id].startIntent
    ensures id !in w.sent
  {
    hide Inv;
    OperationFacts(w, id);
  }

  /** Nothing runs on behalf of a settled operation. */
  lemma {:induction false} SettledIsQuiet(w: World, later: seq<Step>, id: string)
    requires Inv(w) && id in w.tables.operations && w.tables.operations[id].status.Terminal()
    ensures var v := Exec(w, later);
      && id in v.tables.operations && v.tables.operations[id] == w.tables.operations[id]
      && LocalOf(v, id).bodies == LocalOf(w, id).bodies && id !in v.sent && !JobRunning(v, id)
  {
    hide Inv, Do, Settled, JobOk;
    var v := Exec(w, later);
    ExecKept(w, later);
    KeptInv(w, v);
    assert RowExtends(w.tables.operations[id], v.tables.operations[id]);
    QuietFacts(v, id);
    if later != [] {
      var u, step := Exec(w, later[..|later| - 1]), later[|later| - 1];
      ExecKept(w, later[..|later| - 1]);
      KeptInv(w, u);
      SettledIsQuiet(w, later[..|later| - 1], id);
      BodyNeedsLiveOperation(u, step, id);
      if step.StartTool? && Held(u, step.workspace) {
        HeldFacts(u, step.workspace);
      }
    }
  }

  lemma QuietFacts(w: World, id: string)
    requires Inv(w) && id in w.tables.operations && w.tables.operations[id].status.Terminal()
    ensures id !in w.sent && !JobRunning(w, id)
  {
    hide Inv;
    OperationFacts(w, id);
  }

  // ----- takeover ------------------------------------------------------------------------------

  /** Once adoption at `epoch` commits, every operation of a smaller epoch that the
      workspace will ever have is already settled, for good. */
  lemma AdoptionFencesOut(steps: seq<Step>, workspace: string, epoch: nat, later: seq<Step>, id: string)
    requires MayAdopt(Reached(steps).tables, workspace, epoch)
    requires var v := Exec(Do(Reached(steps), Adopt(workspace, epoch)), later);
      id in v.tables.operations && v.tables.operations[id].request.workspace == workspace && v.tables.operations[id].request.epoch < epoch
    ensures var w, v := Reached(steps), Exec(Do(Reached(steps), Adopt(workspace, epoch)), later);
      && id in w.tables.operations && w.tables.operations[id].status.Terminal()
      && v.tables.operations[id] == w.tables.operations[id]
      && LocalOf(v, id).bodies == LocalOf(w, id).bodies
  {
    hide Inv, Exec, LocalOf, Do;
    var w := Reached(steps);
    AdoptShape(w, workspace, epoch);
    var u := Do(w, Adopt(workspace, epoch));
    var v := Exec(u, later);
    ReachedInv(steps);
    DoKept(w, Adopt(workspace, epoch));
    KeptInv(w, u);
    ExecKept(u, later);
    KeptInv(u, v);
    assert id in w.tables.operations;
    assert RowExtends(u.tables.operations[id], v.tables.operations[id]);
    InvParts(w, workspace);
    assert RowPlaced(w.tables, id);
    SettledIsQuiet(u, later, id);
    SameBodies(w, u, id);
  }

  lemma AdoptShape(w: World, workspace: string, epoch: nat)
    requires MayAdopt(w.tables, workspace, epoch)
    ensures var u := Do(w, Adopt(workspace, epoch));
      && u.tables.operations == w.tables.operations && u.bodies == w.bodies
      && workspace in u.tables.workspaces && u.tables.workspaces[workspace].epoch == epoch
  {}

  /** The driver starts an effect only with the epoch it was dispatched under, in the
      run's own workspace. */
  ghost predicate Driven(steps: seq<Step>, epochOf: string -> nat, home: string -> string) {
    forall i :: 0 <= i < |steps| && steps[i].BeginStart? ==>
      steps[i].request.epoch == epochOf(steps[i].request.operation) && steps[i].request.workspace == home(steps[i].request.operation)
  }

  ghost predicate RequestDriven(r: Request, epochOf: string -> nat, home: string -> string) {
    r.epoch == epochOf(r.operation) && r.workspace == home(r.operation)
  }

  /** Every recorded or about to be recorded request came from the driver. */
  ghost predicate AllDriven(w: World, epochOf: string -> nat, home: string -> string) {
    && (forall id :: id in w.tables.operations ==> RequestDriven(w.tables.operations[id].request, epochOf, home))
    && (forall k :: k in w.holders && w.holders[k].pc.Starting? ==> RequestDriven(w.holders[k].pc.request, epochOf, home))
  }

  /** Rows appear only in the reservation of a start in progress. */
  lemma RowsAppear(w: World, step: Step)
    requires !step.ReserveRow?
    ensures Do(w, step).tables.operations.Keys == w.tables.operations.Keys
  {
    hide DoPrepare, DoBeginStart, DoReserveRow, DoMark, DoCheckCancel, DoStartTool, DoRejectArgs, DoLaunch, DoIntend, DoSend,
      DoCollect, DoKill, DoEditFile, DoEndEdits, DoReadBack, DoFinishRow, DoAbandon, DoBeginReconcile, DoSettleNever,
      DoRemoveNever, DoSettleTree, DoDeliver, DoJobWrite, DoJobExit, DoCrash, DoCancel, DoFence, DoAdopt, DoRelease;
    if !step.BeginStart? && !step.CheckCancel? && !step.StartTool? && !step.Deliver? && !step.FinishRow? && !step.Adopt? {
      DoFramed(w, step);
    }
  }

  lemma LocksAppear(w: World, step: Step)
    requires !step.BeginStart?
    ensures NoNewStart(w, Do(w, step))
  {
    hide DoPrepare, DoBeginStart, DoReserveRow, DoMark, DoCheckCancel, DoStartTool, DoRejectArgs, DoLaunch, DoIntend, DoSend,
      DoCollect, DoKill, DoEditFile, DoEndEdits, DoReadBack, DoFinishRow, DoAbandon, DoBeginReconcile, DoSettleNever,
      DoRemoveNever, DoSettleTree, DoDeliver, DoJobWrite, DoJobExit, DoCrash, DoCancel, DoFence, DoAdopt, DoRelease;
    if !step.ReserveRow? && !step.CheckCancel? && !step.StartTool? && !step.Deliver? && !step.FinishRow? && !step.Adopt? {
      DoFramed(w, step);
    }
  }

  lemma ReservedRequest(w: World, workspace: string, id: string)
    requires id in DoReserveRow(w, workspace).tables.operations && id !in w.tables.operations
    ensures workspace in w.holders && w.holders[workspace].pc.Starting?
    ensures DoReserveRow(w, workspace).tables.operations[id].request == w.holders[workspace].pc.request
  {}

  lemma DoDriven(w: World, step: Step, epochOf: string -> nat, home: string -> string)
    requires Inv(w) && AllDriven(w, epochOf, home)
    requires step.BeginStart? ==> RequestDriven(step.request, epochOf, home)
    ensures AllDriven(Do(w, step), epochOf, home)
  {
    hide Inv, Do, DoReserveRow, DoBeginStart, RequestDriven;
    var v := Do(w, step);
    DoKept(w, step);
    KeptInv(w, v);
    forall id | id in v.tables.operations ensures RequestDriven(v.tables.operations[id].request, epochOf, home) {
      if id in w.tables.operations {
        assert RowExtends(w.tables.operations[id], v.tables.operations[id]);
      } else if step.ReserveRow? {
        ReserveIs(w, step);
        ReservedRequest(w, step.workspace, id);
      } else {
        RowsAppear(w, step);
      }
    }
    forall k | k in v.holders && v.holders[k].pc.Starting? ensures RequestDriven(v.holders[k].pc.request, epochOf, home) {
      if step.BeginStart? {
        StartedRequest(w, step, k);
      } else {
        LocksAppear(w, step);
      }
    }
  }

  lemma ReserveIs(w: World, step: Step)
    requires step.ReserveRow?
    ensures Do(w, step) == DoReserveRow(w, step.workspace)
  {}

  lemma StartedRequest(w: World, step: Step, k: string)
    requires step.BeginStart? && k in Do(w, step).holders && Do(w, step).holders[k].pc.Starting?
    ensures Do(w, step).holders[k].pc.request == step.request || (k in w.holders && Do(w, step).holders[k] == w.holders[k])
  {
    hide Seen, ValidPatch, ApplyAll;
  }

  lemma {:induction false} ExecDriven(w: World, steps: seq<Step>, epochOf: string -> nat, home: string -> string)
    requires Inv(w) && AllDriven(w, epochOf, home) && Driven(steps, epochOf, home)
    ensures AllDriven(Exec(w, steps), epochOf, home)
  {
    hide Inv, Do, AllDriven;
    if steps != [] {
      var rest := steps[..|steps| - 1];
      assert Driven(rest, epochOf, home);
      ExecDriven(w, rest, epochOf, home);
      ExecKept(w, rest);
      KeptInv(w, Exec(w, rest));
      DoDriven(Exec(w, rest), steps[|steps| - 1], epochOf, home);
    }
  }

  /** An effect dispatched under a smaller epoch and absent from the journal when its
      workspace is adopted never enters the journal and never runs, however many
      requests of dead workers are still on their way. */
  lemma AbsentNeverStarts(steps: seq<Step>, workspace: string, epoch: nat, later: seq<Step>, id: string,
                          epochOf: string -> nat, home: string -> string)
    requires Driven(steps, epochOf, home) && Driven(later, epochOf, home)
    requires MayAdopt(Reached(steps).tables, workspace, epoch)
    requires home(id) == workspace && epochOf(id) < epoch && id !in Reached(steps).tables.operations
    ensures var v := Exec(Do(Reached(steps), Adopt(workspace, epoch)), later);
      id !in v.tables.operations && LocalOf(v, id) == NOTHING
  {
    hide Inv, Exec, Do, LocalOf;
    var w := Reached(steps);
    AdoptShape(w, workspace, epoch);
    var u := Do(w, Adopt(workspace, epoch));
    var v := Exec(u, later);
    ReachedInv(steps);
    InitInv();
    ExecDriven(INIT, steps, epochOf, home);
    DoDriven(w, Adopt(workspace, epoch), epochOf, home);
    DoKept(w, Adopt(workspace, epoch));
    KeptInv(w, u);
    ExecDriven(u, later, epochOf, home);
    ExecKept(u, later);
    KeptInv(u, v);
    InvRows(v);
    OperationFacts(v, id);
    assert id in v.tables.operations ==> RowPlaced(v.tables, id) && RequestDriven(v.tables.operations[id].request, epochOf, home);
  }

  lemma InvRows(w: World)
    requires Inv(w)
    ensures ActiveIsUnique(w.tables)
  {}

  // ----- fences --------------------------------------------------------------------------------

  /** A fence opens only through adoption of that workspace. */
  lemma FenceStays(w: World, step: Step, workspace: string)
    requires workspace in w.tables.workspaces && w.tables.workspaces[workspace].adopting
    requires !(step.Adopt? && step.workspace == workspace)
    ensures var v := Do(w, step); workspace in v.tables.workspaces && v.tables.workspaces[workspace].adopting
  {
    hide DoPrepare, DoBeginStart, DoReserveRow, DoMark, DoCheckCancel, DoStartTool, DoRejectArgs, DoLaunch, DoIntend, DoSend,
      DoCollect, DoKill, DoEditFile, DoEndEdits, DoReadBack, DoFinishRow, DoAbandon, DoBeginReconcile, DoSettleNever,
      DoRemoveNever, DoSettleTree, DoDeliver, DoJobWrite, DoJobExit, DoCrash, DoCancel, DoFence, DoAdopt, DoRelease;
    if !step.BeginStart? && !step.ReserveRow? && !step.CheckCancel? && !step.StartTool? && !step.Deliver? && !step.FinishRow? && !step.Adopt? {
      DoFramed(w, step);
    }
  }

  /** A row enters only an open workspace, under exactly its epoch. */
  lemma NewRowNeedsOpen(w: World, step: Step, id: string)
    requires Inv(w) && id in Do(w, step).tables.operations && id !in w.tables.operations
    ensures var r := Do(w, step).tables.operations[id].request;
      && r.workspace in w.tables.workspaces
      && var s := w.tables.workspaces[r.workspace]; !s.adopting && !s.stopped && !s.released && s.epoch == r.epoch
  {
    hide Inv, Do, DoReserveRow;
    if step.ReserveRow? {
      ReserveIs(w, step);
      ReservedRequest(w, step.workspace, id);
      ReservedOpen(w, step.workspace, id);
    } else {
      RowsAppear(w, step);
    }
  }

  lemma ReservedOpen(w: World, workspace: string, id: string)
    requires id in DoReserveRow(w, workspace).tables.operations && id !in w.tables.operations
    ensures workspace in w.holders && w.holders[workspace].pc.Starting?
    ensures var r := w.holders[workspace].pc.request;
      && r.workspace in w.tables.workspaces
      && var s := w.tables.workspaces[r.workspace]; !s.adopting && !s.stopped && !s.released && s.epoch == r.epoch
  {}

  /** From a committed fence until adoption, no operation enters the workspace. */
  lemma {:induction false} FencedTakesNothing(w: World, workspace: string, later: seq<Step>, id: string)
    requires Inv(w) && workspace in w.tables.workspaces && w.tables.workspaces[workspace].adopting
    requires forall i :: 0 <= i < |later| ==> !(later[i].Adopt? && later[i].workspace == workspace)
    ensures var v := Exec(w, later);
      && workspace in v.tables.workspaces && v.tables.workspaces[workspace].adopting
      && (id in v.tables.operations && v.tables.operations[id].request.workspace == workspace ==> id in w.tables.operations)
  {
    hide Inv, Do;
    if later != [] {
      var u, step := Exec(w, later[..|later| - 1]), later[|later| - 1];
      FencedTakesNothing(w, workspace, later[..|later| - 1], id);
      ExecKept(w, later[..|later| - 1]);
      KeptInv(w, u);
      FenceStays(u, step, workspace);
      if id in Do(u, step).tables.operations && Do(u, step).tables.operations[id].request.workspace == workspace {
        EntersOpen(u, step, workspace, id);
      }
    }
  }

  lemma EntersOpen(u: World, step: Step, workspace: string, id: string)
    requires Inv(u) && workspace in u.tables.workspaces
    requires u.tables.workspaces[workspace].adopting || u.tables.workspaces[workspace].stopped || u.tables.workspaces[workspace].released
    requires id in Do(u, step).tables.operations && Do(u, step).tables.operations[id].request.workspace == workspace
    ensures id in u.tables.operations && u.tables.operations[id].request.workspace == workspace
  {
    hide Inv, Do;
    DoKept(u, step);
    KeptInv(u, Do(u, step));
    if id in u.tables.operations {
      SameRequest(u, Do(u, step), id);
    } else {
      NewRowNeedsOpen(u, step, id);
    }
  }

  /** A stopped or released workspace never takes another operation. */
  lemma {:induction false} StoppedTakesNothing(w: World, workspace: string, later: seq<Step>, id: string)
    requires Inv(w) && workspace in w.tables.workspaces
    requires w.tables.workspaces[workspace].stopped || w.tables.workspaces[workspace].released
    ensures var v := Exec(w, later);
      id in v.tables.operations && v.tables.operations[id].request.workspace == workspace ==> id in w.tables.operations
  {
    hide Inv, Do;
    if later != [] {
      var u, step := Exec(w, later[..|later| - 1]), later[|later| - 1];
      StoppedTakesNothing(w, workspace, later[..|later| - 1], id);
      ExecKept(w, later[..|later| - 1]);
      KeptInv(w, u);
      assert WorkspaceExtends(w.tables.workspaces[workspace], u.tables.workspaces[workspace]);
      if id in Do(u, step).tables.operations && Do(u, step).tables.operations[id].request.workspace == workspace {
        EntersOpen(u, step, workspace, id);
      }
    }
  }

  // ----- the journal over a whole run -----------------------------------------------------------

  /** The active operation is exactly the one that has not settled. */
  lemma ActiveIsTheUnsettledOne(steps: seq<Step>, workspace: string, id: string)
    requires workspace in Reached(steps).tables.workspaces
    ensures var t := Reached(steps).tables;
      t.workspaces[workspace].active == Some(id) <==>
      id in t.operations && t.operations[id].request.workspace == workspace && !t.operations[id].status.Terminal()
  {
    hide Inv, Exec;
    var t := Reached(steps).tables;
    ReachedInv(steps);
    InvRows(Reached(steps));
    assert ActivePlaced(t, workspace);
    if id in t.operations {
      assert RowPlaced(t, id);
    }
  }

  function Raised(row: Operation): nat { if row.after.Some? && row.after.value != row.before then 1 else 0 }

  /** Settled operations, in the order they settled, form one chain of revisions that
      starts at one, grows by the tree's change and ends at the workspace's revision. */
  lemma SettledOperationsChain(steps: seq<Step>, workspace: string)
    requires workspace in Reached(steps).tables.workspaces
    ensures var w := Reached(steps); var h, ops := History(w, workspace), w.tables.operations;
      && (forall id :: id in h <==> id in ops && ops[id].request.workspace == workspace && ops[id].status.Terminal())
      && (forall i, j :: 0 <= i < j < |h| ==> h[i] != h[j])
      && (forall i :: 0 <= i < |h| ==> ops[h[i]].request.expectedRevision == RevisionAt(h, ops, i))
      && (forall i :: 0 <= i < |h| ==> ops[h[i]].after.Some? && RevisionAt(h, ops, i + 1) == RevisionAt(h, ops, i) + Raised(ops[h[i]]))
      && w.tables.workspaces[workspace].revision == RevisionAt(h, ops, |h|)
  {
    hide Inv, Exec;
    var w := Reached(steps);
    var h, ops := History(w, workspace), w.tables.operations;
    ReachedInv(steps);
    InvParts(w, workspace);
    forall id ensures id in h <==> id in ops && ops[id].request.workspace == workspace && ops[id].status.Terminal() {
      if id in ops && ops[id].request.workspace == workspace && ops[id].status.Terminal() {
        TerminalListed(w, id);
      }
    }
    forall i | 0 <= i < |h| ensures ops[h[i]].after.Some? && ops[h[i]].afterRevision == ops[h[i]].request.expectedRevision + Raised(ops[h[i]]) {
      OperationFacts(w, h[i]);
    }
  }

  lemma TerminalListed(w: World, id: string)
    requires Inv(w) && id in w.tables.operations && w.tables.operations[id].status.Terminal()
    ensures Listed(w, id)
  {}

  // ----- patches -------------------------------------------------------------------------------

  /** Whatever the crash point, a settled `apply_patch` left its before tree or the
      planned tree, or, where some edit goes to a path `readTree` skips, the
      reported part of the plan; the revision rises exactly when the tree differs. */
  lemma SettledPatchIsWhole(steps: seq<Step>, id: string)
    requires id in Reached(steps).tables.operations
    requires var row := Reached(steps).tables.operations[id]; row.status.Terminal() && row.request.kind == ApplyPatch
    ensures var row := Reached(steps).tables.operations[id];
      && row.after.Some? && row.afterRevision == row.request.expectedRevision + Raised(row)
      && (|| row.after.value == row.before || row.after.value == ApplyAll(row.request.edits, row.before)
          || (!AllVisible(row.request.edits) && row.status == Succeeded
              && row.after.value == ApplyAll(VisibleEdits(row.request.edits), row.before)))
  {
    hide Inv, Exec, ApplyAll, VisibleEdits, Visible;
    ReachedInv(steps);
    OperationFacts(Reached(steps), id);
    if AllVisible(Reached(steps).tables.operations[id].request.edits) {
      AllVisibleEdits(Reached(steps).tables.operations[id].request.edits);
    }
  }

  /** A row settles only in `finish`, with the tree the directory shows at that moment. */
  lemma SettlementReadsDirectory(w: World, step: Step, id: string)
    requires Inv(w) && id in w.tables.operations && !w.tables.operations[id].status.Terminal()
    requires id in Do(w, step).tables.operations && Do(w, step).tables.operations[id].status.Terminal()
    ensures var workspace, v := w.tables.operations[id].request.workspace, Do(w, step);
      && step == FinishRow(workspace) && v.files == w.files
      && v.tables.operations[id].after == Some(Seen(Files(w, workspace)))
      && !PartialPatch(w.tables.operations[id], v.tables.operations[id].status, Seen(Files(w, workspace)))
  {
    hide Inv, Do, DoFinishRow, Seen, Extends, ActiveIsUnique, PartialPatch, Files;
    var v := Do(w, step);
    var workspace := w.tables.operations[id].request.workspace;
    DoKept(w, step);
    KeptInv(w, v);
    TerminalListed(v, id);
    SameRequest(w, v, id);
    assert id in History(v, workspace);
    if !step.FinishRow? {
      OnlyFinishSettles(w, step);
    } else {
      FinishIs(w, step);
      FinishSettles(w, step.workspace, id);
    }
    NotYetListed(w, id);
  }

  lemma SameRequest(w: World, v: World, id: string)
    requires Extends(w.tables, v.tables) && id in w.tables.operations && id in v.tables.operations
    ensures v.tables.operations[id].request == w.tables.operations[id].request
  {
    assert RowExtends(w.tables.operations[id], v.tables.operations[id]);
  }

  lemma NotYetListed(w: World, id: string)
    requires Inv(w) && id in w.tables.operations && !w.tables.operations[id].status.Terminal()
    ensures id !in History(w, w.tables.operations[id].request.workspace)
  {
    var workspace := w.tables.operations[id].request.workspace;
    assert RowPlaced(w.tables, id);
    assert ChainAt(w, workspace);
  }

  lemma OnlyFinishSettles(w: World, step: Step)
    requires !step.FinishRow?
    ensures forall k :: History(Do(w, step), k) == History(w, k)
  {
    SameFinished(w, step);
  }

  lemma SameFinished(w: World, step: Step)
    requires !step.FinishRow?
    ensures Do(w, step).finished == w.finished
  {
    hide DoPrepare, DoBeginStart, DoReserveRow, DoMark, DoCheckCancel, DoStartTool, DoRejectArgs, DoLaunch, DoIntend, DoSend,
      DoCollect, DoKill, DoEditFile, DoEndEdits, DoReadBack, DoFinishRow, DoAbandon, DoBeginReconcile, DoSettleNever,
      DoRemoveNever, DoSettleTree, DoDeliver, DoJobWrite, DoJobExit, DoCrash, DoCancel, DoFence, DoAdopt, DoRelease;
    if !step.BeginStart? && !step.ReserveRow? && !step.CheckCancel? && !step.StartTool? && !step.Deliver? && !step.Adopt? {
      DoFramed(w, step);
    }
  }

  lemma FinishIs(w: World, step: Step)
    requires step.FinishRow?
    ensures Do(w, step) == DoFinishRow(w, step.workspace)
  {}

  lemma FinishSettles(w: World, workspace: string, id: string)
    requires Inv(w) && id in w.tables.operations && !w.tables.operations[id].status.Terminal()
    requires id in DoFinishRow(w, workspace).tables.operations && DoFinishRow(w, workspace).tables.operations[id].status.Terminal()
    ensures var v := DoFinishRow(w, workspace);
      && w.tables.operations[id].request.workspace == workspace && v.files == w.files
      && v.tables.operations[id].after == Some(Seen(Files(w, workspace)))
      && !PartialPatch(w.tables.operations[id], v.tables.operations[id].status, Seen(Files(w, workspace)))
  {
    hide Inv, Seen, Finish, FinishError, Confined, History, LocalOf, Settled;
    if MaySettle(w, workspace) {
      FinishAccepted(w, workspace);
      FinishConfined(w, workspace);
    }
  }
}
