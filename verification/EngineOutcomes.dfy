/** Which answer the runner publishes for an operation: the status, tree and revision a
    row ends with, said of the files, the edits and the row (internal/runner/engine.go). */
module EngineOutcomes {
  import opened Domain
  import opened Patch
  import opened Journal
  import opened Engine
  import opened EngineInvariant
  import opened EngineSteps
  import opened EngineTables
  import opened EngineRuns

  /** The operation a locked workspace serves. */
  ghost function Served(w: World, workspace: string): string
    requires workspace in w.holders
  {
    w.holders[workspace].operation
  }

  ghost function Shown(w: World, workspace: string): Tree { Seen(Files(w, workspace)) }

  /** The row ended with this answer and the tree now shown; the workspace is idle. */
  ghost predicate Answered(w: World, v: World, workspace: string, status: Status, never: bool)
    requires Held(w, workspace)
  {
    var id, row, tree := Served(w, workspace), Row(w, workspace), Shown(w, workspace);
    && id in v.tables.operations && workspace in v.tables.workspaces
    && var r := v.tables.operations[id];
      && r.status == status && r.neverStarted == never && r.after == Some(tree) && r.request == row.request
      && r.afterRevision == row.request.expectedRevision + (if tree == row.before then 0 else 1)
      && v.tables.workspaces[workspace].active.None? && v.tables.workspaces[workspace].revision == r.afterRevision
      && Files(v, workspace) == Files(w, workspace) && workspace !in v.holders
  }

  /** No answer: the row is marked unknown and stays the active operation. */
  ghost predicate Unanswered(w: World, v: World, workspace: string)
    requires Held(w, workspace)
  {
    var id := Served(w, workspace);
    && id in v.tables.operations && workspace in v.tables.workspaces && v.tables.operations[id] == Row(w, workspace).(status := Unknown)
    && v.tables.workspaces[workspace].active == Some(id) && Files(v, workspace) == Files(w, workspace) && workspace !in v.holders
  }

  // ----- short runs ----------------------------------------------------------------------------

  lemma Exec1(w: World, a: Step)
    ensures Exec(w, [a]) == Do(w, a)
  {
    hide Do;
    assert [a][..0] == [];
    assert Exec(w, []) == w;
  }

  lemma ExecMore(w: World, steps: seq<Step>, a: Step)
    ensures Exec(w, steps + [a]) == Do(Exec(w, steps), a)
  {
    hide Do;
    assert (steps + [a])[..|steps|] == steps;
  }

  lemma {:induction false} ExecSplit(w: World, first: seq<Step>, rest: seq<Step>)
    ensures Exec(w, first + rest) == Exec(Exec(w, first), rest)
    decreases |rest|
  {
    hide Do;
    if rest == [] {
      assert first + rest == first;
    } else {
      var init, a := rest[..|rest| - 1], rest[|rest| - 1];
      ExecSplit(w, first, init);
      assert first + rest == (first + init) + [a] && rest == init + [a];
      ExecMore(w, first + init, a);
      ExecMore(Exec(w, first), init, a);
    }
  }

  /** Each step by its own function. */
  lemma DoIs(w: World, step: Step)
    ensures step.Prepare? ==> Do(w, step) == DoPrepare(w, step.workspace, step.scope, step.epoch, step.tree)
    ensures step.BeginStart? ==> Do(w, step) == DoBeginStart(w, step.request, step.limits)
    ensures step.ReserveRow? ==> Do(w, step) == DoReserveRow(w, step.workspace)
    ensures step.Mark? ==> Do(w, step) == DoMark(w, step.workspace)
    ensures step.CheckCancel? ==> Do(w, step) == DoCheckCancel(w, step.workspace)
    ensures step.StartTool? ==> Do(w, step) == DoStartTool(w, step.workspace, step.ok)
    ensures step.RejectArgs? ==> Do(w, step) == DoRejectArgs(w, step.workspace)
    ensures step.Launch? ==> Do(w, step) == DoLaunch(w, step.workspace)
    ensures step.Intend? ==> Do(w, step) == DoIntend(w, step.workspace)
    ensures step.Send? ==> Do(w, step) == DoSend(w, step.workspace)
    ensures step.Collect? ==> Do(w, step) == DoCollect(w, step.workspace, step.exitCode, step.interrupted)
    ensures step.Kill? ==> Do(w, step) == DoKill(w, step.workspace)
    ensures step.EditFile? ==> Do(w, step) == DoEditFile(w, step.workspace)
  {
    hide DoPrepare, DoBeginStart, DoReserveRow, DoMark, DoCheckCancel, DoStartTool, DoRejectArgs, DoLaunch, DoIntend, DoSend,
      DoCollect, DoKill, DoEditFile, DoEndEdits, DoReadBack, DoFinishRow, DoAbandon, DoBeginReconcile, DoSettleNever,
      DoRemoveNever, DoSettleTree, DoDeliver, DoJobWrite, DoJobExit, DoCrash, DoCancel, DoFence, DoAdopt, DoRelease, Framed;
  }

  lemma AlsoIs(w: World, step: Step)
    ensures step.EndEdits? ==> Do(w, step) == DoEndEdits(w, step.workspace, step.ok)
    ensures step.ReadBack? ==> Do(w, step) == DoReadBack(w, step.workspace)
    ensures step.FinishRow? ==> Do(w, step) == DoFinishRow(w, step.workspace)
    ensures step.Abandon? ==> Do(w, step) == DoAbandon(w, step.workspace, step.mark)
    ensures step.SettleNever? ==> Do(w, step) == DoSettleNever(w, step.workspace)
    ensures step.RemoveNever? ==> Do(w, step) == DoRemoveNever(w, step.workspace)
    ensures step.SettleTree? ==> Do(w, step) == DoSettleTree(w, step.workspace)
    ensures step.Deliver? ==> Do(w, step) == DoDeliver(w, step.operation)
    ensures step.JobExit? ==> Do(w, step) == DoJobExit(w, step.operation)
    ensures step.Cancel? ==> Do(w, step) == DoCancel(w, step.operation)
    ensures step.Fence? ==> Do(w, step) == DoFence(w, step.workspace, step.scope, step.epoch, step.stop)
    ensures step.Adopt? ==> Do(w, step) == DoAdopt(w, step.workspace, step.epoch)
    ensures step.Release? ==> Do(w, step) == DoRelease(w, step.workspace, step.epoch)
    ensures step.BeginReconcile? ==> Do(w, step) == DoBeginReconcile(w, step.workspace, step.operation, step.cancelJob)
  {
    hide DoPrepare, DoBeginStart, DoReserveRow, DoMark, DoCheckCancel, DoStartTool, DoRejectArgs, DoLaunch, DoIntend, DoSend,
      DoCollect, DoKill, DoEditFile, DoEndEdits, DoReadBack, DoFinishRow, DoAbandon, DoBeginReconcile, DoSettleNever,
      DoRemoveNever, DoSettleTree, DoDeliver, DoJobWrite, DoJobExit, DoCrash, DoCancel, DoFence, DoAdopt, DoRelease, Framed;
  }

  // ----- publishing a completed execution -----------------------------------------------------------

  ghost function Publish(workspace: string): seq<Step> { [ReadBack(workspace), FinishRow(workspace)] }

  lemma ReadsBack(w: World, workspace: string)
    requires Held(w, workspace) && w.holders[workspace].pc.Completing?
    ensures var u, pc := Do(w, ReadBack(workspace)), w.holders[workspace].pc;
      && u == Goto(w, workspace, Finishing(pc.status, pc.never, Shown(w, workspace))) && Held(u, workspace) && Row(u, workspace) == Row(w, workspace)
      && Files(u, workspace) == Files(w, workspace)
  {
    hide Seen, Framed;
  }

  lemma PublishIs(w: World, workspace: string)
    ensures Exec(w, Publish(workspace)) == Do(Do(w, ReadBack(workspace)), FinishRow(workspace))
  {
    hide Do;
    Exec1(w, ReadBack(workspace));
    assert Publish(workspace) == [ReadBack(workspace)] + [FinishRow(workspace)];
    ExecMore(w, [ReadBack(workspace)], FinishRow(workspace));
  }

  /** A completed execution is published with its status and the tree that is there,
      except that a patch neither succeeded nor whole stays unknown. */
  lemma CompletionIsPublished(w: World, workspace: string)
    requires Inv(w) && Held(w, workspace) && w.holders[workspace].pc.Completing?
    ensures var v, pc, row, tree := Exec(w, Publish(workspace)), w.holders[workspace].pc, Row(w, workspace), Shown(w, workspace);
      if row.request.kind == ApplyPatch && pc.status != Succeeded && tree != row.before && tree != ApplyAll(row.request.edits, row.before)
      then Unanswered(w, v, workspace) else Answered(w, v, workspace, pc.status, pc.never)
  {
    hide Inv, Do, Exec, Seen, ApplyAll, Files, LocalOf;
    var u, pc, row, tree := Do(w, ReadBack(workspace)), w.holders[workspace].pc, Row(w, workspace), Shown(w, workspace);
    PublishIs(w, workspace);
    ReadsBack(w, workspace);
    DoKept(w, ReadBack(workspace));
    KeptInv(w, u);
    PlanOnRecord(u, workspace);
    FinishIs(u, FinishRow(workspace));
    if PartialPatch(row, pc.status, tree) {
      PartialIsDropped(u, workspace);
    } else {
      WholeIsAnswered(u, workspace);
    }
  }

  lemma PlanOnRecord(w: World, workspace: string)
    requires Inv(w) && Held(w, workspace)
    ensures Row(w, workspace).request.kind == ApplyPatch ==>
      Row(w, workspace).expectedAfter == Some(ApplyAll(Row(w, workspace).request.edits, Row(w, workspace).before))
  {
    hide Inv, Seen, ApplyAll, JobOk, TreeOk, PcOk, LocalOf;
    HeldFacts(w, workspace);
  }

  lemma PartialIsDropped(u: World, workspace: string)
    requires Inv(u) && Held(u, workspace) && u.holders[workspace].pc.Finishing?
    requires PartialPatch(Row(u, workspace), u.holders[workspace].pc.status, u.holders[workspace].pc.seen)
    ensures Unanswered(u, DoFinishRow(u, workspace), workspace)
  {
    hide Inv, Seen, Live;
    HeldFacts(u, workspace);
    DropTouches(u, workspace, true);
    hide LocalOf, OnlyTouches, Framed;
  }

  lemma WholeIsAnswered(u: World, workspace: string)
    requires Inv(u) && Held(u, workspace) && u.holders[workspace].pc.Finishing?
    requires !PartialPatch(Row(u, workspace), u.holders[workspace].pc.status, u.holders[workspace].pc.seen)
    ensures u.holders[workspace].pc.seen == Shown(u, workspace)
    ensures Answered(u, DoFinishRow(u, workspace), workspace, u.holders[workspace].pc.status, u.holders[workspace].pc.never)
  {
    hide Inv, Seen, Settled, Finish, FinishError, Confined, LocalOf, History;
    FinishAccepted(u, workspace);
    FinishConfined(u, workspace);
    FilesKept(u, workspace);
    hide DoFinishRow;
  }

  lemma FilesKept(u: World, workspace: string)
    ensures Files(DoFinishRow(u, workspace), workspace) == Files(u, workspace)
  {
    hide DoFinishRow, Framed;
  }

  /** A step that only decides the answer, followed by publication. */
  lemma DecisionIsPublished(w: World, step: Step, workspace: string, status: Status, never: bool)
    requires Inv(w) && Held(w, workspace) && Do(w, step) == Goto(w, workspace, Completing(status, never))
    ensures var v, row, tree := Exec(w, [step] + Publish(workspace)), Row(w, workspace), Shown(w, workspace);
      if row.request.kind == ApplyPatch && status != Succeeded && tree != row.before && tree != ApplyAll(row.request.edits, row.before)
      then Unanswered(w, v, workspace) else Answered(w, v, workspace, status, never)
  {
    hide Inv, Do, Exec, Seen, ApplyAll;
    var u := Do(w, step);
    DoKept(w, step);
    KeptInv(w, u);
    Exec1(w, step);
    ExecSplit(w, [step], Publish(workspace));
    CompletionIsPublished(u, workspace);
  }

  /** The directory of an operation whose body has not run is the one it started from. */
  lemma UntouchedTree(w: World, workspace: string)
    requires Inv(w) && Held(w, workspace) && LocalOf(w, Served(w, workspace)).bodies == 0
    ensures Shown(w, workspace) == Row(w, workspace).before
  {
    hide Inv, Seen, JobOk, PcOk, PlanOk, LocalOf;
    HeldFacts(w, workspace);
    var edits := Row(w, workspace).request.edits;
    assert edits[..0] == [];
  }

  // ----- reconciliation ---------------------------------------------------------------------------------

  /** The holder reconciles an operation that may have been dispatched. */
  ghost predicate ReconcilesDispatched(w: World, workspace: string) {
    && Held(w, workspace) && w.holders[workspace].pc.Reconciling?
    && (Row(w, workspace).dispatchStarted || !(w.holders[workspace].pc.cancelJob || Row(w, workspace).cancelRequested))
  }

  lemma TreeSettles(w: World, workspace: string)
    requires Inv(w) && ReconcilesDispatched(w, workspace) && Row(w, workspace).request.kind != Process
    ensures var row, tree := Row(w, workspace), Shown(w, workspace); var plan := ApplyAll(row.request.edits, row.before);
      Do(w, SettleTree(workspace)) ==
        if row.request.kind == ApplyPatch && tree == plan then Goto(w, workspace, Completing(Succeeded, false))
        else if tree == row.before then Goto(w, workspace, Completing(Failed, false))
        else Dropped(w, workspace, true)
  {
    hide Inv, Do, Seen, ApplyAll, Framed, MarkUnknown;
    PlanOnRecord(w, workspace);
    AlsoIs(w, SettleTree(workspace));
  }

  lemma NothingToPublish(w: World, workspace: string)
    requires workspace !in w.holders
    ensures Exec(w, Publish(workspace)) == w
  {
    PublishIs(w, workspace);
    hide Framed;
  }

  /** Reconciliation of a patch answers by the files alone: succeeded exactly when the
      planned tree is there, failed exactly when the old tree is and the plan differs
      from it, and otherwise nothing is settled. */
  lemma PatchIsReconciled(steps: seq<Step>, workspace: string)
    requires var w := Reached(steps); ReconcilesDispatched(w, workspace) && Row(w, workspace).request.kind == ApplyPatch
    ensures var w := Reached(steps); var v, row, tree := Exec(w, [SettleTree(workspace)] + Publish(workspace)), Row(w, workspace), Shown(w, workspace);
      var plan, id := ApplyAll(row.request.edits, row.before), Served(w, workspace);
      && id in v.tables.operations
      && (v.tables.operations[id].status == Succeeded <==> tree == plan)
      && (v.tables.operations[id].status == Failed <==> tree == row.before && tree != plan)
      && (if tree == plan then Answered(w, v, workspace, Succeeded, false)
          else if tree == row.before then Answered(w, v, workspace, Failed, false)
          else Unanswered(w, v, workspace))
  {
    hide Inv, Do, Exec, Seen, ApplyAll;
    var w := Reached(steps);
    ReachedInv(steps);
    FileToolAnswer(w, workspace);
  }

  lemma FileToolAnswer(w: World, workspace: string)
    requires Inv(w) && ReconcilesDispatched(w, workspace) && Row(w, workspace).request.kind != Process
    ensures var v, row, tree := Exec(w, [SettleTree(workspace)] + Publish(workspace)), Row(w, workspace), Shown(w, workspace);
      if row.request.kind == ApplyPatch && tree == ApplyAll(row.request.edits, row.before) then Answered(w, v, workspace, Succeeded, false)
      else if tree == row.before then Answered(w, v, workspace, Failed, false)
      else Unanswered(w, v, workspace)
  {
    hide Inv, Do, Exec, Seen, ApplyAll, Dropped, ReconcilesDispatched;
    assert Held(w, workspace) by { IsHeld(w, workspace); }
    var row, tree := Row(w, workspace), Shown(w, workspace);
    TreeSettles(w, workspace);
    if row.request.kind == ApplyPatch && tree == ApplyAll(row.request.edits, row.before) {
      DecisionIsPublished(w, SettleTree(workspace), workspace, Succeeded, false);
    } else if tree == row.before {
      DecisionIsPublished(w, SettleTree(workspace), workspace, Failed, false);
    } else {
      DropIsUnanswered(w, workspace);
      NothingToPublish(Dropped(w, workspace, true), workspace);
      Exec1(w, SettleTree(workspace));
      ExecSplit(w, [SettleTree(workspace)], Publish(workspace));
    }
  }

  lemma IsHeld(w: World, workspace: string)
    requires ReconcilesDispatched(w, workspace)
    ensures Held(w, workspace)
  {}

  lemma DropIsUnanswered(w: World, workspace: string)
    requires Inv(w) && Held(w, workspace)
    ensures Unanswered(w, Dropped(w, workspace, true), workspace) && workspace !in Dropped(w, workspace, true).holders
  {
    hide Inv, Seen, Live;
    HeldFacts(w, workspace);
    DropTouches(w, workspace, true);
    hide LocalOf, OnlyTouches, MarkUnknown;
  }

  /** A read-only tool left its files alone; reconciled after dispatch it is failed. */
  lemma ReadOnlyIsReconciled(steps: seq<Step>, workspace: string)
    requires var w := Reached(steps); ReconcilesDispatched(w, workspace) && Row(w, workspace).request.kind == ReadOnly
    ensures var w := Reached(steps);
      Answered(w, Exec(w, [SettleTree(workspace)] + Publish(workspace)), workspace, Failed, false) && Shown(w, workspace) == Row(w, workspace).before
  {
    hide Inv, Do, Exec, Seen, ApplyAll;
    var w := Reached(steps);
    ReachedInv(steps);
    FileToolAnswer(w, workspace);
    ReadOnlyTree(w, workspace);
  }

  lemma ReadOnlyTree(w: World, workspace: string)
    requires Inv(w) && Held(w, workspace) && Row(w, workspace).request.kind == ReadOnly
    ensures Shown(w, workspace) == Row(w, workspace).before
  {
    hide Inv, Seen, JobOk, PcOk, PlanOk, LocalOf;
    HeldFacts(w, workspace);
  }

  /** An operation never dispatched, cancelled now or before, is answered as cancelled
      and never started, at the revision it started from. */
  lemma UndispatchedIsReconciled(steps: seq<Step>, workspace: string)
    requires var w := Reached(steps);
      && Held(w, workspace) && w.holders[workspace].pc.Reconciling? && !Row(w, workspace).dispatchStarted
      && (w.holders[workspace].pc.cancelJob || Row(w, workspace).cancelRequested)
    ensures var w := Reached(steps);
      Answered(w, Exec(w, [SettleNever(workspace)] + Publish(workspace)), workspace, Cancelled, true) && Shown(w, workspace) == Row(w, workspace).before
  {
    hide Inv, Do, Exec, Seen, ApplyAll, Framed, LocalOf;
    var w := Reached(steps);
    ReachedInv(steps);
    AlsoIs(w, SettleNever(workspace));
    UndispatchedUnrun(w, workspace);
    UntouchedTree(w, workspace);
    assert Do(w, SettleNever(workspace)) == Goto(w, workspace, Completing(Cancelled, true));
    DecisionIsPublished(w, SettleNever(workspace), workspace, Cancelled, true);
  }

  lemma UndispatchedUnrun(w: World, workspace: string)
    requires Inv(w) && Held(w, workspace) && !Row(w, workspace).dispatchStarted
    ensures LocalOf(w, Served(w, workspace)).bodies == 0
  {
    hide Inv, Seen, TreeOk, PcOk, PlanOk, LocalOf;
    HeldFacts(w, workspace);
  }

  /** A process whose container exists but whose start was never intended is removed and
      answered as cancelled and never started. */
  lemma UnintendedIsReconciled(steps: seq<Step>, workspace: string)
    requires var w := Reached(steps);
      && Held(w, workspace) && w.holders[workspace].pc.Reconciling? && Row(w, workspace).request.kind == Process
      && !Row(w, workspace).startIntent && LocalOf(w, Served(w, workspace)).container == Some(Container(false, false))
    ensures var w := Reached(steps); var v := Exec(w, [RemoveNever(workspace)] + Publish(workspace));
      Answered(w, v, workspace, Cancelled, true) && LocalOf(v, Served(w, workspace)).container.None?
  {
    hide Inv, Do, Exec, Seen, ApplyAll, Framed;
    var w := Reached(steps);
    ReachedInv(steps);
    AlsoIs(w, RemoveNever(workspace));
    var u := Do(w, RemoveNever(workspace));
    assert u == Goto(w.(containers := w.containers - {Served(w, workspace)}), workspace, Completing(Cancelled, true));
    DoKept(w, RemoveNever(workspace));
    KeptInv(w, u);
    Exec1(w, RemoveNever(workspace));
    ExecSplit(w, [RemoveNever(workspace)], Publish(workspace));
    CompletionIsPublished(u, workspace);
    PublishKeepsJobs(u, workspace);
  }

  lemma PublishKeepsJobs(u: World, workspace: string)
    ensures Exec(u, Publish(workspace)).containers == u.containers
  {
    hide Do, Exec, DoReadBack, DoFinishRow, Framed;
    PublishIs(u, workspace);
    AlsoIs(u, ReadBack(workspace));
    AlsoIs(Do(u, ReadBack(workspace)), FinishRow(workspace));
  }

  // ----- execution ------------------------------------------------------------------------------------

  /** A stopped job is answered by its exit, whoever collects it. */
  lemma JobIsCollected(steps: seq<Step>, workspace: string, exitCode: int, interrupted: bool)
    requires var w := Reached(steps);
      && Held(w, workspace) && (w.holders[workspace].pc.Waiting? || w.holders[workspace].pc.Reconciling?)
      && Row(w, workspace).request.kind == Process && LocalOf(w, Served(w, workspace)).container == Some(Container(true, false))
    ensures var w := Reached(steps);
      Answered(w, Exec(w, [Collect(workspace, exitCode, interrupted)] + Publish(workspace)), workspace,
               if interrupted then Cancelled else if exitCode == 0 then Succeeded else Failed, false)
  {
    hide Inv, Do, Exec, Seen, ApplyAll, Framed;
    var w := Reached(steps);
    ReachedInv(steps);
    DoIs(w, Collect(workspace, exitCode, interrupted));
    hide LocalOf;
    DecisionIsPublished(w, Collect(workspace, exitCode, interrupted), workspace,
      if interrupted then Cancelled else if exitCode == 0 then Succeeded else Failed, false);
  }

  /** A cancel request found at the check is answered before anything runs. */
  lemma CheckedCancelIsAnswered(steps: seq<Step>, workspace: string)
    requires var w := Reached(steps); Held(w, workspace) && w.holders[workspace].pc.Marked? && Row(w, workspace).cancelRequested
    ensures var w := Reached(steps);
      Answered(w, Exec(w, [CheckCancel(workspace)] + Publish(workspace)), workspace, Cancelled, true) && Shown(w, workspace) == Row(w, workspace).before
  {
    hide Inv, Do, Exec, Seen, ApplyAll, Framed, LocalOf;
    var w := Reached(steps);
    ReachedInv(steps);
    DoIs(w, CheckCancel(workspace));
    MarkedUnrun(w, workspace);
    UntouchedTree(w, workspace);
    DecisionIsPublished(w, CheckCancel(workspace), workspace, Cancelled, true);
  }

  lemma MarkedUnrun(w: World, workspace: string)
    requires Inv(w) && Held(w, workspace) && w.holders[workspace].pc.Marked?
    ensures LocalOf(w, Served(w, workspace)) == NOTHING.(edited := LocalOf(w, Served(w, workspace)).edited)
    ensures Row(w, workspace).status == Running && !Row(w, workspace).startIntent && LocalOf(w, Served(w, workspace)).edited == 0
  {
    hide Inv, Seen, ApplyAll, VisibleEdits, PlanOk, LocalOf;
    HeldFacts(w, workspace);
  }

  /** Malformed arguments of a process are answered as failed without a container. */
  lemma BadArgumentsAreAnswered(steps: seq<Step>, workspace: string)
    requires var w := Reached(steps); Held(w, workspace) && w.holders[workspace].pc.Launching?
    ensures var w := Reached(steps);
      Answered(w, Exec(w, [RejectArgs(workspace)] + Publish(workspace)), workspace, Failed, false) && Shown(w, workspace) == Row(w, workspace).before
  {
    hide Inv, Do, Exec, Seen, ApplyAll, Framed, LocalOf;
    var w := Reached(steps);
    ReachedInv(steps);
    DoIs(w, RejectArgs(workspace));
    LaunchingUnrun(w, workspace);
    UntouchedTree(w, workspace);
    DecisionIsPublished(w, RejectArgs(workspace), workspace, Failed, false);
  }

  lemma LaunchingUnrun(w: World, workspace: string)
    requires Inv(w) && Held(w, workspace) && w.holders[workspace].pc.Launching?
    ensures LocalOf(w, Served(w, workspace)).bodies == 0
  {
    hide Inv, Seen, TreeOk, JobOk, PlanOk, LocalOf;
    HeldFacts(w, workspace);
  }

  /** Edits that ran to the end are answered as succeeded with what they left; edits
      that broke off are failed if the directory shows the old or the planned tree, and
      unknown otherwise. */
  lemma EditsAreAnswered(steps: seq<Step>, workspace: string, ok: bool)
    requires var w := Reached(steps); Held(w, workspace) && w.holders[workspace].pc.Applying?
    requires var w := Reached(steps); ok ==> LocalOf(w, Served(w, workspace)).edited == |Row(w, workspace).request.edits|
    ensures var w := Reached(steps); var v, row, tree := Exec(w, [EndEdits(workspace, ok)] + Publish(workspace)), Row(w, workspace), Shown(w, workspace);
      && (ok ==> Answered(w, v, workspace, Succeeded, false) && tree == ApplyAll(VisibleEdits(row.request.edits), row.before))
      && (!ok ==> if tree == row.before || tree == ApplyAll(row.request.edits, row.before) then Answered(w, v, workspace, Failed, false)
                  else Unanswered(w, v, workspace))
  {
    hide Inv, Do, Exec, Seen, ApplyAll, Framed, LocalOf, VisibleEdits;
    var w := Reached(steps);
    ReachedInv(steps);
    AlsoIs(w, EndEdits(workspace, ok));
    EditedTree(w, workspace);
    assert Row(w, workspace).request.edits[..|Row(w, workspace).request.edits|] == Row(w, workspace).request.edits;
    DecisionIsPublished(w, EndEdits(workspace, ok), workspace, if ok then Succeeded else Failed, false);
  }

  lemma EditedTree(w: World, workspace: string)
    requires Inv(w) && Held(w, workspace) && w.holders[workspace].pc.Applying?
    ensures var row, n := Row(w, workspace), LocalOf(w, Served(w, workspace)).edited;
      row.request.kind == ApplyPatch && n <= |row.request.edits| && Shown(w, workspace) == ApplyAll(VisibleEdits(row.request.edits[..n]), row.before)
  {
    hide Inv, Seen, ApplyAll, VisibleEdits, PlanOk, JobOk, LocalOf;
    HeldFacts(w, workspace);
  }
}
