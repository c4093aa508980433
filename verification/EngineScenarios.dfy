/** Undisturbed operations end to end, and what cancel, fence, adoption and release do
    (internal/runner/engine.go, internal/runner/journal.go). */
module EngineScenarios {
  import opened Domain
  import opened Patch
  import opened Journal
  import opened Engine
  import opened EngineInvariant
  import opened EngineSteps
  import opened EngineTables
  import opened EngineRuns
  import opened EngineOutcomes

  /** Where an executor stands with its operation. */
  ghost predicate At(w: World, workspace: string, id: string, pc: Pc, row: Operation, l: Local, files: Tree) {
    && !pc.Starting? && workspace in w.holders && w.holders[workspace] == Holder(id, pc)
    && id in w.tables.operations && w.tables.operations[id] == row && LocalOf(w, id) == l && Files(w, workspace) == files
  }

  // ----- one step of an executor ---------------------------------------------------------------

  lemma ChecksAt(w: World, workspace: string, id: string, row: Operation, l: Local, files: Tree)
    requires At(w, workspace, id, Marked, row, l, files) && !row.cancelRequested
    ensures At(Do(w, CheckCancel(workspace)), workspace, id, if row.request.kind == Process then Launching else Cleared, row, l, files)
  {
    hide Do, Framed;
    DoIs(w, CheckCancel(workspace));
  }

  lemma StartsAt(w: World, workspace: string, id: string, ok: bool, row: Operation, l: Local, files: Tree)
    requires At(w, workspace, id, Cleared, row, l, files)
    ensures At(Do(w, StartTool(workspace, ok)), workspace, id,
               if row.request.kind == ApplyPatch then Applying else Completing(if ok then Succeeded else Failed, false),
               row, l.(bodies := l.bodies + 1), files)
  {
    hide Do, Framed;
    DoIs(w, StartTool(workspace, ok));
  }

  lemma EditsAt(w: World, workspace: string, id: string, row: Operation, l: Local, files: Tree)
    requires At(w, workspace, id, Applying, row, l, files) && l.edited < |row.request.edits|
    ensures At(Do(w, EditFile(workspace)), workspace, id, Applying, row, l.(edited := l.edited + 1),
               Apply(files, row.request.edits[l.edited], row.before))
  {
    hide Do, Framed, Apply;
    DoIs(w, EditFile(workspace));
  }

  lemma LaunchesAt(w: World, workspace: string, id: string, row: Operation, l: Local, files: Tree)
    requires At(w, workspace, id, Launching, row, l, files) && l.container.None?
    ensures At(Do(w, Launch(workspace)), workspace, id, Created, row, l.(container := Some(Container(false, false))), files)
  {
    hide Do, Framed;
    DoIs(w, Launch(workspace));
  }

  lemma IntendsAt(w: World, workspace: string, id: string, row: Operation, l: Local, files: Tree)
    requires At(w, workspace, id, Created, row, l, files) && row.status == Running && !row.cancelRequested
    ensures At(Do(w, Intend(workspace)), workspace, id, Intended, row.(startIntent := true), l, files)
  {
    hide Do, Framed;
    DoIs(w, Intend(workspace));
  }

  lemma SendsAt(w: World, workspace: string, id: string, row: Operation, l: Local, files: Tree)
    requires At(w, workspace, id, Intended, row, l, files)
    ensures At(Do(w, Send(workspace)), workspace, id, Waiting, row, l.(sent := true), files)
  {
    hide Do, Framed;
    DoIs(w, Send(workspace));
  }

  lemma DeliversAt(w: World, workspace: string, id: string, row: Operation, l: Local, files: Tree)
    requires At(w, workspace, id, Waiting, row, l, files) && l.sent && l.container == Some(Container(false, false))
    ensures At(Do(w, Deliver(id)), workspace, id, Waiting, row,
               l.(sent := false, bodies := l.bodies + 1, container := Some(Container(true, true))), files)
  {
    hide Do, Framed;
    AlsoIs(w, Deliver(id));
  }

  lemma ExitsAt(w: World, workspace: string, id: string, row: Operation, l: Local, files: Tree)
    requires At(w, workspace, id, Waiting, row, l, files) && l.container == Some(Container(true, true))
    ensures At(Do(w, JobExit(id)), workspace, id, Waiting, row, l.(container := Some(Container(true, false))), files)
  {
    hide Do, Framed;
    AlsoIs(w, JobExit(id));
  }

  lemma CollectsAt(w: World, workspace: string, id: string, exitCode: int, interrupted: bool, row: Operation, l: Local, files: Tree)
    requires At(w, workspace, id, Waiting, row, l, files) && row.request.kind == Process && l.container == Some(Container(true, false))
    ensures At(Do(w, Collect(workspace, exitCode, interrupted)), workspace, id,
               Completing(if interrupted then Cancelled else if exitCode == 0 then Succeeded else Failed, false), row, l, files)
  {
    hide Do, Framed;
    DoIs(w, Collect(workspace, exitCode, interrupted));
  }

  lemma EndsAt(w: World, workspace: string, id: string, row: Operation, l: Local, files: Tree)
    requires At(w, workspace, id, Applying, row, l, files) && l.edited == |row.request.edits|
    ensures At(Do(w, EndEdits(workspace, true)), workspace, id, Completing(Succeeded, false), row, l, files)
  {
    hide Do, Framed;
    AlsoIs(w, EndEdits(workspace, true));
  }

  // ----- whole operations -------------------------------------------------------------------------

  /** The row's published answer, said of the row as it was and the files now there. */
  ghost predicate Ends(v: World, workspace: string, id: string, row: Operation, status: Status, files: Tree) {
    && id in v.tables.operations && workspace in v.tables.workspaces
    && var r := v.tables.operations[id];
      && r.status == status && !r.neverStarted && r.after == Some(Seen(files)) && r.request == row.request
      && r.afterRevision == row.request.expectedRevision + (if Seen(files) == row.before then 0 else 1)
      && v.tables.workspaces[workspace].active.None? && v.tables.workspaces[workspace].revision == r.afterRevision
      && Files(v, workspace) == files && workspace !in v.holders
  }

  /** Publication from a completed execution that is not a broken patch. */
  lemma PublishEnds(w: World, workspace: string, id: string, row: Operation, status: Status, l: Local, files: Tree)
    requires Inv(w) && At(w, workspace, id, Completing(status, false), row, l, files) && (row.request.kind == ApplyPatch ==> status == Succeeded)
    ensures Ends(Exec(w, Publish(workspace)), workspace, id, row, status, files)
  {
    hide Inv, Exec, Seen, ApplyAll, LocalOf;
    CompletionIsPublished(w, workspace);
  }

  lemma {:induction false} ExecInvAll(w: World, steps: seq<Step>)
    requires Inv(w)
    ensures Inv(Exec(w, steps))
  {
    hide Inv, Exec;
    ExecKept(w, steps);
    KeptInv(w, Exec(w, steps));
  }

  /** A read-only tool left to itself runs once and is answered by its own result. */
  lemma ReadOnlyRuns(steps: seq<Step>, workspace: string, id: string, ok: bool, row: Operation, l: Local, files: Tree)
    requires At(Reached(steps), workspace, id, Marked, row, l, files) && !row.cancelRequested && row.request.kind == ReadOnly
    ensures var run := [CheckCancel(workspace), StartTool(workspace, ok)];
      Ends(Exec(Reached(steps), run + Publish(workspace)), workspace, id, row, if ok then Succeeded else Failed, files)
  {
    hide Inv, Do, Exec, At, Ends, LocalOf;
    var w := Reached(steps);
    var a := Do(w, CheckCancel(workspace));
    var b := Do(a, StartTool(workspace, ok));
    ReachedInv(steps);
    ChecksAt(w, workspace, id, row, l, files);
    StartsAt(a, workspace, id, ok, row, l, files);
    var run := [CheckCancel(workspace)] + [StartTool(workspace, ok)];
    Exec1(w, CheckCancel(workspace));
    ExecMore(w, [CheckCancel(workspace)], StartTool(workspace, ok));
    ExecSplit(w, run, Publish(workspace));
    assert run == [CheckCancel(workspace), StartTool(workspace, ok)];
    ExecInvAll(w, run);
    PublishEnds(b, workspace, id, row, if ok then Succeeded else Failed, l.(bodies := l.bodies + 1), files);
  }

  ghost function Edits(workspace: string, n: nat): seq<Step> { if n == 0 then [] else Edits(workspace, n - 1) + [EditFile(workspace)] }

  /** The edits on disk, one after the other. */
  ghost function OnDisk(files: Tree, edits: seq<Edit>, n: nat, before: Tree): Tree
    requires n <= |edits|
  {
    if n == 0 then files else Apply(OnDisk(files, edits, n - 1, before), edits[n - 1], before)
  }

  lemma {:induction false} EditsRun(w: World, workspace: string, id: string, row: Operation, l: Local, files: Tree, n: nat)
    requires At(w, workspace, id, Applying, row, l, files) && l.edited == 0 && n <= |row.request.edits|
    ensures At(Exec(w, Edits(workspace, n)), workspace, id, Applying, row, l.(edited := n), OnDisk(files, row.request.edits, n, row.before))
  {
    hide Do, Exec, At, Apply;
    if n == 0 {
      ExecEmpty(w);
      assert l.(edited := 0) == l;
    } else {
      EditsRun(w, workspace, id, row, l, files, n - 1);
      ExecMore(w, Edits(workspace, n - 1), EditFile(workspace));
      EditsAt(Exec(w, Edits(workspace, n - 1)), workspace, id, row, l.(edited := n - 1), OnDisk(files, row.request.edits, n - 1, row.before));
    }
  }

  lemma ExecEmpty(w: World)
    ensures Exec(w, []) == w
  {}

  lemma {:induction false} OnDiskSeen(files: Tree, edits: seq<Edit>, n: nat, before: Tree)
    requires n <= |edits| && Seen(files) == before
    ensures Seen(OnDisk(files, edits, n, before)) == ApplyAll(VisibleEdits(edits[..n]), before)
  {
    hide Seen, Apply;
    if n == 0 {
      assert edits[..0] == [];
    } else {
      OnDiskSeen(files, edits, n - 1, before);
      SeenStep(OnDisk(files, edits, n - 1, before), edits, n - 1, before);
    }
  }

  /** A patch left to itself applies every edit in order and is answered as succeeded
      with the reported part of its plan: the plan itself where all paths are reported. */
  lemma PatchRuns(steps: seq<Step>, workspace: string, id: string, row: Operation, l: Local, files: Tree)
    requires At(Reached(steps), workspace, id, Marked, row, l, files) && !row.cancelRequested && row.request.kind == ApplyPatch
    ensures var edits := row.request.edits; var left := OnDisk(files, edits, |edits|, row.before);
      var run := [CheckCancel(workspace), StartTool(workspace, true)] + Edits(workspace, |edits|) + [EndEdits(workspace, true)];
      && Ends(Exec(Reached(steps), run + Publish(workspace)), workspace, id, row, Succeeded, left)
      && Seen(left) == ApplyAll(VisibleEdits(edits), row.before) && (AllVisible(edits) ==> Seen(left) == ApplyAll(edits, row.before))
  {
    hide Inv, Do, Exec, At, Ends, LocalOf, Edits, OnDisk, Seen, ApplyAll, VisibleEdits, Visible;
    var w, edits := Reached(steps), row.request.edits;
    var n := |edits|;
    ReachedInv(steps);
    AtMarked(w, workspace, id, row, l, files);
    var a := Do(w, CheckCancel(workspace));
    var b := Do(a, StartTool(workspace, true));
    ChecksAt(w, workspace, id, row, l, files);
    StartsAt(a, workspace, id, true, row, l, files);
    EditsRun(b, workspace, id, row, l.(bodies := l.bodies + 1), files, n);
    var c := Exec(b, Edits(workspace, n));
    var left := OnDisk(files, edits, n, row.before);
    EndsAt(c, workspace, id, row, l.(bodies := l.bodies + 1, edited := n), left);
    var start := [CheckCancel(workspace)] + [StartTool(workspace, true)];
    Exec1(w, CheckCancel(workspace));
    ExecMore(w, [CheckCancel(workspace)], StartTool(workspace, true));
    ExecSplit(w, start, Edits(workspace, n));
    ExecMore(w, start + Edits(workspace, n), EndEdits(workspace, true));
    var run := start + Edits(workspace, n) + [EndEdits(workspace, true)];
    assert start == [CheckCancel(workspace), StartTool(workspace, true)];
    ExecSplit(w, run, Publish(workspace));
    ExecInvAll(w, run);
    PublishEnds(Do(c, EndEdits(workspace, true)), workspace, id, row, Succeeded, l.(bodies := l.bodies + 1, edited := n), left);
    OnDiskSeen(files, edits, n, row.before);
    assert edits[..n] == edits;
    if AllVisible(edits) {
      AllVisibleEdits(edits);
    }
  }

  /** An executor about to check: nothing has happened yet. */
  lemma AtMarked(w: World, workspace: string, id: string, row: Operation, l: Local, files: Tree)
    requires Inv(w) && At(w, workspace, id, Marked, row, l, files)
    ensures l == NOTHING && row.status == Running && !row.startIntent && Seen(files) == row.before
  {
    hide Inv, Seen, LocalOf;
    MarkedUnrun(w, workspace);
    UntouchedTree(w, workspace);
  }

  /** A process left to itself is created, intended, started once, and answered by its exit. */
  lemma ProcessRuns(steps: seq<Step>, workspace: string, id: string, row: Operation, l: Local, files: Tree, exitCode: int, interrupted: bool)
    requires At(Reached(steps), workspace, id, Marked, row, l, files) && !row.cancelRequested && row.request.kind == Process
    ensures var run := [CheckCancel(workspace), Launch(workspace), Intend(workspace), Send(workspace), Deliver(id), JobExit(id),
                        Collect(workspace, exitCode, interrupted)];
      var w := Exec(Reached(steps), run);
      && LocalOf(w, id).bodies == 1 && id in w.tables.operations && w.tables.operations[id].startIntent
      && Ends(Exec(w, Publish(workspace)), workspace, id, row, if interrupted then Cancelled else if exitCode == 0 then Succeeded else Failed, files)
  {
    hide Inv, Do, Exec, At, Ends, LocalOf;
    var w0 := Reached(steps);
    ReachedInv(steps);
    AtMarked(w0, workspace, id, row, l, files);
    var w1 := Do(w0, CheckCancel(workspace));
    ChecksAt(w0, workspace, id, row, l, files);
    var w2 := Do(w1, Launch(workspace));
    LaunchesAt(w1, workspace, id, row, l, files);
    var l2 := l.(container := Some(Container(false, false)));
    var w3 := Do(w2, Intend(workspace));
    IntendsAt(w2, workspace, id, row, l2, files);
    var going := row.(startIntent := true);
    var w4 := Do(w3, Send(workspace));
    SendsAt(w3, workspace, id, going, l2, files);
    var w5 := Do(w4, Deliver(id));
    DeliversAt(w4, workspace, id, going, l2.(sent := true), files);
    var l5 := l2.(sent := false, bodies := 1, container := Some(Container(true, true)));
    var w6 := Do(w5, JobExit(id));
    ExitsAt(w5, workspace, id, going, l5, files);
    var l6 := l5.(container := Some(Container(true, false)));
    var w7 := Do(w6, Collect(workspace, exitCode, interrupted));
    CollectsAt(w6, workspace, id, exitCode, interrupted, going, l6, files);
    var run := [CheckCancel(workspace), Launch(workspace), Intend(workspace), Send(workspace), Deliver(id), JobExit(id),
                Collect(workspace, exitCode, interrupted)];
    Exec7(w0, run);
    ExecInvAll(w0, run);
    AtFacts(w7, workspace, id, going, l6, files);
    PublishEnds(w7, workspace, id, going, if interrupted then Cancelled else if exitCode == 0 then Succeeded else Failed, l6, files);
    EndsSame(Exec(w7, Publish(workspace)), workspace, id, row, going, if interrupted then Cancelled else if exitCode == 0 then Succeeded else Failed, files);
  }

  lemma AtFacts(w: World, workspace: string, id: string, row: Operation, l: Local, files: Tree)
    ensures forall pc :: At(w, workspace, id, pc, row, l, files) ==> LocalOf(w, id) == l && id in w.tables.operations && w.tables.operations[id] == row
  {}

  lemma EndsSame(v: World, workspace: string, id: string, row: Operation, other: Operation, status: Status, files: Tree)
    requires Ends(v, workspace, id, other, status, files) && other.request == row.request && other.before == row.before
    ensures Ends(v, workspace, id, row, status, files)
  {}

  lemma Exec7(w: World, run: seq<Step>)
    requires |run| == 7
    ensures Exec(w, run) == Do(Do(Do(Do(Do(Do(Do(w, run[0]), run[1]), run[2]), run[3]), run[4]), run[5]), run[6])
  {
    hide Do, Exec;
    Exec1(w, run[0]);
    assert run[..1] == [run[0]];
    ExecPrefix(w, run, 1);
    ExecPrefix(w, run, 2);
    ExecPrefix(w, run, 3);
    ExecPrefix(w, run, 4);
    ExecPrefix(w, run, 5);
    ExecPrefix(w, run, 6);
    assert run[..7] == run;
  }

  lemma ExecPrefix(w: World, run: seq<Step>, n: nat)
    requires n < |run|
    ensures Exec(w, run[..n + 1]) == Do(Exec(w, run[..n]), run[n])
  {
    hide Do, Exec;
    assert run[..n + 1] == run[..n] + [run[n]];
    ExecMore(w, run[..n], run[n]);
  }

  // ----- starting an operation ------------------------------------------------------------------------

  /** The workspace is open at the request's epoch and revision and idle, the operation is
      new and, if it is a patch, acceptable for the tree that is there. */
  ghost predicate Startable(w: World, r: Request, limits: Limits) {
    && r.workspace in w.tables.workspaces && r.operation !in w.tables.operations && r.expectedRevision > 0
    && var s := w.tables.workspaces[r.workspace];
      && s.scope == r.scope && s.epoch == r.epoch && s.revision == r.expectedRevision && s.active.None?
      && !s.adopting && !s.released && !s.stopped
      && (r.kind == ApplyPatch ==> Acceptable(r.edits, Shown(w, r.workspace), limits, ApplyAll(r.edits, Shown(w, r.workspace))))
  }

  lemma StartIs(w: World, r: Request, limits: Limits)
    ensures Exec(w, [BeginStart(r, limits), ReserveRow(r.workspace)]) == DoReserveRow(DoBeginStart(w, r, limits), r.workspace)
  {
    hide Do, Exec, DoBeginStart, DoReserveRow;
    Exec1(w, BeginStart(r, limits));
    assert [BeginStart(r, limits), ReserveRow(r.workspace)] == [BeginStart(r, limits)] + [ReserveRow(r.workspace)];
    ExecMore(w, [BeginStart(r, limits)], ReserveRow(r.workspace));
    DoIs(w, BeginStart(r, limits));
    DoIs(Do(w, BeginStart(r, limits)), ReserveRow(r.workspace));
  }

  /** On an unlocked workspace a start records the operation exactly when it is
      startable: the request, the tree it starts from and its plan, as the active
      operation; otherwise the journal stays as it was. */
  lemma StartRecordsIff(w: World, r: Request, limits: Limits)
    requires Inv(w) && r.workspace !in w.holders
    ensures var v, tree := Exec(w, [BeginStart(r, limits), ReserveRow(r.workspace)]), Shown(w, r.workspace);
      if Startable(w, r, limits) then
        && r.operation in v.tables.operations && r.workspace in v.tables.workspaces && v.tables.workspaces[r.workspace].active == Some(r.operation)
        && v.holders == w.holders[r.workspace := Holder(r.operation, Reserved)] && v.files == w.files
        && var row := v.tables.operations[r.operation];
          && row.request == r && row.status == Prepared && row.before == tree && row.after.None? && !row.dispatchStarted && !row.startIntent
          && !row.cancelRequested && !row.neverStarted && (r.kind == ApplyPatch ==> row.expectedAfter == Some(ApplyAll(r.edits, tree)))
      else v.tables == w.tables && v.files == w.files
  {
    hide Inv, Do, Exec, Seen, ApplyAll, Acceptable, Framed, ValidPatch, DoReserveRow;
    StartIs(w, r, limits);
    ValidPatchMeaning(r.edits, Shown(w, r.workspace), limits);
    var u := DoBeginStart(w, r, limits);
    ReservesFrom(u, r.workspace);
  }

  lemma ReservesFrom(u: World, workspace: string)
    ensures var v := DoReserveRow(u, workspace);
      if workspace !in u.holders || !u.holders[workspace].pc.Starting? then v == u
      else
        var pc := u.holders[workspace].pc;
        if ReserveError(u.tables, pc.request).Some? || pc.request.operation in u.tables.operations then v == Unlock(u, workspace)
        else v == u.(tables := Tables(u.tables.workspaces[pc.request.workspace := u.tables.workspaces[pc.request.workspace].(active := Some(pc.request.operation))],
                                      u.tables.operations[pc.request.operation := FreshRow(pc.request, pc.before, pc.expectedAfter)]),
                     holders := u.holders[workspace := Holder(pc.request.operation, Reserved)])
  {
    hide NoNewStart, NoneCleared, Shut;
  }

  /** The executor's first write: running and dispatched. */
  lemma MarksAt(w: World, workspace: string, id: string, row: Operation, l: Local, files: Tree)
    requires At(w, workspace, id, Reserved, row, l, files) && row.status == Prepared
    ensures At(Do(w, Mark(workspace)), workspace, id, Marked, row.(status := Running, dispatchStarted := true), l, files)
  {
    hide Do, Framed;
    DoIs(w, Mark(workspace));
  }

  // ----- control ----------------------------------------------------------------------------------------

  /** A cancel request is recorded on an operation that has not settled, and nowhere else. */
  lemma CancelRecords(w: World, id: string)
    ensures var v := Do(w, Cancel(id)); var live := id in w.tables.operations && !w.tables.operations[id].status.Terminal();
      && v == w.(tables := v.tables) && v.tables.workspaces == w.tables.workspaces
      && v.tables.operations == if live then w.tables.operations[id := w.tables.operations[id].(cancelRequested := true)] else w.tables.operations
  {
    hide Do, Framed;
    AlsoIs(w, Cancel(id));
  }

  /** Cancelling an operation before its body, its check and its start intent keeps the
      body from ever running, whatever happens afterwards. */
  lemma CancelStopsOperation(steps: seq<Step>, id: string, later: seq<Step>)
    requires var w := Reached(steps);
      && id in w.tables.operations && !w.tables.operations[id].status.Terminal() && !w.tables.operations[id].startIntent
      && LocalOf(w, id).bodies == 0 && !PastCheck(w, id)
    ensures LocalOf(Exec(Do(Reached(steps), Cancel(id)), later), id).bodies == 0
  {
    hide Inv, Do, Exec;
    var w := Reached(steps);
    ReachedInv(steps);
    DoKept(w, Cancel(id));
    KeptInv(w, Do(w, Cancel(id)));
    CancelRecords(w, id);
    CancelledNeverRuns(Do(w, Cancel(id)), later, id);
  }

  /** A fence takes effect exactly for the owner at a current or newer epoch: the epoch
      is raised, the workspace closed, and a stop is for good. */
  lemma FenceRecords(w: World, workspace: string, scope: Scope, epoch: nat, stop: bool)
    ensures var v := Do(w, Fence(workspace, scope, epoch, stop));
      if workspace in w.tables.workspaces && w.tables.workspaces[workspace].scope == scope && w.tables.workspaces[workspace].epoch <= epoch
         && !w.tables.workspaces[workspace].released && (w.tables.workspaces[workspace].stopped ==> stop)
      then v == w.(tables := v.tables) && v.tables.operations == w.tables.operations && v.tables.workspaces == w.tables.workspaces[workspace :=
             w.tables.workspaces[workspace].(epoch := epoch, adopting := true, stopped := w.tables.workspaces[workspace].stopped || stop)]
      else v == w
  {
    hide Do, Framed;
    AlsoIs(w, Fence(workspace, scope, epoch, stop));
  }

  /** After an accepted fence, no operation enters until adoption, none of an older epoch
      ever does, and after a stop none at all. */
  lemma FenceHolds(steps: seq<Step>, workspace: string, scope: Scope, epoch: nat, stop: bool, later: seq<Step>, id: string)
    requires var w := Reached(steps);
      && workspace in w.tables.workspaces && w.tables.workspaces[workspace].scope == scope && w.tables.workspaces[workspace].epoch <= epoch
      && !w.tables.workspaces[workspace].released && (w.tables.workspaces[workspace].stopped ==> stop)
    requires id !in Reached(steps).tables.operations
    ensures var v := Exec(Do(Reached(steps), Fence(workspace, scope, epoch, stop)), later);
      id in v.tables.operations && v.tables.operations[id].request.workspace == workspace ==>
        && !stop && epoch <= v.tables.operations[id].request.epoch
        && exists i :: 0 <= i < |later| && later[i].Adopt? && later[i].workspace == workspace
  {
    hide Inv, Do, Exec;
    var w := Reached(steps);
    var u := Do(w, Fence(workspace, scope, epoch, stop));
    ReachedInv(steps);
    FenceRecords(w, workspace, scope, epoch, stop);
    DoKept(w, Fence(workspace, scope, epoch, stop));
    KeptInv(w, u);
    ExecKept(u, later);
    KeptInv(u, Exec(u, later));
    if stop {
      StoppedTakesNothing(u, workspace, later, id);
    }
    if forall i :: 0 <= i < |later| ==> !(later[i].Adopt? && later[i].workspace == workspace) {
      FencedTakesNothing(u, workspace, later, id);
    }
  }

  /** Adoption reopens exactly an idle workspace fenced at that epoch and neither
      stopped nor released. */
  lemma AdoptionRecords(w: World, workspace: string, epoch: nat)
    ensures var v := Do(w, Adopt(workspace, epoch));
      if workspace in w.tables.workspaces && w.tables.workspaces[workspace].epoch == epoch && w.tables.workspaces[workspace].active.None?
         && !w.tables.workspaces[workspace].stopped && !w.tables.workspaces[workspace].released
      then v == w.(tables := v.tables) && v.tables.operations == w.tables.operations
        && v.tables.workspaces == w.tables.workspaces[workspace := w.tables.workspaces[workspace].(adopting := false)]
      else v == w
  {
    hide Do, Framed;
    AlsoIs(w, Adopt(workspace, epoch));
  }

  /** Release closes exactly an idle workspace of that epoch, for good. */
  lemma ReleaseRecords(w: World, workspace: string, epoch: nat)
    ensures var v := Do(w, Release(workspace, epoch));
      if workspace in w.tables.workspaces && w.tables.workspaces[workspace].epoch == epoch && w.tables.workspaces[workspace].active.None?
      then v == w.(tables := v.tables) && v.tables.operations == w.tables.operations
        && v.tables.workspaces == w.tables.workspaces[workspace := w.tables.workspaces[workspace].(released := true, adopting := true)]
      else v == w
  {
    hide Do, Framed;
    AlsoIs(w, Release(workspace, epoch));
  }

  /** A new workspace opens idle at revision one with its source tree; an existing one is
      left alone. */
  lemma PrepareRecords(w: World, workspace: string, scope: Scope, epoch: nat, tree: Tree)
    ensures var v := Do(w, Prepare(workspace, scope, epoch, tree));
      if workspace !in w.tables.workspaces && workspace !in w.holders
      then v.tables.operations == w.tables.operations && Files(v, workspace) == tree
        && v.tables.workspaces == w.tables.workspaces[workspace := Workspace(scope, epoch, 1, None, false, false, false)]
      else v == w
  {
    hide Do, Framed;
    DoIs(w, Prepare(workspace, scope, epoch, tree));
  }

  /** An executor that gives up leaves its operation unknown, or untouched if it could not
      even record that, and the lock free. */
  lemma AbandonRecords(w: World, workspace: string, mark: bool)
    requires Inv(w) && Held(w, workspace)
    ensures var v := Do(w, Abandon(workspace, mark)); if mark then Unanswered(w, v, workspace) else v == w.(holders := w.holders - {workspace})
  {
    hide Inv, Do, Seen, Framed;
    AlsoIs(w, Abandon(workspace, mark));
    if mark {
      DropIsUnanswered(w, workspace);
    }
  }

  /** Killing a running job stops it. */
  lemma KillStops(w: World, workspace: string, id: string, row: Operation, l: Local, files: Tree)
    requires At(w, workspace, id, Waiting, row, l, files) && l.container == Some(Container(true, true))
    ensures At(Do(w, Kill(workspace)), workspace, id, Waiting, row, l.(container := Some(Container(true, false))), files)
  {
    hide Do, Framed;
    DoIs(w, Kill(workspace));
  }
}
