/** The runner engine as a step machine (internal/runner/engine.go).  The journal,
    the workspace directories and the Docker daemon are durable; the per-workspace
    file lock and the goroutine that holds it are volatile and vanish in a crash.
    A step is one transaction, one file edit, one daemon action or one lock change,
    so a crash can fall between any two of them. */
module Engine {
  import opened Domain
  import opened Patch
  import opened Journal

  datatype Container = Container(started: bool, running: bool)

  /** Where the goroutine holding a workspace lock stands. */
  datatype Pc =
    | Starting(request: Request, before: Tree, expectedAfter: Option<Tree>)
    | Reserved | Marked | Cleared | Launching | Created | Intended | Waiting | Applying
    | Completing(status: Status, never: bool)
    | Finishing(status: Status, never: bool, seen: Tree)
    | Reconciling(cancelJob: bool)

  datatype Holder = Holder(operation: string, pc: Pc)

  /** `sent` are `docker start` requests not yet acted upon by the daemon.  The last
      three fields only record history: how often an operation's body ran, how many
      of its edits reached the disk, and the order in which operations settled. */
  datatype World = World(
    tables: Tables, files: map<string, Tree>, containers: map<string, Container>, sent: set<string>,
    holders: map<string, Holder>,
    bodies: map<string, nat>, edited: map<string, nat>, finished: map<string, seq<string>>)

  const INIT := World(Tables(map[], map[]), map[], map[], {}, map[], map[], map[], map[])

  function Files(w: World, workspace: string): Tree {
    if workspace in w.files then w.files[workspace] else map[]
  }

  function History(w: World, workspace: string): seq<string> {
    if workspace in w.finished then w.finished[workspace] else []
  }

  /** Everything outside the journal that belongs to one operation. */
  datatype Local = Local(bodies: nat, sent: bool, container: Option<Container>, edited: nat)

  function LocalOf(w: World, id: string): Local {
    Local(if id in w.bodies then w.bodies[id] else 0, id in w.sent,
          if id in w.containers then Some(w.containers[id]) else None,
          if id in w.edited then w.edited[id] else 0)
  }

  datatype Step =
    | Prepare(workspace: string, scope: Scope, epoch: nat, tree: Tree)
    | BeginStart(request: Request, limits: Limits)
    | ReserveRow(workspace: string)
    | Mark(workspace: string)
    | CheckCancel(workspace: string)
    | StartTool(workspace: string, ok: bool)
    | RejectArgs(workspace: string)
    | Launch(workspace: string)
    | Intend(workspace: string)
    | Send(workspace: string)
    | Collect(workspace: string, exitCode: int, interrupted: bool)
    | Kill(workspace: string)
    | EditFile(workspace: string)
    | EndEdits(workspace: string, ok: bool)
    | ReadBack(workspace: string)
    | FinishRow(workspace: string)
    | Abandon(workspace: string, mark: bool)
    | Crash(workspaces: set<string>)
    | BeginReconcile(workspace: string, operation: string, cancelJob: bool)
    | SettleNever(workspace: string)
    | RemoveNever(workspace: string)
    | SettleTree(workspace: string)
    | Deliver(operation: string)
    | JobWrite(operation: string, tree: Tree)
    | JobExit(operation: string)
    | Cancel(operation: string)
    | Fence(workspace: string, scope: Scope, epoch: nat, stop: bool)
    | Adopt(workspace: string, epoch: nat)
    | Release(workspace: string, epoch: nat)

  /** The lock of `workspace` is held by a goroutine working on a recorded operation. */
  predicate Held(w: World, workspace: string) {
    && workspace in w.holders && !w.holders[workspace].pc.Starting?
    && w.holders[workspace].operation in w.tables.operations
  }

  function Row(w: World, workspace: string): Operation
    requires Held(w, workspace)
  {
    w.tables.operations[w.holders[workspace].operation]
  }

  function Goto(w: World, workspace: string, pc: Pc): World
    requires workspace in w.holders
  {
    w.(holders := w.holders[workspace := w.holders[workspace].(pc := pc)])
  }

  function Unlock(w: World, workspace: string): World { w.(holders := w.holders - {workspace}) }

  function RunBody(w: World, id: string): World {
    w.(bodies := w.bodies[id := LocalOf(w, id).bodies + 1])
  }

  function JobOf(w: World, workspace: string): Option<Container>
    requires Held(w, workspace)
  {
    LocalOf(w, w.holders[workspace].operation).container
  }

  /** Frame of most steps: no body starts, nothing settles, no row or start appears,
      no check is passed, no fence opens. */
  ghost predicate Framed(w: World, v: World) {
    v.bodies == w.bodies && v.finished == w.finished && v.tables.operations.Keys == w.tables.operations.Keys
    && NoNewStart(w, v) && NoneCleared(w, v) && Shut(w, v)
  }

  /** A fenced workspace stays closed. */
  ghost predicate Shut(w: World, v: World) {
    forall k :: k in w.tables.workspaces && w.tables.workspaces[k].adopting ==> k in v.tables.workspaces && v.tables.workspaces[k].adopting
  }

  /** No executor passes its check for a cancel request. */
  ghost predicate NoneCleared(w: World, v: World) {
    forall k :: k in v.holders && v.holders[k].pc.Cleared? ==> k in w.holders && v.holders[k] == w.holders[k]
  }

  ghost predicate NoNewStart(w: World, v: World) {
    forall k :: k in v.holders && v.holders[k].pc.Starting? ==> k in w.holders && v.holders[k] == w.holders[k]
  }

  // ----- StartOperation -----------------------------------------------------------------

  ghost function DoBeginStart(w: World, r: Request, limits: Limits): (v: World)
    ensures v == w.(holders := v.holders) && NoneCleared(w, v)
  {
    if r.workspace in w.holders || r.operation in w.tables.operations || r.expectedRevision == 0 then w
    else
      var before := Seen(Files(w, r.workspace));
      if r.kind != ApplyPatch then w.(holders := w.holders[r.workspace := Holder(r.operation, Starting(r, before, None))])
      else if !ValidPatch(r.edits, before, limits) then w
      else w.(holders := w.holders[r.workspace := Holder(r.operation, Starting(r, before, Some(ApplyAll(r.edits, before))))])
  }

  function DoReserveRow(w: World, workspace: string): (v: World)
    ensures v.bodies == w.bodies && v.finished == w.finished && NoNewStart(w, v) && NoneCleared(w, v) && Shut(w, v)
  {
    if workspace !in w.holders || !w.holders[workspace].pc.Starting? then w
    else
      var h := w.holders[workspace].pc;
      if ReserveError(w.tables, h.request).Some? || h.request.operation in w.tables.operations then Unlock(w, workspace)
      else w.(tables := Journal.Reserve(w.tables, h.request, h.before, h.expectedAfter),
              holders := w.holders[workspace := Holder(h.request.operation, Reserved)])
  }

  // ----- execute ---------------------------------------------------------------------------

  function DoMark(w: World, workspace: string): (v: World)
    ensures Framed(w, v)
  {
    if Held(w, workspace) && w.holders[workspace].pc.Reserved?
    then Goto(w.(tables := MarkRunning(w.tables, w.holders[workspace].operation)), workspace, Marked) else w
  }

  /** The one read of the cancel request.  A request that commits after it is seen
      again only by the start-intent update of a process. */
  function DoCheckCancel(w: World, workspace: string): (v: World)
    ensures v == w.(holders := v.holders) && NoNewStart(w, v)
    ensures forall k :: k in v.holders && v.holders[k].pc.Cleared? ==>
      k in w.holders && (v.holders[k] == w.holders[k]
        || (Held(w, k) && v.holders[k].operation == w.holders[k].operation && !Row(w, k).cancelRequested))
  {
    if !Held(w, workspace) || !w.holders[workspace].pc.Marked? then w
    else if Row(w, workspace).cancelRequested then Goto(w, workspace, Completing(Cancelled, true))
    else if Row(w, workspace).request.kind == Process then Goto(w, workspace, Launching)
    else Goto(w, workspace, Cleared)
  }

  /** A file tool starts: its body runs from here on. */
  function DoStartTool(w: World, workspace: string, ok: bool): (v: World)
    ensures Framed(w, v.(bodies := w.bodies))
  {
    if !Held(w, workspace) || !w.holders[workspace].pc.Cleared? then w
    else
      Goto(RunBody(w, w.holders[workspace].operation), workspace,
           if Row(w, workspace).request.kind == ApplyPatch then Applying else Completing(if ok then Succeeded else Failed, false))
  }

  function DoRejectArgs(w: World, workspace: string): (v: World)
    ensures Framed(w, v)
  {
    if Held(w, workspace) && w.holders[workspace].pc.Launching? then Goto(w, workspace, Completing(Failed, false)) else w
  }

  function DoLaunch(w: World, workspace: string): (v: World)
    ensures Framed(w, v)
  {
    if Held(w, workspace) && w.holders[workspace].pc.Launching? && JobOf(w, workspace).None?
    then Goto(w.(containers := w.containers[w.holders[workspace].operation := Container(false, false)]), workspace, Created) else w
  }

  function DoIntend(w: World, workspace: string): (v: World)
    ensures Framed(w, v)
  {
    if Held(w, workspace) && w.holders[workspace].pc.Created? && MayIntend(w.tables, w.holders[workspace].operation)
    then Goto(w.(tables := SetStartIntent(w.tables, w.holders[workspace].operation)), workspace, Intended) else w
  }

  function DoSend(w: World, workspace: string): (v: World)
    ensures Framed(w, v)
  {
    if Held(w, workspace) && w.holders[workspace].pc.Intended?
    then Goto(w.(sent := w.sent + {w.holders[workspace].operation}), workspace, Waiting) else w
  }

  /** What a stopped job reports. */
  function JobStatus(exitCode: int, interrupted: bool): Status {
    if interrupted then Cancelled else if exitCode != 0 then Failed else Succeeded
  }

  /** A job observed stopped, by its executor or by reconciliation. */
  function DoCollect(w: World, workspace: string, exitCode: int, interrupted: bool): (v: World)
    ensures Framed(w, v)
  {
    if Held(w, workspace) && (w.holders[workspace].pc.Waiting? || w.holders[workspace].pc.Reconciling?)
       && Row(w, workspace).request.kind == Process && JobOf(w, workspace) == Some(Container(true, false))
    then Goto(w, workspace, Completing(JobStatus(exitCode, interrupted), false)) else w
  }

  function DoKill(w: World, workspace: string): (v: World)
    ensures Framed(w, v)
  {
    if Held(w, workspace) && (w.holders[workspace].pc.Waiting? || w.holders[workspace].pc.Reconciling?)
       && JobOf(w, workspace) == Some(Container(true, true))
    then w.(containers := w.containers[w.holders[workspace].operation := Container(true, false)]) else w
  }

  function DoEditFile(w: World, workspace: string): (v: World)
    ensures Framed(w, v)
  {
    if !Held(w, workspace) || !w.holders[workspace].pc.Applying? then w
    else
      var id, row := w.holders[workspace].operation, Row(w, workspace);
      var n := LocalOf(w, id).edited;
      if n >= |row.request.edits| then w
      else w.(files := w.files[workspace := Apply(Files(w, workspace), row.request.edits[n], row.before)],
              edited := w.edited[id := n + 1])
  }

  /** All edits made, or an error between two of them. */
  function DoEndEdits(w: World, workspace: string, ok: bool): (v: World)
    ensures Framed(w, v)
  {
    if !Held(w, workspace) || !w.holders[workspace].pc.Applying? then w
    else if ok && LocalOf(w, w.holders[workspace].operation).edited != |Row(w, workspace).request.edits| then w
    else Goto(w, workspace, Completing(if ok then Succeeded else Failed, false))
  }

  // ----- complete ------------------------------------------------------------------------

  function DoReadBack(w: World, workspace: string): (v: World)
    ensures Framed(w, v) && v == w.(holders := v.holders)
  {
    if Held(w, workspace) && w.holders[workspace].pc.Completing?
    then Goto(w, workspace, Finishing(w.holders[workspace].pc.status, w.holders[workspace].pc.never, Seen(Files(w, workspace)))) else w
  }

  /** A partially applied patch is never settled. */
  predicate PartialPatch(row: Operation, status: Status, seen: Tree) {
    row.request.kind == ApplyPatch && status != Succeeded && seen != row.before && row.expectedAfter != Some(seen)
  }

  function SettlementOf(row: Operation, status: Status, never: bool, seen: Tree): Settlement {
    Settlement(status, seen, row.request.expectedRevision + (if seen != row.before then 1 else 0), never, "receipt")
  }

  function DoFinishRow(w: World, workspace: string): (v: World)
    ensures Framed(w, v.(finished := w.finished)) && v.containers == w.containers && v.files == w.files
  {
    if !Held(w, workspace) || !w.holders[workspace].pc.Finishing? then w
    else
      var id, row, pc := w.holders[workspace].operation, Row(w, workspace), w.holders[workspace].pc;
      var s := SettlementOf(row, pc.status, pc.never, pc.seen);
      if PartialPatch(row, pc.status, pc.seen) || FinishError(w.tables, id, s).Some?
      then Unlock(w.(tables := MarkUnknown(w.tables, id)), workspace)
      else Unlock(w.(tables := Finish(w.tables, id, s),
                     finished := if row.status.Terminal() then w.finished
                                 else w.finished[workspace := History(w, workspace) + [id]]), workspace)
  }

  function DoAbandon(w: World, workspace: string, mark: bool): (v: World)
    ensures Framed(w, v)
  {
    if !Held(w, workspace) then Unlock(w, workspace)
    else Unlock(if mark then w.(tables := MarkUnknown(w.tables, w.holders[workspace].operation)) else w, workspace)
  }

  // ----- reconcileLocked ---------------------------------------------------------------------

  function DoBeginReconcile(w: World, workspace: string, id: string, cancelJob: bool): (v: World)
    ensures Framed(w, v)
  {
    if workspace in w.holders || id !in w.tables.operations || w.tables.operations[id].request.workspace != workspace
       || w.tables.operations[id].status.Terminal() then w
    else w.(holders := w.holders[workspace := Holder(id, Reconciling(cancelJob))])
  }

  predicate MaySettleNever(row: Operation, cancelJob: bool) {
    !row.dispatchStarted && (cancelJob || row.cancelRequested)
  }

  function DoSettleNever(w: World, workspace: string): (v: World)
    ensures Framed(w, v)
  {
    if Held(w, workspace) && w.holders[workspace].pc.Reconciling?
       && MaySettleNever(Row(w, workspace), w.holders[workspace].pc.cancelJob)
    then Goto(w, workspace, Completing(Cancelled, true)) else w
  }

  /** `CancelNeverDispatched`: remove a container whose start was never intended. */
  function DoRemoveNever(w: World, workspace: string): (v: World)
    ensures Framed(w, v)
  {
    if Held(w, workspace) && w.holders[workspace].pc.Reconciling? && Row(w, workspace).request.kind == Process
       && JobOf(w, workspace) == Some(Container(false, false)) && !Row(w, workspace).startIntent
    then Goto(w.(containers := w.containers - {w.holders[workspace].operation}), workspace, Completing(Cancelled, true)) else w
  }

  /** File tools are reconciled from the directory alone. */
  function DoSettleTree(w: World, workspace: string): (v: World)
    ensures Framed(w, v)
  {
    if !Held(w, workspace) || !w.holders[workspace].pc.Reconciling? || Row(w, workspace).request.kind == Process
       || MaySettleNever(Row(w, workspace), w.holders[workspace].pc.cancelJob) then w
    else
      var row, seen := Row(w, workspace), Seen(Files(w, workspace));
      if row.request.kind == ApplyPatch && row.expectedAfter == Some(seen) then Goto(w, workspace, Completing(Succeeded, false))
      else if seen == row.before then Goto(w, workspace, Completing(Failed, false))
      else Unlock(w.(tables := MarkUnknown(w.tables, w.holders[workspace].operation)), workspace)
  }

  // ----- the daemon, the control plane, crashes ------------------------------------------------

  /** A start request takes effect, possibly long after its sender died. */
  function DoDeliver(w: World, id: string): (v: World)
    ensures Framed(w, v.(bodies := w.bodies))
  {
    if id !in w.sent then w
    else
      var received := w.(sent := w.sent - {id});
      if id in w.containers && !w.containers[id].started
      then RunBody(received.(containers := w.containers[id := Container(true, true)]), id) else received
  }

  predicate JobRunning(w: World, id: string) {
    id in w.containers && w.containers[id].running && id in w.tables.operations
  }

  function DoJobWrite(w: World, id: string, tree: Tree): (v: World)
    ensures Framed(w, v)
  {
    if JobRunning(w, id) then w.(files := w.files[w.tables.operations[id].request.workspace := tree]) else w
  }

  function DoJobExit(w: World, id: string): (v: World)
    ensures Framed(w, v)
  {
    if JobRunning(w, id) then w.(containers := w.containers[id := w.containers[id].(running := false)]) else w
  }

  function DoPrepare(w: World, workspace: string, scope: Scope, epoch: nat, tree: Tree): (v: World)
    ensures Framed(w, v)
  {
    if workspace in w.tables.workspaces || workspace in w.holders then w
    else w.(tables := CreateWorkspace(w.tables, workspace, scope, epoch), files := w.files[workspace := tree])
  }

  function DoCrash(w: World, workspaces: set<string>): (v: World)
    ensures Framed(w, v)
  {
    w.(holders := w.holders - workspaces)
  }

  function DoCancel(w: World, id: string): (v: World)
    ensures Framed(w, v)
  {
    w.(tables := RequestCancel(w.tables, id))
  }

  function DoFence(w: World, workspace: string, scope: Scope, epoch: nat, stop: bool): (v: World)
    ensures Framed(w, v)
  {
    w.(tables := SetFence(w.tables, workspace, scope, epoch, stop))
  }

  function DoAdopt(w: World, workspace: string, epoch: nat): (v: World)
    ensures v == w.(tables := v.tables) && v.tables.operations == w.tables.operations
    ensures forall k :: k in w.tables.workspaces && k != workspace ==> k in v.tables.workspaces && v.tables.workspaces[k] == w.tables.workspaces[k]
  {
    w.(tables := CompleteAdoption(w.tables, workspace, epoch))
  }

  function DoRelease(w: World, workspace: string, epoch: nat): (v: World)
    ensures Framed(w, v)
  {
    w.(tables := ReleaseWorkspace(w.tables, workspace, epoch))
  }

  ghost function Do(w: World, step: Step): World {
    match step
    case Prepare(workspace, scope, epoch, tree) => DoPrepare(w, workspace, scope, epoch, tree)
    case BeginStart(r, limits) => DoBeginStart(w, r, limits)
    case ReserveRow(workspace) => DoReserveRow(w, workspace)
    case Mark(workspace) => DoMark(w, workspace)
    case CheckCancel(workspace) => DoCheckCancel(w, workspace)
    case StartTool(workspace, ok) => DoStartTool(w, workspace, ok)
    case RejectArgs(workspace) => DoRejectArgs(w, workspace)
    case Launch(workspace) => DoLaunch(w, workspace)
    case Intend(workspace) => DoIntend(w, workspace)
    case Send(workspace) => DoSend(w, workspace)
    case Collect(workspace, exitCode, interrupted) => DoCollect(w, workspace, exitCode, interrupted)
    case Kill(workspace) => DoKill(w, workspace)
    case EditFile(workspace) => DoEditFile(w, workspace)
    case EndEdits(workspace, ok) => DoEndEdits(w, workspace, ok)
    case ReadBack(workspace) => DoReadBack(w, workspace)
    case FinishRow(workspace) => DoFinishRow(w, workspace)
    case Abandon(workspace, mark) => DoAbandon(w, workspace, mark)
    case Crash(workspaces) => DoCrash(w, workspaces)
    case BeginReconcile(workspace, id, cancelJob) => DoBeginReconcile(w, workspace, id, cancelJob)
    case SettleNever(workspace) => DoSettleNever(w, workspace)
    case RemoveNever(workspace) => DoRemoveNever(w, workspace)
    case SettleTree(workspace) => DoSettleTree(w, workspace)
    case Deliver(id) => DoDeliver(w, id)
    case JobWrite(id, tree) => DoJobWrite(w, id, tree)
    case JobExit(id) => DoJobExit(w, id)
    case Cancel(id) => DoCancel(w, id)
    case Fence(workspace, scope, epoch, stop) => DoFence(w, workspace, scope, epoch, stop)
    case Adopt(workspace, epoch) => DoAdopt(w, workspace, epoch)
    case Release(workspace, epoch) => DoRelease(w, workspace, epoch)
  }

  ghost function Exec(w: World, steps: seq<Step>): World {
    if steps == [] then w else Do(Exec(w, steps[..|steps| - 1]), steps[|steps| - 1])
  }
}
