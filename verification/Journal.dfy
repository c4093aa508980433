/** The runner's durable operation journal (internal/runner/journal.go).  Every SQL
    transaction is one method of `JournalDb`, proved against a function on tables. */
module Journal {
  import opened Domain
  import opened Patch

  datatype Status = Prepared | Running | Succeeded | Failed | Cancelled | Unknown {
    predicate Terminal() { this.Succeeded? || this.Failed? || this.Cancelled? }
  }

  /** `run_command` and `verify` are processes; the other file tools only read. */
  datatype Kind = Process | ApplyPatch | ReadOnly

  datatype Scope = Scope(tenant: string, run: string)

  /** `binding` stands for the remaining immutable fields: arguments, policy, deadline. */
  datatype Request = Request(scope: Scope, workspace: string, epoch: nat, operation: string,
                             expectedRevision: nat, kind: Kind, edits: seq<Edit>, binding: string)

  datatype Operation = Operation(
    request: Request, status: Status, before: Tree, expectedAfter: Option<Tree>, after: Option<Tree>,
    afterRevision: nat, neverStarted: bool, cancelRequested: bool, dispatchStarted: bool, startIntent: bool)

  datatype Workspace = Workspace(scope: Scope, epoch: nat, revision: nat, active: Option<string>,
                                 adopting: bool, released: bool, stopped: bool)

  datatype Tables = Tables(workspaces: map<string, Workspace>, operations: map<string, Operation>)

  /** Same request up to the worker epoch (and the bearer grant, not modelled). */
  predicate SameBinding(a: Request, b: Request) { a.(epoch := 0) == b.(epoch := 0) }

  // ----- transactions as functions -------------------------------------------------------

  function CreateWorkspace(t: Tables, id: string, scope: Scope, epoch: nat): Tables {
    if id in t.workspaces then t
    else t.(workspaces := t.workspaces[id := Workspace(scope, epoch, 1, None, false, false, false)])
  }

  /** The refusal of a reservation, if any, in the order the source tests. */
  function ReserveError(t: Tables, r: Request): Option<Error> {
    if r.workspace !in t.workspaces then Some(ErrNotFound)
    else
      var w := t.workspaces[r.workspace];
      if w.scope != r.scope then Some(ErrForbidden)
      else if w.epoch != r.epoch || w.adopting || w.released || w.stopped then Some(ErrFenced)
      else if r.operation in t.operations then
        if !SameBinding(t.operations[r.operation].request, r) then Some(ErrConflict) else None
      else if w.active.Some? then Some(ErrCapacity)
      else if w.revision != r.expectedRevision then Some(ErrConflict)
      else None
  }

  function FreshRow(r: Request, before: Tree, expectedAfter: Option<Tree>): Operation {
    Operation(r, Prepared, before, expectedAfter, None, 0, false, false, false, false)
  }

  function Reserve(t: Tables, r: Request, before: Tree, expectedAfter: Option<Tree>): Tables {
    if ReserveError(t, r).Some? || r.operation in t.operations then t
    else Tables(t.workspaces[r.workspace := t.workspaces[r.workspace].(active := Some(r.operation))],
                t.operations[r.operation := FreshRow(r, before, expectedAfter)])
  }

  function Update(t: Tables, id: string, row: Operation): Tables {
    t.(operations := t.operations[id := row])
  }

  function MarkRunning(t: Tables, id: string): Tables {
    if id in t.operations && t.operations[id].status == Prepared
    then Update(t, id, t.operations[id].(status := Running, dispatchStarted := true)) else t
  }

  function MarkUnknown(t: Tables, id: string): Tables {
    if id in t.operations && !t.operations[id].status.Terminal()
    then Update(t, id, t.operations[id].(status := Unknown)) else t
  }

  function RequestCancel(t: Tables, id: string): Tables {
    if id in t.operations && !t.operations[id].status.Terminal()
    then Update(t, id, t.operations[id].(cancelRequested := true)) else t
  }

  /** The compare-and-set that `BeforeStart` commits ahead of `docker start`. */
  predicate MayIntend(t: Tables, id: string) {
    id in t.operations && t.operations[id].status == Running && !t.operations[id].cancelRequested
  }

  function SetStartIntent(t: Tables, id: string): Tables {
    if MayIntend(t, id) then Update(t, id, t.operations[id].(startIntent := true)) else t
  }

  /** What a settled execution publishes. */
  datatype Settlement = Settlement(status: Status, after: Tree, afterRevision: nat, neverStarted: bool, receipt: string)

  function FinishError(t: Tables, id: string, s: Settlement): Option<Error> {
    if !s.status.Terminal() || s.receipt == "" then Some(ErrInvalid)
    else if id !in t.operations then Some(ErrNotFound)
    else if t.operations[id].status.Terminal() then None
    else
      var workspace := t.operations[id].request.workspace;
      if workspace !in t.workspaces then Some(ErrNotFound)
      else if t.workspaces[workspace].active != Some(id) then Some(ErrConflict)
      else if s.afterRevision < t.workspaces[workspace].revision then Some(ErrConflict)
      else None
  }

  function Finish(t: Tables, id: string, s: Settlement): Tables {
    if FinishError(t, id, s).Some? || t.operations[id].status.Terminal() then t
    else
      var row, workspace := t.operations[id], t.operations[id].request.workspace;
      Tables(t.workspaces[workspace := t.workspaces[workspace].(active := None, revision := s.afterRevision)],
             t.operations[id := row.(status := s.status, after := Some(s.after), afterRevision := s.afterRevision,
                                     neverStarted := s.neverStarted)])
  }

  function FenceError(t: Tables, id: string, scope: Scope, epoch: nat, stop: bool): Option<Error> {
    if id !in t.workspaces then Some(ErrNotFound)
    else if t.workspaces[id].scope != scope then Some(ErrForbidden)
    else if epoch < t.workspaces[id].epoch || t.workspaces[id].released || (t.workspaces[id].stopped && !stop) then Some(ErrFenced)
    else None
  }

  /** Committed before waiting for the old writer. */
  function SetFence(t: Tables, id: string, scope: Scope, epoch: nat, stop: bool): Tables {
    if FenceError(t, id, scope, epoch, stop).Some? then t
    else
      var w := t.workspaces[id];
      t.(workspaces := t.workspaces[id := w.(epoch := epoch, adopting := true, stopped := w.stopped || stop)])
  }

  predicate MayAdopt(t: Tables, id: string, epoch: nat) {
    id in t.workspaces
    && var w := t.workspaces[id]; w.epoch == epoch && w.active.None? && !w.stopped && !w.released
  }

  function CompleteAdoption(t: Tables, id: string, epoch: nat): Tables {
    if MayAdopt(t, id, epoch) then t.(workspaces := t.workspaces[id := t.workspaces[id].(adopting := false)]) else t
  }

  function ReleaseWorkspace(t: Tables, id: string, epoch: nat): Tables {
    if id in t.workspaces && t.workspaces[id].epoch == epoch && t.workspaces[id].active.None?
    then t.(workspaces := t.workspaces[id := t.workspaces[id].(released := true, adopting := true)]) else t
  }

  // ----- the same transactions on mutable tables ---------------------------------------------

  class JournalDb {
    var workspaces: map<string, Workspace>
    var operations: map<string, Operation>

    function State(): Tables reads this { Tables(workspaces, operations) }

    constructor ()
      ensures State() == Tables(map[], map[])
    {
      workspaces, operations := map[], map[];
    }

    method DoReserve(r: Request, before: Tree, expectedAfter: Option<Tree>) returns (result: Result<Operation>, created: bool)
      modifies this
      ensures State() == Reserve(old(State()), r, before, expectedAfter)
      ensures result.Failure? <==> ReserveError(old(State()), r).Some?
      ensures result.Failure? ==> result.error == ReserveError(old(State()), r).value
      ensures created <==> result.Success? && r.operation !in old(operations)
      ensures result.Success? ==> r.operation in operations && result.value == operations[r.operation]
    {
      created := false;
      if r.workspace !in workspaces {
        return Failure(ErrNotFound), false;
      }
      var w := workspaces[r.workspace];
      if w.scope != r.scope {
        return Failure(ErrForbidden), false;
      }
      if w.epoch != r.epoch || w.adopting || w.released || w.stopped {
        return Failure(ErrFenced), false;
      }
      if r.operation in operations {
        if !SameBinding(operations[r.operation].request, r) {
          return Failure(ErrConflict), false;
        }
        return Success(operations[r.operation]), false;
      }
      if w.active.Some? {
        return Failure(ErrCapacity), false;
      }
      if w.revision != r.expectedRevision {
        return Failure(ErrConflict), false;
      }
      var row := FreshRow(r, before, expectedAfter);
      operations := operations[r.operation := row];
      workspaces := workspaces[r.workspace := w.(active := Some(r.operation))];
      return Success(row), true;
    }

    method DoMarkRunning(id: string)
      modifies this
      ensures State() == MarkRunning(old(State()), id)
    {
      if id in operations && operations[id].status == Prepared {
        operations := operations[id := operations[id].(status := Running, dispatchStarted := true)];
      }
    }

    method DoMarkUnknown(id: string)
      modifies this
      ensures State() == MarkUnknown(old(State()), id)
    {
      if id in operations && (operations[id].status.Prepared? || operations[id].status.Running? || operations[id].status.Unknown?) {
        operations := operations[id := operations[id].(status := Unknown)];
      }
    }

    method DoRequestCancel(id: string)
      modifies this
      ensures State() == RequestCancel(old(State()), id)
    {
      if id in operations && (operations[id].status.Prepared? || operations[id].status.Running? || operations[id].status.Unknown?) {
        operations := operations[id := operations[id].(cancelRequested := true)];
      }
    }

    method DoSetStartIntent(id: string) returns (rows: nat)
      modifies this
      ensures State() == SetStartIntent(old(State()), id)
      ensures rows == 1 <==> MayIntend(old(State()), id)
    {
      rows := 0;
      if id in operations && operations[id].status == Running && !operations[id].cancelRequested {
        operations := operations[id := operations[id].(startIntent := true)];
        rows := 1;
      }
    }

    method DoFinish(id: string, s: Settlement) returns (result: Result<Operation>)
      modifies this
      ensures State() == Finish(old(State()), id, s)
      ensures result.Failure? <==> FinishError(old(State()), id, s).Some?
      ensures result.Failure? ==> result.error == FinishError(old(State()), id, s).value
      ensures result.Success? ==> id in operations && result.value == operations[id] && result.value.status.Terminal()
    {
      if !s.status.Terminal() || s.receipt == "" {
        return Failure(ErrInvalid);
      }
      if id !in operations {
        return Failure(ErrNotFound);
      }
      var row := operations[id];
      if row.status.Terminal() {
        return Success(row);
      }
      if row.request.workspace !in workspaces {
        return Failure(ErrNotFound);
      }
      var w := workspaces[row.request.workspace];
      if w.active != Some(id) {
        return Failure(ErrConflict);
      }
      if s.afterRevision < w.revision {
        return Failure(ErrConflict);
      }
      var settled := row.(status := s.status, after := Some(s.after), afterRevision := s.afterRevision,
                          neverStarted := s.neverStarted);
      operations := operations[id := settled];
      workspaces := workspaces[row.request.workspace := w.(active := None, revision := s.afterRevision)];
      return Success(settled);
    }

    method DoSetFence(id: string, scope: Scope, epoch: nat, stop: bool) returns (result: Result<Workspace>)
      modifies this
      ensures State() == SetFence(old(State()), id, scope, epoch, stop)
      ensures result.Failure? <==> FenceError(old(State()), id, scope, epoch, stop).Some?
      ensures result.Success? ==> id in workspaces && result.value == workspaces[id]
    {
      if id !in workspaces {
        return Failure(ErrNotFound);
      }
      var w := workspaces[id];
      if w.scope != scope {
        return Failure(ErrForbidden);
      }
      if epoch < w.epoch || w.released || (w.stopped && !stop) {
        return Failure(ErrFenced);
      }
      w := w.(epoch := epoch, adopting := true, stopped := w.stopped || stop);
      workspaces := workspaces[id := w];
      return Success(w);
    }

    method DoCompleteAdoption(id: string, epoch: nat) returns (result: Result<Workspace>)
      modifies this
      ensures State() == CompleteAdoption(old(State()), id, epoch)
      ensures result.Success? <==> MayAdopt(old(State()), id, epoch)
      ensures result.Failure? ==> result.error == ErrReconciliation
    {
      if id in workspaces {
        var w := workspaces[id];
        if w.epoch == epoch && w.active.None? && !w.stopped && !w.released {
          workspaces := workspaces[id := w.(adopting := false)];
          return Success(workspaces[id]);
        }
      }
      return Failure(ErrReconciliation);
    }
  }

  // ----- what every transaction keeps -------------------------------------------------------

  ghost predicate RowPlaced(t: Tables, id: string)
    requires id in t.operations
  {
    var row := t.operations[id];
    && row.request.operation == id && row.request.workspace in t.workspaces
    && (!row.status.Terminal() <==> t.workspaces[row.request.workspace].active == Some(id))
  }

  ghost predicate ActivePlaced(t: Tables, w: string)
    requires w in t.workspaces
  {
    var active := t.workspaces[w].active;
    active.Some? ==> active.value in t.operations && t.operations[active.value].request.workspace == w
  }

  /** A workspace's active operation is exactly its one non-terminal operation. */
  ghost predicate ActiveIsUnique(t: Tables) {
    && (forall id :: id in t.operations ==> RowPlaced(t, id))
    && (forall w :: w in t.workspaces ==> ActivePlaced(t, w))
  }

  ghost predicate RowExtends(a: Operation, b: Operation) {
    && b.request == a.request
    && (a.status.Terminal() ==> b == a)
    && (a.cancelRequested ==> b.cancelRequested && b.startIntent == a.startIntent)
    && (a.startIntent ==> b.startIntent)
  }

  ghost predicate WorkspaceExtends(a: Workspace, b: Workspace) {
    && b.scope == a.scope && a.epoch <= b.epoch && a.revision <= b.revision
    && (a.stopped ==> b.stopped) && (a.released ==> b.released)
  }

  /** Nothing durable is taken back: rows stay, requests and terminal rows are
      frozen, start intent is never set once a cancel request has committed, epochs
      and revisions grow, `stopped` and `released` never clear, and a row appears
      only under the epoch its workspace has by then reached. */
  ghost predicate Extends(t: Tables, u: Tables) {
    && (forall id :: id in t.operations ==> id in u.operations && RowExtends(t.operations[id], u.operations[id]))
    && (forall w :: w in t.workspaces ==> w in u.workspaces && WorkspaceExtends(t.workspaces[w], u.workspaces[w]))
    && (forall id :: id in u.operations && id !in t.operations && u.operations[id].request.workspace in t.workspaces ==>
          t.workspaces[u.operations[id].request.workspace].epoch <= u.operations[id].request.epoch)
  }

  lemma ExtendsTransitive(a: Tables, b: Tables, c: Tables)
    requires Extends(a, b) && Extends(b, c)
    ensures Extends(a, c)
  {}

  lemma ReserveOpen(t: Tables, r: Request)
    requires ReserveError(t, r).None? && r.operation !in t.operations
    ensures r.workspace in t.workspaces && t.workspaces[r.workspace].active.None? && t.workspaces[r.workspace].epoch == r.epoch
  {}

  lemma ReserveKeeps(t: Tables, r: Request, before: Tree, expectedAfter: Option<Tree>)
    requires ActiveIsUnique(t)
    ensures var u := Reserve(t, r, before, expectedAfter); ActiveIsUnique(u) && Extends(t, u)
  {
    hide ReserveError, ActiveIsUnique, Extends;
    if Reserve(t, r, before, expectedAfter) != t {
      ReserveOpen(t, r);
      ReserveActive(t, r, FreshRow(r, before, expectedAfter));
      ReserveExtends(t, r, FreshRow(r, before, expectedAfter));
    } else {
      ExtendsItself(t);
    }
  }

  lemma ExtendsItself(t: Tables)
    ensures Extends(t, t)
  {}

  /** The tables with a new active operation. */
  function Admit(t: Tables, r: Request, row: Operation): Tables
    requires r.workspace in t.workspaces
  {
    Tables(t.workspaces[r.workspace := t.workspaces[r.workspace].(active := Some(r.operation))], t.operations[r.operation := row])
  }

  lemma ReserveActive(t: Tables, r: Request, row: Operation)
    requires ActiveIsUnique(t) && r.operation !in t.operations && r.workspace in t.workspaces && t.workspaces[r.workspace].active.None?
    requires row.request == r && !row.status.Terminal()
    ensures ActiveIsUnique(Admit(t, r, row))
  {
    var u := Admit(t, r, row);
    forall id | id in u.operations ensures RowPlaced(u, id) {
      if id != r.operation {
        assert RowPlaced(t, id);
        assert t.operations[id].request.workspace == r.workspace ==> t.operations[id].status.Terminal();
      }
    }
    forall w | w in u.workspaces ensures ActivePlaced(u, w) {
      assert ActivePlaced(t, w);
    }
  }

  lemma ReserveExtends(t: Tables, r: Request, row: Operation)
    requires r.operation !in t.operations && r.workspace in t.workspaces && t.workspaces[r.workspace].epoch == r.epoch && row.request == r
    ensures Extends(t, Admit(t, r, row))
  {}

  lemma FinishKeeps(t: Tables, id: string, s: Settlement)
    requires ActiveIsUnique(t)
    ensures var u := Finish(t, id, s); ActiveIsUnique(u) && Extends(t, u)
  {
    var u := Finish(t, id, s);
    if u != t {
      var workspace := t.operations[id].request.workspace;
      assert RowPlaced(t, id);
      forall k | k in u.operations ensures RowPlaced(u, k) {
        assert RowPlaced(t, k);
      }
      forall w | w in u.workspaces ensures ActivePlaced(u, w) {
        assert ActivePlaced(t, w);
        if w != workspace && t.workspaces[w].active == Some(id) {
          assert false;
        }
      }
    }
  }

  /** Single-row updates that keep the request and do not settle. */
  lemma UpdateKeeps(t: Tables, id: string, row: Operation)
    requires ActiveIsUnique(t) && id in t.operations && !t.operations[id].status.Terminal()
    requires row.request == t.operations[id].request && !row.status.Terminal()
    requires t.operations[id].cancelRequested ==> row.cancelRequested && row.startIntent == t.operations[id].startIntent
    requires t.operations[id].startIntent ==> row.startIntent
    ensures var u := Update(t, id, row); ActiveIsUnique(u) && Extends(t, u)
  {}

  lemma FlagsKeep(t: Tables, id: string, w: Workspace)
    requires ActiveIsUnique(t) && id in t.workspaces
    requires w.scope == t.workspaces[id].scope && w.active == t.workspaces[id].active && w.revision == t.workspaces[id].revision
    requires t.workspaces[id].epoch <= w.epoch
    requires (t.workspaces[id].stopped ==> w.stopped) && (t.workspaces[id].released ==> w.released)
    ensures var u := t.(workspaces := t.workspaces[id := w]); ActiveIsUnique(u) && Extends(t, u)
  {}

  lemma CreateKeeps(t: Tables, id: string, scope: Scope, epoch: nat)
    requires ActiveIsUnique(t)
    ensures var u := CreateWorkspace(t, id, scope, epoch); ActiveIsUnique(u) && Extends(t, u)
  {}
}
