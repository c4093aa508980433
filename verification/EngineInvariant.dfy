/** What every reachable world of the runner satisfies. */
module EngineInvariant {
  import opened Domain
  import opened Patch
  import opened Journal
  import opened Engine

  /** A settlement about to be published. */
  ghost predicate CompleteOk(row: Operation, l: Local, status: Status, never: bool, tree: Tree) {
    && status.Terminal() && !l.sent && (l.container.Some? ==> !l.container.value.running)
    && (never ==> l.bodies == 0 && !row.startIntent)
    && (row.request.kind == ApplyPatch && status == Succeeded ==>
          l.edited == |row.request.edits| || row.expectedAfter == Some(tree))
  }

  ghost predicate PcOk(row: Operation, l: Local, pc: Pc, tree: Tree) {
    match pc
    case Starting(_, _, _) => false
    case Reserved => row.status == Prepared && !row.dispatchStarted
    case Marked => row.status == Running && row.dispatchStarted && l.bodies == 0 && !l.sent && l.container.None? && !row.startIntent
    case Cleared =>
      row.request.kind != Process && row.status == Running && row.dispatchStarted && l.bodies == 0 && !l.sent
      && l.container.None? && !row.startIntent
    case Launching =>
      row.request.kind == Process && row.status == Running && row.dispatchStarted && l.bodies == 0 && !l.sent
      && l.container.None? && !row.startIntent
    case Created =>
      row.request.kind == Process && row.dispatchStarted && l.bodies == 0 && !l.sent && !row.startIntent
      && l.container == Some(Container(false, false))
    case Intended =>
      row.request.kind == Process && row.dispatchStarted && l.bodies == 0 && !l.sent && row.startIntent
      && l.container == Some(Container(false, false))
    case Waiting => row.request.kind == Process && row.dispatchStarted && row.startIntent
    case Applying => row.request.kind == ApplyPatch && row.dispatchStarted && l.bodies == 1
    case Completing(status, never) => CompleteOk(row, l, status, never, tree)
    case Finishing(status, never, seen) => CompleteOk(row, l, status, never, tree) && seen == tree
    case Reconciling(_) => true
  }

  /** How the directory relates to the row, by kind. */
  ghost predicate TreeOk(row: Operation, l: Local, tree: Tree) {
    match row.request.kind
    case ReadOnly => tree == row.before && l.edited == 0
    case Process => (l.bodies == 0 ==> tree == row.before) && l.edited == 0
    case ApplyPatch =>
      && l.edited <= |row.request.edits| && (l.bodies == 0 ==> l.edited == 0)
      && tree == ApplyAll(VisibleEdits(row.request.edits[..l.edited]), row.before)
  }

  ghost predicate JobOk(row: Operation, l: Local) {
    && l.bodies <= 1
    && (!row.dispatchStarted ==> l.bodies == 0 && !l.sent && l.container.None? && !row.startIntent)
    && (l.sent ==> l.bodies == 0 && row.startIntent && l.container == Some(Container(false, false)))
    && (row.request.kind != Process ==> l.container.None? && !row.startIntent)
    && (row.request.kind == Process ==> (l.bodies == 1 <==> l.container.Some? && l.container.value.started))
    && (row.request.kind == Process && !row.startIntent ==> l.bodies == 0)
    && (l.container.Some? && l.container.value.running ==> l.container.value.started)
  }

  ghost predicate PlanOk(row: Operation) {
    row.request.kind == ApplyPatch ==> row.expectedAfter == Some(ApplyAll(row.request.edits, row.before))
  }

  ghost predicate Live(row: Operation, revision: nat, l: Local, pc: Option<Pc>, tree: Tree) {
    && row.request.expectedRevision == revision
    && PlanOk(row) && JobOk(row, l) && TreeOk(row, l, tree)
    && (pc.Some? ==> PcOk(row, l, pc.value, tree))
  }

  /** What a terminal row says, for good. */
  ghost predicate Settled(row: Operation, l: Local) {
    && !l.sent && (l.container.Some? ==> !l.container.value.running) && l.bodies <= 1
    && (row.neverStarted ==> l.bodies == 0 && !row.startIntent)
    && (row.request.kind == Process && !row.startIntent ==> l.bodies == 0)
    && PlanOk(row) && row.after.Some?
    && row.afterRevision == row.request.expectedRevision + (if row.after.value != row.before then 1 else 0)
    && (row.request.kind == ReadOnly ==> row.after.value == row.before)
    && (row.request.kind == ApplyPatch ==>
          || row.after.value == row.before || row.after == row.expectedAfter
          || (row.status == Succeeded && row.after.value == ApplyAll(VisibleEdits(row.request.edits), row.before)))
  }

  ghost predicate SettledAt(w: World, id: string)
    requires id in w.tables.operations
  {
    Settled(w.tables.operations[id], LocalOf(w, id))
  }

  function PcAt(w: World, workspace: string): Option<Pc> {
    if workspace in w.holders && !w.holders[workspace].pc.Starting? then Some(w.holders[workspace].pc) else None
  }

  ghost predicate LiveAt(w: World, workspace: string)
    requires workspace in w.tables.workspaces && w.tables.workspaces[workspace].active.Some?
  {
    var id := w.tables.workspaces[workspace].active.value;
    id in w.tables.operations
    && Live(w.tables.operations[id], w.tables.workspaces[workspace].revision, LocalOf(w, id), PcAt(w, workspace),
            Seen(Files(w, workspace)))
  }

  /** A locked workspace serves its active operation, or is about to reserve one
      whose before-tree is what the directory still shows. */
  ghost predicate HolderAt(w: World, workspace: string)
    requires workspace in w.holders
  {
    var h := w.holders[workspace];
    match h.pc
    case Starting(r, before, expectedAfter) =>
      && r.workspace == workspace && h.operation == r.operation
      && (r.kind == ApplyPatch ==> expectedAfter == Some(ApplyAll(r.edits, before)))
      && (workspace in w.tables.workspaces && w.tables.workspaces[workspace].active.None? ==> Seen(Files(w, workspace)) == before)
    case _ => workspace in w.tables.workspaces && w.tables.workspaces[workspace].active == Some(h.operation)
  }

  /** Settled operations of one workspace, in order: each starts at the revision the
      previous one left, beginning at revision one. */
  ghost predicate Chained(h: seq<string>, ops: map<string, Operation>, workspace: string, revision: nat) {
    && (forall i :: 0 <= i < |h| ==> h[i] in ops && ops[h[i]].request.workspace == workspace && ops[h[i]].status.Terminal())
    && (forall i :: 0 <= i < |h| ==> ops[h[i]].request.expectedRevision == RevisionAt(h, ops, i))
    && revision == RevisionAt(h, ops, |h|)
    && (forall i, j :: 0 <= i < j < |h| ==> h[i] != h[j])
  }

  /** The revision after the first `n` settled operations. */
  ghost function RevisionAt(h: seq<string>, ops: map<string, Operation>, n: nat): nat {
    if 0 < n <= |h| && h[n - 1] in ops then ops[h[n - 1]].afterRevision else 1
  }

  ghost predicate ChainAt(w: World, workspace: string)
    requires workspace in w.tables.workspaces
  {
    Chained(History(w, workspace), w.tables.operations, workspace, w.tables.workspaces[workspace].revision)
  }

  ghost predicate Listed(w: World, id: string)
    requires id in w.tables.operations
  {
    id in History(w, w.tables.operations[id].request.workspace)
  }

  const NOTHING := Local(0, false, None, 0)

  ghost predicate Inv(w: World) {
    && ActiveIsUnique(w.tables)
    && (forall id :: id !in w.tables.operations ==> LocalOf(w, id) == NOTHING)
    && (forall id :: id in w.tables.operations && w.tables.operations[id].status.Terminal() ==> SettledAt(w, id) && Listed(w, id))
    && (forall k :: k in w.tables.workspaces && w.tables.workspaces[k].active.Some? ==> LiveAt(w, k))
    && (forall k :: k in w.tables.workspaces ==> ChainAt(w, k))
    && (forall k :: k in w.holders ==> HolderAt(w, k))
    && (forall k :: k !in w.tables.workspaces ==> History(w, k) == [])
  }

  lemma InitInv()
    ensures Inv(INIT)
  {}

  // ----- steps that touch one active operation ---------------------------------------------

  /** `v` differs from `w` only in operation `id` of `workspace`, its lock and files. */
  ghost predicate OnlyTouches(w: World, v: World, workspace: string, id: string) {
    && id in w.tables.operations && id in v.tables.operations
    && v.tables == Update(w.tables, id, v.tables.operations[id])
    && v.finished == w.finished
    && (forall k :: k != id ==> LocalOf(v, k) == LocalOf(w, k))
    && (forall k :: k != workspace ==> Files(v, k) == Files(w, k))
    && (forall k :: k != workspace ==> (k in v.holders <==> k in w.holders))
    && (forall k :: k != workspace && k in w.holders ==> v.holders[k] == w.holders[k])
  }

  /** Row changes an executor or a cancel request may commit. */
  ghost predicate RowStep(a: Operation, b: Operation) {
    && b.request == a.request && !b.status.Terminal()
    && (a.cancelRequested ==> b.cancelRequested && b.startIntent == a.startIntent) && (a.startIntent ==> b.startIntent)
  }

  lemma LocalSettled(w: World, v: World, workspace: string, id: string, k: string)
    requires OnlyTouches(w, v, workspace, id) && k != id && k in w.tables.operations
    requires SettledAt(w, k) && Listed(w, k)
    ensures k in v.tables.operations && SettledAt(v, k) && Listed(v, k)
  {
    hide Settled, LocalOf;
    assert History(v, w.tables.operations[k].request.workspace) == History(w, w.tables.operations[k].request.workspace);
  }

  lemma LocalOther(w: World, v: World, workspace: string, id: string, k: string)
    requires OnlyTouches(w, v, workspace, id) && k != workspace && k in w.tables.workspaces
    requires w.tables.workspaces[k].active.Some? && w.tables.workspaces[k].active != Some(id) && LiveAt(w, k)
    ensures LiveAt(v, k)
  {
    hide Live, LocalOf, Files;
    assert PcAt(v, k) == PcAt(w, k);
  }

  lemma LocalChain(w: World, v: World, workspace: string, id: string, k: string)
    requires OnlyTouches(w, v, workspace, id) && k in w.tables.workspaces && ChainAt(w, k)
    requires !w.tables.operations[id].status.Terminal()
    ensures ChainAt(v, k)
  {
    hide LocalOf, Files, Chained;
    ChainSame(History(w, k), w.tables.operations, v.tables.operations, k, w.tables.workspaces[k].revision, id);
  }

  /** Changing a non-terminal row does not touch the chain. */
  lemma ChainSame(h: seq<string>, a: map<string, Operation>, b: map<string, Operation>, workspace: string, revision: nat, id: string)
    requires Chained(h, a, workspace, revision) && (id in a ==> !a[id].status.Terminal())
    requires forall k :: k in a && k != id ==> k in b && b[k] == a[k]
    ensures Chained(h, b, workspace, revision)
  {
    assert forall i :: 0 <= i < |h| ==> h[i] in b && b[h[i]] == a[h[i]];
    assert forall n: nat :: n <= |h| ==> RevisionAt(h, b, n) == RevisionAt(h, a, n);
  }

  lemma LocalHolder(w: World, v: World, workspace: string, id: string, k: string)
    requires OnlyTouches(w, v, workspace, id) && k != workspace && k in w.holders && HolderAt(w, k)
    ensures k in v.holders && HolderAt(v, k)
  {
    hide LocalOf, Files;
  }

  lemma LocalTables(w: World, v: World, workspace: string, id: string)
    requires ActiveIsUnique(w.tables) && workspace in w.tables.workspaces && w.tables.workspaces[workspace].active == Some(id)
    requires OnlyTouches(w, v, workspace, id) && RowStep(w.tables.operations[id], v.tables.operations[id])
    ensures ActiveIsUnique(v.tables) && Extends(w.tables, v.tables) && !w.tables.operations[id].status.Terminal()
    ensures forall k :: History(v, k) == History(w, k)
  {
    hide LocalOf, Files;
    assert ActivePlaced(w.tables, workspace) && RowPlaced(w.tables, id);
    UpdateKeeps(w.tables, id, v.tables.operations[id]);
  }

  lemma LocalStep(w: World, v: World, workspace: string, id: string)
    requires Inv(w) && workspace in w.tables.workspaces && w.tables.workspaces[workspace].active == Some(id)
    requires OnlyTouches(w, v, workspace, id) && RowStep(w.tables.operations[id], v.tables.operations[id])
    requires LiveAt(v, workspace)
    requires workspace in v.holders ==> HolderAt(v, workspace)
    ensures Inv(v) && Extends(w.tables, v.tables)
  {
    hide LiveAt, SettledAt, ChainAt, HolderAt, Listed, History, LocalOf, ActiveIsUnique, Extends, Files;
    LocalTables(w, v, workspace, id);
    assert v.tables.workspaces == w.tables.workspaces && v.tables.operations.Keys == w.tables.operations.Keys;
    forall k | k in v.tables.operations && v.tables.operations[k].status.Terminal() ensures SettledAt(v, k) && Listed(v, k) {
      LocalSettled(w, v, workspace, id, k);
    }
    forall k | k in v.tables.workspaces && v.tables.workspaces[k].active.Some? ensures LiveAt(v, k) {
      if k != workspace {
        OtherActive(w.tables, workspace, id, k);
        LocalOther(w, v, workspace, id, k);
      }
    }
    forall k | k in v.tables.workspaces ensures ChainAt(v, k) {
      LocalChain(w, v, workspace, id, k);
    }
    forall k | k in v.holders ensures HolderAt(v, k) {
      if k != workspace {
        LocalHolder(w, v, workspace, id, k);
      }
    }
  }

  lemma OtherActive(t: Tables, workspace: string, id: string, other: string)
    requires ActiveIsUnique(t) && workspace in t.workspaces && other in t.workspaces && other != workspace
    requires t.workspaces[workspace].active == Some(id)
    ensures t.workspaces[other].active != Some(id)
  {
    assert ActivePlaced(t, workspace) && ActivePlaced(t, other);
  }

  /** The facts an executor or reconciler step starts from. */
  lemma HeldFacts(w: World, workspace: string)
    requires Inv(w) && Held(w, workspace)
    ensures workspace in w.tables.workspaces && w.tables.workspaces[workspace].active == Some(w.holders[workspace].operation)
    ensures LiveAt(w, workspace) && PcAt(w, workspace) == Some(w.holders[workspace].pc)
    ensures !Row(w, workspace).status.Terminal() && Row(w, workspace).request.workspace == workspace
  {
    assert HolderAt(w, workspace);
    assert RowPlaced(w.tables, w.holders[workspace].operation);
    assert ActivePlaced(w.tables, workspace);
  }

}
