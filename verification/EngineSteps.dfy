/** Every step of the runner keeps the invariant and only extends the journal. */
module EngineSteps {
  import opened Domain
  import opened Patch
  import opened Journal
  import opened Engine
  import opened EngineInvariant

  ghost predicate Kept(w: World, v: World) { Inv(v) && Extends(w.tables, v.tables) }

  lemma KeptSame(w: World)
    requires Inv(w)
    ensures Kept(w, w)
  {}

  /** A step of the goroutine that holds the lock, leaving its operation live. */
  lemma HeldStep(w: World, v: World, workspace: string)
    requires Inv(w) && Held(w, workspace)
    requires OnlyTouches(w, v, workspace, w.holders[workspace].operation)
    requires RowStep(Row(w, workspace), v.tables.operations[w.holders[workspace].operation])
    requires workspace in v.holders ==>
      v.holders[workspace].operation == w.holders[workspace].operation && !v.holders[workspace].pc.Starting?
    requires workspace in w.tables.workspaces
    requires var id := w.holders[workspace].operation;
      Live(v.tables.operations[id], w.tables.workspaces[workspace].revision, LocalOf(v, id), PcAt(v, workspace), Seen(Files(v, workspace)))
    ensures Kept(w, v)
  {
    HeldFacts(w, workspace);
    hide Live, Inv, Extends, LocalOf, Files;
    assert LiveAt(v, workspace);
    LocalStep(w, v, workspace, w.holders[workspace].operation);
  }

  /** The holder moves on without touching anything else. */
  lemma GotoKept(w: World, workspace: string, pc: Pc)
    requires Inv(w) && Held(w, workspace) && !pc.Starting?
    requires PcOk(Row(w, workspace), LocalOf(w, w.holders[workspace].operation), pc, Seen(Files(w, workspace)))
    ensures Kept(w, Goto(w, workspace, pc))
  {
    hide Framed, Inv, Kept, Extends, Seen, PcOk, JobOk, TreeOk, PlanOk;
    HeldFacts(w, workspace);
    HeldStep(w, Goto(w, workspace, pc), workspace);
  }

  /** The holder gives up, recording that the outcome is unknown or not even that. */
  lemma DropKept(w: World, workspace: string, mark: bool)
    requires Inv(w) && Held(w, workspace)
    ensures Kept(w, Dropped(w, workspace, mark))
  {
    hide Framed, Inv, Kept, Extends, Seen, PcOk, JobOk, TreeOk, PlanOk;
    HeldFacts(w, workspace);
    var v, id := Dropped(w, workspace, mark), w.holders[workspace].operation;
    DropTouches(w, workspace, mark);
    DropLive(Row(w, workspace), w.tables.workspaces[workspace].revision, LocalOf(w, id), PcAt(w, workspace), Seen(Files(w, workspace)));
    hide LocalOf, Files, Live, OnlyTouches, Dropped;
    HeldStep(w, v, workspace);
  }

  lemma DropTouches(w: World, workspace: string, mark: bool)
    requires Held(w, workspace) && !Row(w, workspace).status.Terminal()
    ensures var v, id := Dropped(w, workspace, mark), w.holders[workspace].operation;
      && OnlyTouches(w, v, workspace, id) && LocalOf(v, id) == LocalOf(w, id) && workspace !in v.holders
      && Files(v, workspace) == Files(w, workspace)
      && v.tables.operations[id] == if mark then Row(w, workspace).(status := Unknown) else Row(w, workspace)
  {}

  lemma DropLive(row: Operation, revision: nat, l: Local, pc: Option<Pc>, tree: Tree)
    requires Live(row, revision, l, pc, tree)
    ensures Live(row, revision, l, None, tree) && Live(row.(status := Unknown), revision, l, None, tree)
  {}

  function Dropped(w: World, workspace: string, mark: bool): World
    requires Held(w, workspace)
  {
    Unlock(if mark then w.(tables := MarkUnknown(w.tables, w.holders[workspace].operation)) else w, workspace)
  }

  lemma MarkKept(w: World, workspace: string)
    requires Inv(w)
    ensures Kept(w, DoMark(w, workspace))
  {
    hide Framed, Inv, Kept, Extends, Seen;
    var v := DoMark(w, workspace);
    if v != w {
      HeldFacts(w, workspace);
      HeldStep(w, v, workspace);
    } else {
      KeptSame(w);
    }
  }

  lemma CheckCancelKept(w: World, workspace: string)
    requires Inv(w)
    ensures Kept(w, DoCheckCancel(w, workspace))
  {
    hide Framed, Inv, Kept, Extends, Seen;
    var v := DoCheckCancel(w, workspace);
    if v != w {
      HeldFacts(w, workspace);
      GotoKept(w, workspace, v.holders[workspace].pc);
    } else {
      KeptSame(w);
    }
  }

  lemma StartToolKept(w: World, workspace: string, ok: bool)
    requires Inv(w)
    ensures Kept(w, DoStartTool(w, workspace, ok))
  {
    hide Framed, Inv, Kept, Extends, Seen, Live;
    if Held(w, workspace) && w.holders[workspace].pc.Cleared? {
      HeldFacts(w, workspace);
      var v, id := DoStartTool(w, workspace, ok), w.holders[workspace].operation;
      BodyLive(Row(w, workspace), w.tables.workspaces[workspace].revision, LocalOf(w, id), v.holders[workspace].pc, Seen(Files(w, workspace)));
      HeldStep(w, v, workspace);
    } else {
      KeptSame(w);
    }
  }

  lemma BodyLive(row: Operation, revision: nat, l: Local, pc: Pc, tree: Tree)
    requires Live(row, revision, l, Some(Cleared), tree)
    requires if row.request.kind == ApplyPatch then pc == Applying else pc.Completing? && pc.status.Terminal() && !pc.never
    ensures Live(row, revision, l.(bodies := l.bodies + 1), Some(pc), tree)
  {
    hide ApplyAll, VisibleEdits;
  }

  lemma RejectArgsKept(w: World, workspace: string)
    requires Inv(w)
    ensures Kept(w, DoRejectArgs(w, workspace))
  {
    hide Framed, Inv, Kept, Extends, Seen;
    var v := DoRejectArgs(w, workspace);
    if v != w {
      HeldFacts(w, workspace);
      GotoKept(w, workspace, v.holders[workspace].pc);
    } else {
      KeptSame(w);
    }
  }

  lemma LaunchKept(w: World, workspace: string)
    requires Inv(w)
    ensures Kept(w, DoLaunch(w, workspace))
  {
    hide Framed, Inv, Kept, Extends, Seen;
    var v := DoLaunch(w, workspace);
    if v != w {
      HeldFacts(w, workspace);
      HeldStep(w, v, workspace);
    } else {
      KeptSame(w);
    }
  }

  lemma IntendKept(w: World, workspace: string)
    requires Inv(w)
    ensures Kept(w, DoIntend(w, workspace))
  {
    hide Framed, Inv, Kept, Extends, Seen;
    var v := DoIntend(w, workspace);
    if v != w {
      HeldFacts(w, workspace);
      HeldStep(w, v, workspace);
    } else {
      KeptSame(w);
    }
  }

  lemma SendKept(w: World, workspace: string)
    requires Inv(w)
    ensures Kept(w, DoSend(w, workspace))
  {
    hide Framed, Inv, Kept, Extends, Seen;
    var v := DoSend(w, workspace);
    if v != w {
      HeldFacts(w, workspace);
      HeldStep(w, v, workspace);
    } else {
      KeptSame(w);
    }
  }

  lemma CollectKept(w: World, workspace: string, exitCode: int, interrupted: bool)
    requires Inv(w)
    ensures Kept(w, DoCollect(w, workspace, exitCode, interrupted))
  {
    hide Framed, Inv, Kept, Extends, Seen;
    var v := DoCollect(w, workspace, exitCode, interrupted);
    if v != w {
      HeldFacts(w, workspace);
      GotoKept(w, workspace, v.holders[workspace].pc);
    } else {
      KeptSame(w);
    }
  }

  lemma KillKept(w: World, workspace: string)
    requires Inv(w)
    ensures Kept(w, DoKill(w, workspace))
  {
    hide Framed, Inv, Kept, Extends, Seen;
    var v := DoKill(w, workspace);
    if v != w {
      HeldFacts(w, workspace);
      HeldStep(w, v, workspace);
    } else {
      KeptSame(w);
    }
  }

  lemma EndEditsKept(w: World, workspace: string, ok: bool)
    requires Inv(w)
    ensures Kept(w, DoEndEdits(w, workspace, ok))
  {
    hide Framed, Inv, Kept, Extends, Seen;
    var v := DoEndEdits(w, workspace, ok);
    if v != w {
      HeldFacts(w, workspace);
      GotoKept(w, workspace, v.holders[workspace].pc);
    } else {
      KeptSame(w);
    }
  }

  lemma ReadBackKept(w: World, workspace: string)
    requires Inv(w)
    ensures Kept(w, DoReadBack(w, workspace))
  {
    hide Framed, Inv, Kept, Extends, Seen;
    var v := DoReadBack(w, workspace);
    if v != w {
      HeldFacts(w, workspace);
      GotoKept(w, workspace, v.holders[workspace].pc);
    } else {
      KeptSame(w);
    }
  }

  lemma SettleNeverKept(w: World, workspace: string)
    requires Inv(w)
    ensures Kept(w, DoSettleNever(w, workspace))
  {
    hide Framed, Inv, Kept, Extends, Seen;
    var v := DoSettleNever(w, workspace);
    if v != w {
      HeldFacts(w, workspace);
      GotoKept(w, workspace, v.holders[workspace].pc);
    } else {
      KeptSame(w);
    }
  }

  lemma RemoveNeverKept(w: World, workspace: string)
    requires Inv(w)
    ensures Kept(w, DoRemoveNever(w, workspace))
  {
    hide Framed, Inv, Kept, Extends, Seen;
    var v := DoRemoveNever(w, workspace);
    if v != w {
      HeldFacts(w, workspace);
      HeldStep(w, v, workspace);
    } else {
      KeptSame(w);
    }
  }

  lemma SettleTreeKept(w: World, workspace: string)
    requires Inv(w)
    ensures Kept(w, DoSettleTree(w, workspace))
  {
    hide Framed, Inv, Kept, Extends, Seen, ApplyAll, VisibleEdits;
    if !Held(w, workspace) || !w.holders[workspace].pc.Reconciling? || Row(w, workspace).request.kind == Process
       || MaySettleNever(Row(w, workspace), w.holders[workspace].pc.cancelJob) {
      KeptSame(w);
      return;
    }
    HeldFacts(w, workspace);
    var row, seen := Row(w, workspace), Seen(Files(w, workspace));
    if row.request.kind == ApplyPatch && row.expectedAfter == Some(seen) {
      GotoKept(w, workspace, Completing(Succeeded, false));
    } else if seen == row.before {
      GotoKept(w, workspace, Completing(Failed, false));
    } else {
      DropKept(w, workspace, true);
    }
  }

  lemma EditLive(row: Operation, revision: nat, l: Local, tree: Tree, next: Tree)
    requires Live(row, revision, l, Some(Applying), tree) && l.edited < |row.request.edits|
    requires next == ApplyAll(VisibleEdits(row.request.edits[..l.edited + 1]), row.before)
    ensures Live(row, revision, l.(edited := l.edited + 1), Some(Applying), next)
  {
    hide ApplyAll, VisibleEdits;
  }

  lemma EditFileKept(w: World, workspace: string)
    requires Inv(w)
    ensures Kept(w, DoEditFile(w, workspace))
  {
    hide Framed, Inv, Kept, Extends, Seen, ApplyAll, VisibleEdits, Apply;
    var v := DoEditFile(w, workspace);
    if !Held(w, workspace) || !w.holders[workspace].pc.Applying?
       || LocalOf(w, w.holders[workspace].operation).edited >= |Row(w, workspace).request.edits| {
      KeptSame(w);
      return;
    }
    HeldFacts(w, workspace);
    var id, row := w.holders[workspace].operation, Row(w, workspace);
    var l := LocalOf(w, id);
    SeenStep(Files(w, workspace), row.request.edits, l.edited, row.before);
    EditLive(row, w.tables.workspaces[workspace].revision, l, Seen(Files(w, workspace)), Seen(Files(v, workspace)));
    assert OnlyTouches(w, v, workspace, id);
    assert LocalOf(v, id) == l.(edited := l.edited + 1);
    hide Live, LocalOf, Files;
    HeldStep(w, v, workspace);
  }
}
