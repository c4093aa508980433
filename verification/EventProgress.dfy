/** What delivery achieves, beside what it never does wrong: which subscriber gets an
    event, which join succeeds, and that a client which is served reaches the end of the
    log (internal/eventstream/hub.go, internal/httpapi/sse.go, cmd/forge/watch.go). */
module EventProgress {
  import opened Domain
  import opened EventStream
  import opened EventDelivery

  // ----- one step of the hub -----------------------------------------------------------------------

  /** What a subscriber is after entry `position` of the log was offered to it. */
  ghost predicate Served(s: Sub, t: Sub, log: seq<Event>, position: nat, queueSize: nat)
    requires 1 <= position <= |log|
  {
    if s.closed || position <= s.after then t == s
    else if |s.queue| < queueSize then t == Sub(position, s.queue + [log[position - 1]], false)
    else t == Sub(s.after, s.queue, true)
  }

  /** Delivering one fetched event moves the hub to the next log entry, keeps the newest
      of its history, hands the entry to every open subscriber that lacks it and has room,
      and closes only those that are full. */
  lemma DeliverServes(cfg: Config, start: nat, steps: seq<Step>, g: nat)
    requires var w := Reached(cfg, start, steps); g < |w.hubs| && !w.hubs[g].retired && Pending(w, g) != []
    ensures var w := Reached(cfg, start, steps); var a, v := w.hubs[g], Do(w, Deliver(g)); var b := v.hubs[g];
      && a.cursor < |w.log| && b.cursor == a.cursor + 1 && !b.retired && Pending(v, g) == Pending(w, g)[1..]
      && EndsAt(b.history, b.cursor, w.log) && |b.history| == (if |a.history| < w.cfg.historySize then |a.history| + 1 else w.cfg.historySize)
      && b.subs.Keys == a.subs.Keys
      && forall k :: k in a.subs ==> Served(a.subs[k], b.subs[k], w.log, b.cursor, w.cfg.queueSize)
  {
    hide Exec;
    var w := Reached(cfg, start, steps);
    ReachedInv(cfg, start, steps);
    HistoryBounded(cfg, start, steps, g);
    assert HubOk(w.hubs[g], Pending(w, g), w.log);
    PublishHub(w.hubs[g], Pending(w, g), w.cfg, w.log);
    assert Pending(w, g)[0] == w.log[w.hubs[g].cursor];
    hide Inv;
  }

  lemma {:induction false} HistoryBounded(cfg: Config, start: nat, steps: seq<Step>, g: nat)
    ensures var w := Reached(cfg, start, steps); w.cfg == cfg && (g < |w.hubs| ==> |w.hubs[g].history| <= cfg.historySize)
  {
    if steps != [] {
      var rest := steps[..|steps| - 1];
      HistoryBounded(cfg, start, rest, g);
      HistoryKept(Exec(Init(cfg, start), rest), steps[|steps| - 1], g);
    }
  }

  lemma HistoryKept(w: World, step: Step, g: nat)
    requires g < |w.hubs| ==> |w.hubs[g].history| <= w.cfg.historySize
    ensures var v := Do(w, step); v.cfg == w.cfg && (g < |v.hubs| ==> |v.hubs[g].history| <= w.cfg.historySize)
  {
    hide Offer, Join, Page;
  }

  /** A poll of a hub with nothing pending reads the next `limit` entries, or retires the
      hub exactly when its position was trimmed. */
  lemma FetchReads(cfg: Config, start: nat, steps: seq<Step>, g: nat, limit: nat)
    requires var w := Reached(cfg, start, steps); g < |w.hubs| && !w.hubs[g].retired && Pending(w, g) == []
    ensures var w := Reached(cfg, start, steps); var c, v := w.hubs[g].cursor, Do(w, Fetch(g, limit));
      && c <= |w.log| && (v.hubs[g].retired <==> c + 1 < w.retained)
      && (!v.hubs[g].retired ==> Pending(v, g) == w.log[c..if c + limit < |w.log| then c + limit else |w.log|])
  {
    hide Exec;
    ReachedInv(cfg, start, steps);
    assert HubOk(Reached(cfg, start, steps).hubs[g], Pending(Reached(cfg, start, steps), g), Reached(cfg, start, steps).log);
    hide Inv;
  }

  /** A join on a shared hub succeeds exactly when the events its handler would miss are
      still in the history and fit into one queue. */
  lemma JoinSucceedsIff(hub: Hub, pending: seq<Event>, covered: nat, cfg: Config, log: seq<Event>)
    requires Numbered(log) && HubOk(hub, pending, log) && covered <= |log|
    ensures Join(hub, covered, cfg).Some?
      <==> hub.cursor <= covered || (hub.cursor - |hub.history| <= covered && hub.cursor - covered <= cfg.queueSize)
  {
    hide Catchup;
    if hub.history != [] {
      assert hub.history[0] == log[hub.cursor - |hub.history|];
    }
    if hub.cursor - |hub.history| <= covered {
      CatchupFits(hub.history, hub.cursor, covered, cfg.queueSize, log);
    }
  }

  lemma {:induction false} CatchupFits(history: seq<Event>, end: nat, covered: nat, cap: nat, log: seq<Event>)
    requires Numbered(log) && EndsAt(history, end, log) && end - |history| <= covered <= |log|
    ensures Catchup(history, covered, cap).Some? <==> end <= covered || end - covered <= cap
  {
    if history != [] {
      var n := |history| - 1;
      assert history[..n] == log[end - |history|..end - 1];
      assert history[n] == log[end - 1];
      CatchupFits(history[..n], end - 1, covered, cap, log);
      if Catchup(history[..n], covered, cap).Some? {
        CatchupIs(history[..n], end - 1, covered, cap, log);
      }
    }
  }

  // ----- schedules ---------------------------------------------------------------------------------------

  ghost function Repeat(round: seq<Step>, n: nat): seq<Step> {
    if n == 0 then [] else round + Repeat(round, n - 1)
  }

  lemma {:induction false} ExecAppend(w: World, a: seq<Step>, b: seq<Step>)
    ensures Exec(w, a + b) == Exec(Exec(w, a), b)
    decreases |b|
  {
    hide Do;
    if b == [] {
      assert a + b == a;
    } else {
      assert (a + b)[..|a + b| - 1] == a + b[..|b| - 1];
      ExecAppend(w, a, b[..|b| - 1]);
    }
  }

  lemma ExecOne(w: World, a: Step)
    ensures Exec(w, [a]) == Do(w, a)
  {
    hide Do;
    assert Exec(w, [a][..0]) == w;
  }

  lemma ExecTwo(w: World, a: Step, b: Step)
    ensures Exec(w, [a, b]) == Do(Do(w, a), b)
  {
    hide Do;
    assert [a, b][..1] == [a] && [a][..0] == [];
    ExecOne(w, a);
  }

  lemma ExecThree(w: World, a: Step, b: Step, c: Step)
    ensures Exec(w, [a, b, c]) == Do(Do(Do(w, a), b), c)
  {
    hide Do;
    assert [a, b, c][..2] == [a, b];
    ExecTwo(w, a, b);
  }

  lemma ExecRepeat(w: World, round: seq<Step>, n: nat)
    requires n > 0
    ensures Exec(w, Repeat(round, n)) == Exec(Exec(w, round), Repeat(round, n - 1))
  {
    hide Exec;
    ExecAppend(w, round, Repeat(round, n - 1));
  }

  /** The handler has written a finishing event and ended. */
  ghost predicate WroteEnd(h: Handler) { h.phase.Done? && h.out != [] && h.out[|h.out| - 1].finished }

  // ----- replay ------------------------------------------------------------------------------------------

  ghost predicate CanReplay(w: World, i: nat) {
    && i < |w.handlers| && w.handlers[i].phase == Replaying([]) && w.handlers[i].after <= w.handlers[i].covered
    && w.retained <= w.handlers[i].after + 1
  }

  lemma ReplayRound(w: World, i: nat)
    requires Inv(w) && CanReplay(w, i) && w.handlers[i].after < w.handlers[i].covered
    ensures var h, v := w.handlers[i], Do(Do(w, ReadPage(i, 1)), Replay(i));
      && h.after < |w.log|
      && v == SetHandler(w, i, h.(out := h.out + [w.log[h.after]], after := h.after + 1,
                                  phase := if w.log[h.after].finished then Done else Replaying([])))
  {
    HandlerFacts(w, i);
    hide Inv, Joined;
    var h := w.handlers[i];
    var e := w.log[h.after];
    assert w.log[h.after..h.after + 1] == [e];
    var u := SetHandler(w, i, h.(phase := Replaying([e])));
    assert Do(w, ReadPage(i, 1)) == u;
    assert [e][1..] == [];
  }

  /** Reading a page and writing it, as often as needed, ends the replay at the covered
      position or with a finishing event. */
  lemma {:induction false} ReplayReaches(w: World, i: nat, n: nat)
    requires Inv(w) && CanReplay(w, i) && n == w.handlers[i].covered - w.handlers[i].after
    ensures var v, h := Exec(w, Repeat([ReadPage(i, 1), Replay(i)], n)), w.handlers[i];
      && |v.handlers| == |w.handlers| && v == SetHandler(w, i, v.handlers[i])
      && v.handlers[i] == h.(out := v.handlers[i].out, after := v.handlers[i].after, phase := v.handlers[i].phase)
      && ((v.handlers[i].phase == Replaying([]) && v.handlers[i].after == h.covered) || WroteEnd(v.handlers[i]))
    decreases n
  {
    hide Inv, Do, Exec;
    var round := [ReadPage(i, 1), Replay(i)];
    if n == 0 {
      NothingDone(w);
      assert w.handlers[i := w.handlers[i]] == w.handlers;
    } else {
      var u := Do(Do(w, ReadPage(i, 1)), Replay(i));
      ExecRepeat(w, round, n);
      ExecTwo(w, ReadPage(i, 1), Replay(i));
      DoInv(w, ReadPage(i, 1));
      DoInv(Do(w, ReadPage(i, 1)), Replay(i));
      ReplayRound(w, i);
      if u.handlers[i].phase.Done? {
        DoneReplay(u, i, n - 1);
        assert Exec(w, Repeat(round, n)) == u;
      } else {
        ReplayReaches(u, i, n - 1);
        var v := Exec(u, Repeat(round, n - 1));
        assert v.handlers == w.handlers[i := v.handlers[i]];
      }
    }
  }

  lemma NothingDone(w: World)
    ensures Exec(w, []) == w
  {}

  lemma {:induction false} DoneReplay(w: World, i: nat, n: nat)
    requires i < |w.handlers| && w.handlers[i].phase.Done?
    ensures Exec(w, Repeat([ReadPage(i, 1), Replay(i)], n)) == w
    decreases n
  {
    hide Exec;
    if n == 0 {
      NothingDone(w);
    } else {
      ExecRepeat(w, [ReadPage(i, 1), Replay(i)], n);
      ExecTwo(w, ReadPage(i, 1), Replay(i));
      DoneReplay(w, i, n - 1);
    }
  }

  // ----- the client reads what was written ---------------------------------------------------------------

  ghost predicate Connected(w: World, i: nat, n: nat) {
    w.client.verdict == Watching && w.client.connection == Some((i, n)) && i < |w.handlers| && n <= |w.handlers[i].out|
  }

  ghost predicate SawEnd(c: Client) {
    c.verdict == Finished && c.printed != [] && c.printed[|c.printed| - 1].Printed? && c.printed[|c.printed| - 1].event.finished
  }

  lemma ReadRound(w: World, i: nat, n: nat)
    requires Inv(w) && Connected(w, i, n) && n < |w.handlers[i].out|
    ensures var c, e := w.client, w.handlers[i].out[n];
      Do(w, ReadFrame) == w.(client := c.(connection := Some((i, n + 1)), after := e.number, printed := c.printed + [Printed(e)],
                                          verdict := if e.finished then Finished else Watching))
  {
    var h := w.handlers[i];
    assert HandlerOk(h, w.log);
    assert h.out[n] == w.log[h.start + n];
    hide Inv;
  }

  /** Reading every frame written brings the client to its handler's position, or to a
      finishing event; it misses none. */
  lemma {:induction false} ReadReaches(w: World, i: nat, n: nat, m: nat)
    requires Inv(w) && Connected(w, i, n) && m == |w.handlers[i].out| - n
    ensures var v := Exec(w, Repeat([ReadFrame], m));
      && v == w.(client := v.client)
      && (SawEnd(v.client) || (v.client.verdict == Watching && v.client.after == w.handlers[i].after && !(m > 0 && WroteEnd(w.handlers[i]))))
    decreases m
  {
    hide Inv, Do, Exec;
    if m == 0 {
      NothingDone(w);
      ReaderPosition(w, i, n);
    } else {
      var u := Do(w, ReadFrame);
      ExecRepeat(w, [ReadFrame], m);
      ExecOne(w, ReadFrame);
      DoInv(w, ReadFrame);
      ReadRound(w, i, n);
      if u.client.verdict == Finished {
        DoneReading(u, m - 1);
      } else {
        ReadReaches(u, i, n + 1, m - 1);
        assert m == 1 ==> !w.handlers[i].out[|w.handlers[i].out| - 1].finished;
      }
    }
  }

  lemma ReaderPosition(w: World, i: nat, n: nat)
    requires Inv(w) && Connected(w, i, n) && n == |w.handlers[i].out|
    ensures w.client.after == w.handlers[i].after
  {
    assert HandlerOk(w.handlers[i], w.log);
  }

  lemma {:induction false} DoneReading(w: World, m: nat)
    requires w.client.verdict == Finished
    ensures Exec(w, Repeat([ReadFrame], m)) == w
    decreases m
  {
    hide Exec;
    if m == 0 {
      NothingDone(w);
    } else {
      ExecRepeat(w, [ReadFrame], m);
      ExecOne(w, ReadFrame);
      DoneReading(w, m - 1);
    }
  }

  // ----- a reconnecting client ---------------------------------------------------------------------------

  lemma JoinRound(w: World, i: nat)
    requires Inv(w) && i < |w.handlers| && w.handlers[i].phase.Joining? && w.handlers[i].covered == |w.log|
    ensures var v := Do(w, JoinHub(i));
      && v.log == w.log && v.retained == w.retained && v.client == w.client && |v.handlers| == |w.handlers|
      && v.handlers[i] == w.handlers[i].(hub := v.handlers[i].hub, phase := Replaying([]))
  {
    hide Joined, HandlerOk, ClientOk, SubOk, Join;
    if w.current.Some? {
      var g := w.current.value;
      assert HubOk(w.hubs[g], Pending(w, g), w.log);
      JoinSucceedsIff(w.hubs[g], Pending(w, g), |w.log|, w.cfg, w.log);
    }
  }

  lemma ConnectRound(w: World)
    requires Inv(w) && w.client.verdict == Watching && w.client.connection.None? && !w.client.resetting
    requires w.client.after <= |w.log| && w.retained <= w.client.after + 1
    ensures var v, c, i := Do(w, Connect), w.client, |w.handlers|;
      && v == w.(handlers := w.handlers + [Handler(c.after, c.after, |w.log|, 0, Joining, [])], client := c.(connection := Some((i, 0))))
      && Connected(v, i, 0)
  {
    hide Inv;
  }

  /** A client that is served from a fresh connection: connect, join, replay, read. */
  lemma ServedFromStart(w: World) returns (more: seq<Step>)
    requires Inv(w) && w.client.verdict == Watching && w.client.connection.None? && !w.client.resetting
    requires w.client.after <= |w.log| && w.retained <= w.client.after + 1
    ensures var v := Exec(w, more);
      v.log == w.log && v.retained == w.retained && (SawEnd(v.client) || (v.client.verdict == Watching && v.client.after == |w.log|))
  {
    hide Inv, Do, Exec;
    var i, n := |w.handlers|, |w.log| - w.client.after;
    var join, replay := [Connect, JoinHub(i)], Repeat([ReadPage(i, 1), Replay(i)], n);
    ConnectRound(w);
    DoInv(w, Connect);
    JoinRound(Do(w, Connect), i);
    DoInv(Do(w, Connect), JoinHub(i));
    ExecTwo(w, Connect, JoinHub(i));
    var x := Exec(w, join);
    ReplayReaches(x, i, n);
    ExecInv(x, replay);
    var y := Exec(x, replay);
    ExecAppend(w, join, replay);
    var m := |y.handlers[i].out|;
    ReadReaches(y, i, 0, m);
    ExecAppend(w, join + replay, Repeat([ReadFrame], m));
    more := join + replay + Repeat([ReadFrame], m);
  }

  lemma ResetRound(w: World)
    requires w.client.verdict == Watching && w.client.resetting && w.client.after <= |w.log|
    ensures var v := Do(w, Snapshot); v == w.(client := v.client) && v.client.verdict == Watching && v.client.after == |w.log|
  {}

  lemma TrimmedRound(w: World)
    requires w.client.verdict == Watching && w.client.connection.None? && !w.client.resetting && w.client.after <= |w.log|
    requires w.client.after + 1 < w.retained
    ensures Do(w, Connect) == w.(client := w.client.(resetting := true))
  {}

  /** From every reachable world a watching client can be served to the end of the log as
      it stands, or to a finishing event, without any new append: through a replay where
      its position is retained, through a snapshot where it was trimmed. */
  lemma ClientCanCatchUp(cfg: Config, start: nat, steps: seq<Step>) returns (more: seq<Step>)
    requires var w := Reached(cfg, start, steps); w.client.verdict == Watching && w.client.after <= |w.log|
    ensures var w := Reached(cfg, start, steps); var v := Exec(w, more);
      v.log == w.log && v.retained == w.retained && (SawEnd(v.client) || (v.client.verdict == Watching && v.client.after == |w.log|))
  {
    hide Inv, Do, Exec;
    var w := Reached(cfg, start, steps);
    ReachedInv(cfg, start, steps);
    DoInv(w, Disconnect);
    DisconnectRound(w);
    ExecOne(w, Disconnect);
    var u := Do(w, Disconnect);
    if u.client.resetting {
      ResetRound(u);
      ExecTwo(w, Disconnect, Snapshot);
      more := [Disconnect, Snapshot];
    } else if u.client.after + 1 < u.retained {
      TrimmedRound(u);
      ResetRound(Do(u, Connect));
      ExecThree(w, Disconnect, Connect, Snapshot);
      more := [Disconnect, Connect, Snapshot];
    } else {
      more := ServedFromStart(u);
      ExecAppend(w, [Disconnect], more);
      more := [Disconnect] + more;
    }
  }

  lemma DisconnectRound(w: World)
    ensures Do(w, Disconnect) == w.(client := w.client.(connection := None))
  {}

  // ----- a live handler ----------------------------------------------------------------------------------

  /** A live handler on an open subscription whose hub can still poll. */
  ghost predicate Listening(w: World, i: nat) {
    && i < |w.handlers| && w.handlers[i].phase.Live? && SubOf(w, i).Some? && !SubOf(w, i).value.closed
    && w.retained <= w.hubs[w.handlers[i].hub].cursor + 1 && 1 <= w.cfg.queueSize
  }

  lemma ListeningFacts(w: World, i: nat)
    requires Inv(w) && Listening(w, i)
    ensures var h, s := w.handlers[i], SubOf(w, i).value; var hub := w.hubs[h.hub];
      && HandlerOk(h, w.log) && SubOk(hub, h, s, w.log) && HubOk(hub, Pending(w, h.hub), w.log) && !hub.retired && Numbered(w.log)
  {
    assert HandlerOk(w.handlers[i], w.log) && Joined(w, i);
    assert HubOk(w.hubs[w.handlers[i].hub], Pending(w, w.handlers[i].hub), w.log);
  }

  lemma ReceiveRound(w: World, i: nat)
    requires Inv(w) && Listening(w, i) && SubOf(w, i).value.queue != []
    ensures var v, h, s := Do(w, Receive(i)), w.handlers[i], SubOf(w, i).value;
      && v.log == w.log && v.retained == w.retained && v.cfg == w.cfg && v.client == w.client && |v.handlers| == |w.handlers|
      && v.pending == w.pending && |v.hubs| == |w.hubs| && v.hubs[h.hub] == w.hubs[h.hub].(subs := w.hubs[h.hub].subs[i := s.(queue := s.queue[1..])])
      && v.handlers[i] == Received(h, s.queue[0])
  {
    ListeningFacts(w, i);
    var h, s := w.handlers[i], SubOf(w, i).value;
    assert s.queue[0] == w.log[h.after];
    hide Inv;
  }

  /** Taking what is queued empties the queue or ends the response with a finishing event. */
  lemma {:induction false} DrainReaches(w: World, i: nat, n: nat)
    requires Inv(w) && Listening(w, i) && n == |SubOf(w, i).value.queue|
    ensures var v := Exec(w, Repeat([Receive(i)], n)); Inv(v) && Onward(w, v, i, 0)
    ensures var v := Exec(w, Repeat([Receive(i)], n)); Ended(w, v, i) || (Listening(v, i) && SubOf(v, i).value.queue == [])
    decreases n
  {
    hide Inv, Do, Exec;
    if n == 0 {
      NothingDone(w);
    } else {
      ExecRepeat(w, [Receive(i)], n);
      ExecOne(w, Receive(i));
      DoInv(w, Receive(i));
      ReceiveRound(w, i);
      var u := Do(w, Receive(i));
      if u.handlers[i].phase.Done? {
        DoneReceiving(u, i, n - 1);
      } else {
        DrainReaches(u, i, n - 1);
      }
    }
  }

  lemma {:induction false} DoneReceiving(w: World, i: nat, n: nat)
    requires i < |w.handlers| && w.handlers[i].phase.Done?
    ensures Exec(w, Repeat([Receive(i)], n)) == w
    decreases n
  {
    hide Exec;
    if n == 0 {
      NothingDone(w);
    } else {
      ExecRepeat(w, [Receive(i)], n);
      ExecOne(w, Receive(i));
      DoneReceiving(w, i, n - 1);
    }
  }

  /** The handler has since written a finishing event and ended. */
  ghost predicate Ended(w: World, v: World, i: nat)
    requires i < |w.handlers| && i < |v.handlers|
  {
    WroteEnd(v.handlers[i]) && |v.handlers[i].out| > |w.handlers[i].out|
  }

  /** What serving a handler leaves alone while its hub moves `k` entries on. */
  ghost predicate Onward(w: World, v: World, i: nat, k: nat) {
    && v.log == w.log && v.retained == w.retained && v.cfg == w.cfg && v.client == w.client && |v.handlers| == |w.handlers|
    && i < |v.handlers| && v.handlers[i].start == w.handlers[i].start && |v.handlers[i].out| >= |w.handlers[i].out|
    && v.handlers[i].hub == w.handlers[i].hub && |v.hubs| == |w.hubs|
    && (v.handlers[i].hub < |v.hubs| ==> v.hubs[v.handlers[i].hub].cursor == w.hubs[w.handlers[i].hub].cursor + k)
  }

  lemma FetchRound(w: World, i: nat)
    requires Inv(w) && Listening(w, i) && w.hubs[w.handlers[i].hub].cursor < |w.log|
    ensures var g := w.handlers[i].hub; var v := Do(w, Fetch(g, 1)); v == w.(pending := v.pending) && Pending(v, g) != []
  {
    ListeningFacts(w, i);
    hide Inv, SubOk, HandlerOk, Numbered;
    var c := w.hubs[w.handlers[i].hub].cursor;
    assert w.log[c..c + 1] != [];
  }

  lemma DeliverRound(w: World, i: nat)
    requires Inv(w) && Listening(w, i) && Pending(w, w.handlers[i].hub) != [] && SubOf(w, i).value.queue == []
    ensures var g := w.handlers[i].hub; var v := Do(w, Deliver(g));
      Listening(v, i) && v.handlers == w.handlers && |SubOf(v, i).value.queue| <= 1 && Onward(w, v, i, 1)
  {
    ListeningFacts(w, i);
    hide Inv;
    var g := w.handlers[i].hub;
    assert Pending(w, g)[0] == w.log[w.hubs[g].cursor];
  }

  /** A poll, a delivery and a receive move hub and handler one entry on. */
  lemma PollRound(w: World, i: nat)
    requires Inv(w) && Listening(w, i) && SubOf(w, i).value.queue == [] && w.hubs[w.handlers[i].hub].cursor < |w.log|
    ensures var g := w.handlers[i].hub; var v := Do(Do(Do(w, Fetch(g, 1)), Deliver(g)), Receive(i));
      Inv(v) && Onward(w, v, i, 1) && (Ended(w, v, i) || (Listening(v, i) && SubOf(v, i).value.queue == []))
  {
    hide Inv, Do;
    var g := w.handlers[i].hub;
    var a := Do(w, Fetch(g, 1));
    FetchRound(w, i);
    DoInv(w, Fetch(g, 1));
    DeliverRound(a, i);
    var b := Do(a, Deliver(g));
    DoInv(a, Deliver(g));
    DoInv(b, Receive(i));
    if SubOf(b, i).value.queue != [] {
      ReceiveRound(b, i);
    } else {
      IdleReceive(b, i);
    }
  }

  lemma IdleReceive(w: World, i: nat)
    requires Listening(w, i) && SubOf(w, i).value.queue == []
    ensures Do(w, Receive(i)) == w
  {}

  lemma {:induction false} PollReaches(w: World, i: nat, g: nat, n: nat)
    requires Inv(w) && Listening(w, i) && SubOf(w, i).value.queue == [] && g == w.handlers[i].hub && n == |w.log| - w.hubs[g].cursor
    ensures var v := Exec(w, PollUntil(w, i, g, n));
      && v.log == w.log && v.retained == w.retained && v.client == w.client && |v.handlers| == |w.handlers| && Inv(v)
      && |v.handlers[i].out| >= |w.handlers[i].out| && (Ended(w, v, i) || v.handlers[i].after == |w.log|)
    decreases n
  {
    hide Inv, Do, Exec;
    if n == 0 {
      NothingDone(w);
      AtTheEnd(w, i);
    } else {
      var round := [Fetch(g, 1), Deliver(g), Receive(i)];
      PollRound(w, i);
      ExecThree(w, Fetch(g, 1), Deliver(g), Receive(i));
      var u := Exec(w, round);
      if !WroteEnd(u.handlers[i]) {
        PollReaches(u, i, g, n - 1);
        ExecAppend(w, round, PollUntil(u, i, g, n - 1));
      }
    }
  }

  /** Poll, deliver and receive until the handler has ended or `n` rounds are done. */
  ghost function PollUntil(w: World, i: nat, g: nat, n: nat): seq<Step>
    decreases n
  {
    if n == 0 then []
    else
      var round := [Fetch(g, 1), Deliver(g), Receive(i)];
      var u := Exec(w, round);
      if i < |u.handlers| && WroteEnd(u.handlers[i]) then round else round + PollUntil(u, i, g, n - 1)
  }

  lemma AtTheEnd(w: World, i: nat)
    requires Inv(w) && Listening(w, i) && SubOf(w, i).value.queue == [] && w.hubs[w.handlers[i].hub].cursor == |w.log|
    ensures w.handlers[i].after == |w.log|
  {
    ListeningFacts(w, i);
  }

  /** In every reachable world, a client reading from a live handler on an open
      subscription gets every entry up to the end of the log, or to a finishing event, by
      receives, polls and reads alone: nothing is lost between log, hub, queue and client. */
  lemma LiveClientCatchesUp(cfg: Config, start: nat, steps: seq<Step>, i: nat, n: nat) returns (more: seq<Step>)
    requires var w := Reached(cfg, start, steps); Listening(w, i) && Connected(w, i, n)
    ensures var w := Reached(cfg, start, steps); var v := Exec(w, more);
      v.log == w.log && v.retained == w.retained && (SawEnd(v.client) || (v.client.verdict == Watching && v.client.after == |w.log|))
  {
    hide Inv, Do, Exec;
    var w := Reached(cfg, start, steps);
    ReachedInv(cfg, start, steps);
    var drain := Repeat([Receive(i)], |SubOf(w, i).value.queue|);
    DrainReaches(w, i, |SubOf(w, i).value.queue|);
    var x := Exec(w, drain);
    var poll := [];
    if !WroteEnd(x.handlers[i]) {
      var g := x.handlers[i].hub;
      CursorInLog(x, i);
      poll := PollUntil(x, i, g, |x.log| - x.hubs[g].cursor);
      PollReaches(x, i, g, |x.log| - x.hubs[g].cursor);
    } else {
      NothingDone(x);
    }
    var y := Exec(x, poll);
    ExecAppend(w, drain, poll);
    var m := |y.handlers[i].out| - n;
    ReadReaches(y, i, n, m);
    ExecAppend(w, drain + poll, Repeat([ReadFrame], m));
    more := drain + poll + Repeat([ReadFrame], m);
  }

  lemma CursorInLog(w: World, i: nat)
    requires Inv(w) && Listening(w, i)
    ensures w.hubs[w.handlers[i].hub].cursor <= |w.log|
  {
    ListeningFacts(w, i);
  }
}
