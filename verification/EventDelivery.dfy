/** What every interleaving of appends, polls, slow removals, retirements, trims and
    reconnects preserves: handlers and the client see the durable log, in order. */
module EventDelivery {
  import opened Domain
  import opened EventStream

  ghost predicate Numbered(log: seq<Event>) {
    forall i :: 0 <= i < |log| ==> log[i].number == i + 1
  }

  /** `events` is the stretch of the log that ends at position `end`. */
  ghost predicate EndsAt(events: seq<Event>, end: nat, log: seq<Event>) {
    |events| <= end <= |log| && events == log[end - |events|..end]
  }

  function Max(a: nat, b: nat): nat { if a < b then b else a }

  ghost predicate HubOk(hub: Hub, pending: seq<Event>, log: seq<Event>) {
    EndsAt(hub.history, hub.cursor, log) && (!hub.retired ==> EndsAt(pending, hub.cursor + |pending|, log))
  }

  /** Everything queued continues what the handler has, or will have, written. */
  ghost predicate SubOk(hub: Hub, h: Handler, s: Sub, log: seq<Event>) {
    && EndsAt(s.queue, s.after, log) && s.after - |s.queue| == (if h.phase.Live? then h.after else h.covered)
    && (!s.closed ==> !hub.retired && s.after == Max(h.covered, hub.cursor))
  }

  /** What the handler wrote is exactly the log after its start position. */
  ghost predicate HandlerOk(h: Handler, log: seq<Event>) {
    && EndsAt(h.out, h.after, log) && h.start + |h.out| == h.after && h.covered <= |log|
    && (h.phase.Joining? || h.phase.Replaying? ==> h.after <= h.covered)
    && (h.phase.Replaying? ==> EndsAt(h.phase.page, h.after + |h.phase.page|, log))
    && (h.phase.Live? ==> h.covered <= h.after)
  }

  ghost predicate Joined(w: World, i: nat)
    requires i < |w.handlers|
  {
    w.handlers[i].phase.Replaying? || w.handlers[i].phase.Live? ==>
      SubOf(w, i).Some? && SubOk(w.hubs[w.handlers[i].hub], w.handlers[i], SubOf(w, i).value, w.log)
  }

  /** The client's position after what it printed. */
  function Position(printed: seq<Item>, start: nat): nat {
    if printed == [] then start
    else match printed[|printed| - 1]
      case Printed(e) => e.number
      case SnapshotReset(covered) => covered
  }

  /** Each printed event is the log entry right after the previous position; the only
      jumps are snapshot resets, and they go forward. */
  ghost predicate Faithful(printed: seq<Item>, start: nat, log: seq<Event>) {
    printed == [] || (
      var rest := printed[..|printed| - 1];
      Faithful(rest, start, log) &&
      match printed[|printed| - 1]
      case Printed(e) => e.number == Position(rest, start) + 1 && e.number <= |log| && e == log[e.number - 1]
      case SnapshotReset(covered) => Position(rest, start) <= covered <= |log|)
  }

  /** `n` frames of the response brought the client to `after`. */
  ghost predicate Reading(after: nat, h: Handler, n: nat) { n <= |h.out| && after == h.start + n }

  ghost predicate ClientOk(c: Client, handlers: seq<Handler>, log: seq<Event>) {
    && c.verdict != GapDetected && c.verdict != CursorRegressed
    && Faithful(c.printed, c.start, log) && c.after == Position(c.printed, c.start)
    && (c.resetting ==> c.after <= |log| && c.connection.None?)
    && (c.connection.Some? ==>
          c.connection.value.0 < |handlers| && Reading(c.after, handlers[c.connection.value.0], c.connection.value.1))
  }

  ghost predicate Inv(w: World) {
    && Numbered(w.log) && 1 <= w.retained <= |w.log| + 1
    && (forall g :: 0 <= g < |w.hubs| ==> HubOk(w.hubs[g], Pending(w, g), w.log))
    && (w.current.Some? ==> w.current.value < |w.hubs| && !w.hubs[w.current.value].retired)
    && (forall g :: g in w.pending ==> g < |w.hubs|)
    && (forall i :: 0 <= i < |w.handlers| ==> HandlerOk(w.handlers[i], w.log) && Joined(w, i))
    && ClientOk(w.client, w.handlers, w.log)
  }

  lemma InitInv(cfg: Config, start: nat)
    ensures Inv(Init(cfg, start))
  {}

  // ----- the log grows --------------------------------------------------------------------------

  lemma EndsAtGrows(events: seq<Event>, end: nat, log: seq<Event>, e: Event)
    requires EndsAt(events, end, log)
    ensures EndsAt(events, end, log + [e])
  {}

  lemma {:induction false} FaithfulGrows(printed: seq<Item>, start: nat, log: seq<Event>, e: Event)
    requires Faithful(printed, start, log)
    ensures Faithful(printed, start, log + [e])
  {
    if printed != [] {
      FaithfulGrows(printed[..|printed| - 1], start, log, e);
    }
  }

  lemma AppendInv(w: World, finished: bool, payload: string)
    requires Inv(w)
    ensures Inv(DoAppend(w, finished, payload))
  {
    var v, e := DoAppend(w, finished, payload), Event(|w.log| + 1, finished, payload);
    FaithfulGrows(w.client.printed, w.client.start, w.log, e);
    hide Faithful, EndsAt;
    forall events, end | EndsAt(events, end, w.log) ensures EndsAt(events, end, v.log) {
      EndsAtGrows(events, end, w.log, e);
    }
    forall i | 0 <= i < |v.handlers| ensures HandlerOk(v.handlers[i], v.log) && Joined(v, i) {
      assert HandlerOk(w.handlers[i], w.log) && Joined(w, i);
    }
    forall g | 0 <= g < |v.hubs| ensures HubOk(v.hubs[g], Pending(v, g), v.log) {
      assert HubOk(w.hubs[g], Pending(w, g), w.log);
    }
  }

  // ----- the hub -----------------------------------------------------------------------------------

  lemma {:induction false} CatchupIs(history: seq<Event>, end: nat, covered: nat, cap: nat, log: seq<Event>)
    requires Numbered(log) && EndsAt(history, end, log) && end - |history| <= covered <= |log|
    requires Catchup(history, covered, cap).Some?
    ensures var s := Catchup(history, covered, cap).value;
      s.after == Max(covered, end) && s.queue == log[covered..s.after] && !s.closed
  {
    if history != [] {
      var n := |history| - 1;
      assert history[..n] == log[end - |history|..end - 1];
      assert history[n] == log[end - 1];
      CatchupIs(history[..n], end - 1, covered, cap, log);
    }
  }

  lemma JoinIs(hub: Hub, pending: seq<Event>, covered: nat, cfg: Config, log: seq<Event>)
    requires Numbered(log) && HubOk(hub, pending, log) && covered <= |log| && Join(hub, covered, cfg).Some?
    ensures var s := Join(hub, covered, cfg).value;
      s.after == Max(covered, hub.cursor) && s.queue == log[covered..s.after] && !s.closed
  {
    hide Catchup;
    if hub.history != [] {
      assert hub.history[0] == log[hub.cursor - |hub.history|];
    }
    CatchupIs(hub.history, hub.cursor, covered, cfg.queueSize, log);
  }

  lemma PublishHub(hub: Hub, pending: seq<Event>, cfg: Config, log: seq<Event>)
    requires Numbered(log) && HubOk(hub, pending, log) && pending != []
    ensures HubOk(Publish(hub, pending[0], cfg), pending[1..], log)
    ensures Publish(hub, pending[0], cfg).retired == hub.retired
  {
    if !hub.retired {
      assert pending[0] == log[hub.cursor];
      assert hub.history + [pending[0]] == log[hub.cursor - |hub.history|..hub.cursor + 1];
      assert pending[1..] == log[hub.cursor + 1..hub.cursor + |pending|];
    }
  }

  lemma OfferSub(hub: Hub, h: Handler, s: Sub, e: Event, cfg: Config, log: seq<Event>)
    requires Numbered(log) && SubOk(hub, h, s, log) && h.covered <= |log| && !hub.retired
    requires hub.cursor < |log| && e == log[hub.cursor] && hub.cursor + 1 <= |log|
    ensures SubOk(Publish(hub, e, cfg), h, Offer(s, e, cfg.queueSize), log)
  {
    if !s.closed && e.number > s.after && |s.queue| < cfg.queueSize {
      assert s.queue + [e] == log[s.after - |s.queue|..s.after + 1];
    }
  }

  // ----- steps of one handler ------------------------------------------------------------------------

  lemma HandlerStep(w: World, i: nat, h: Handler)
    requires Inv(w) && i < |w.handlers| && HandlerOk(h, w.log)
    requires h.start == w.handlers[i].start && |w.handlers[i].out| <= |h.out| && Joined(SetHandler(w, i, h), i)
    ensures Inv(SetHandler(w, i, h))
  {
    hide HandlerOk, HubOk, SubOk, Faithful, EndsAt;
    var v := SetHandler(w, i, h);
    forall j | 0 <= j < |v.handlers| ensures HandlerOk(v.handlers[j], v.log) && Joined(v, j) {
      if j != i {
        assert HandlerOk(w.handlers[j], w.log) && Joined(w, j);
        assert SubOf(v, j) == SubOf(w, j);
      }
    }
    forall g | 0 <= g < |v.hubs| ensures HubOk(v.hubs[g], Pending(v, g), v.log) {
      assert HubOk(w.hubs[g], Pending(w, g), w.log);
    }
    assert forall a, n :: Reading(a, w.handlers[i], n) ==> Reading(a, h, n);
  }

  lemma DoneStep(w: World, i: nat)
    requires Inv(w) && i < |w.handlers|
    ensures Inv(SetHandler(w, i, w.handlers[i].(phase := Done)))
  {
    assert HandlerOk(w.handlers[i], w.log);
    hide Inv, EndsAt;
    HandlerStep(w, i, w.handlers[i].(phase := Done));
  }

  lemma ReadPageInv(w: World, i: nat, limit: nat)
    requires Inv(w)
    ensures Inv(DoReadPage(w, i, limit))
  {
    hide Inv, Page, EndsAt;
    if i < |w.handlers| && w.handlers[i].phase == Replaying([]) && w.handlers[i].after < w.handlers[i].covered {
      var h := w.handlers[i];
      HandlerFacts(w, i);
      if Page(w, h.after, limit).None? || Page(w, h.after, limit).value == [] {
        DoneStep(w, i);
      } else {
        PageIs(w, h.after, limit);
        HandlerStep(w, i, h.(phase := Replaying(Page(w, h.after, limit).value)));
      }
    }
  }

  lemma HandlerFacts(w: World, i: nat)
    requires Inv(w) && i < |w.handlers|
    ensures HandlerOk(w.handlers[i], w.log) && Joined(w, i) && Numbered(w.log)
  {}

  lemma PageIs(w: World, after: nat, limit: nat)
    requires Page(w, after, limit).Some?
    ensures var events := Page(w, after, limit).value; EndsAt(events, after + |events|, w.log)
  {}

  lemma ReplayInv(w: World, i: nat)
    requires Inv(w)
    ensures Inv(DoReplay(w, i))
  {
    hide Inv, HandlerOk;
    if i < |w.handlers| && w.handlers[i].phase.Replaying? && w.handlers[i].phase.page != [] {
      var h := w.handlers[i];
      var e := h.phase.page[0];
      HandlerFacts(w, i);
      ReplayOk(h, w.log);
      if e.number > h.covered {
        HandlerStep(w, i, h.(phase := Replaying([])));
      } else if e.number != h.after + 1 {
        DoneStep(w, i);
      } else {
        HandlerStep(w, i, Replayed(h));
      }
    }
  }

  function Replayed(h: Handler): Handler
    requires h.phase.Replaying? && h.phase.page != []
  {
    var e := h.phase.page[0];
    h.(out := h.out + [e], after := e.number, phase := if e.finished then Done else Replaying(h.phase.page[1..]))
  }

  lemma ReplayOk(h: Handler, log: seq<Event>)
    requires Numbered(log) && HandlerOk(h, log) && h.phase.Replaying? && h.phase.page != []
    ensures HandlerOk(h.(phase := Replaying([])), log)
    ensures h.phase.page[0].number <= h.covered && h.phase.page[0].number == h.after + 1 ==> HandlerOk(Replayed(h), log)
  {
    var page := h.phase.page;
    assert page[0] == log[h.after];
    assert h.out + [page[0]] == log[h.start..h.after + 1];
    assert page[1..] == log[h.after + 1..h.after + |page|];
  }

  lemma EndReplayInv(w: World, i: nat)
    requires Inv(w)
    ensures Inv(DoEndReplay(w, i))
  {
    if DoEndReplay(w, i) != w {
      assert HandlerOk(w.handlers[i], w.log) && Joined(w, i);
      hide Inv, EndsAt;
      HandlerStep(w, i, w.handlers[i].(phase := Live));
    }
  }

  // ----- steps of one hub ----------------------------------------------------------------------------------

  /** A hub changes; every subscription on it is still in order. */
  lemma HubStep(w: World, v: World, g: nat)
    requires Inv(w) && g < |w.hubs| && |v.hubs| == |w.hubs| && v == w.(hubs := v.hubs, pending := v.pending, current := v.current)
    requires forall k :: 0 <= k < |w.hubs| && k != g ==> v.hubs[k] == w.hubs[k] && Pending(v, k) == Pending(w, k)
    requires HubOk(v.hubs[g], Pending(v, g), v.log)
    requires v.current.Some? ==> v.current.value < |v.hubs| && !v.hubs[v.current.value].retired
    requires forall k :: k in v.pending ==> k < |v.hubs|
    requires forall i :: 0 <= i < |w.handlers| && w.handlers[i].hub == g ==> Joined(v, i)
    ensures Inv(v)
  {
    hide HandlerOk, HubOk, SubOk, Faithful, EndsAt, Pending;
    forall j | 0 <= j < |v.handlers| ensures HandlerOk(v.handlers[j], v.log) && Joined(v, j) {
      assert HandlerOk(w.handlers[j], w.log) && Joined(w, j);
      assert w.handlers[j].hub != g ==> SubOf(v, j) == SubOf(w, j);
    }
  }

  lemma FetchInv(w: World, g: nat, limit: nat)
    requires Inv(w)
    ensures Inv(DoFetch(w, g, limit))
  {
    if g < |w.hubs| && !w.hubs[g].retired && Pending(w, g) == [] {
      assert HubOk(w.hubs[g], Pending(w, g), w.log);
      hide Page, EndsAt;
      if Page(w, w.hubs[g].cursor, limit).None? {
        RetireInv(w, g);
      } else {
        var v := DoFetch(w, g, limit);
        PageIs(w, w.hubs[g].cursor, limit);
        assert forall i :: 0 <= i < |w.handlers| ==> Joined(w, i) && SubOf(v, i) == SubOf(w, i);
        hide Inv, SubOk, Faithful, HandlerOk;
        HubStep(w, v, g);
      }
    }
  }

  lemma RetireInv(w: World, g: nat)
    requires Inv(w)
    ensures Inv(DoRetireHub(w, g))
  {
    if g < |w.hubs| {
      var v := DoRetireHub(w, g);
      assert HubOk(w.hubs[g], Pending(w, g), w.log);
      forall i | 0 <= i < |w.handlers| && w.handlers[i].hub == g ensures Joined(v, i) {
        assert Joined(w, i);
      }
      hide Inv, EndsAt, SubOk, Joined;
      HubStep(w, v, g);
    }
  }

  lemma DeliverInv(w: World, g: nat)
    requires Inv(w)
    ensures Inv(DoDeliver(w, g))
  {
    if g < |w.hubs| && Pending(w, g) != [] {
      var v, hub, pending := DoDeliver(w, g), w.hubs[g], Pending(w, g);
      assert HubOk(hub, pending, w.log);
      PublishHub(hub, pending, w.cfg, w.log);
      forall i | 0 <= i < |w.handlers| && w.handlers[i].hub == g ensures Joined(v, i) {
        DeliverJoined(w, g, i);
      }
      hide Inv, HubOk, Publish, Joined;
      HubStep(w, v, g);
    }
  }

  lemma DeliverJoined(w: World, g: nat, i: nat)
    requires Inv(w) && g < |w.hubs| && Pending(w, g) != [] && i < |w.handlers| && w.handlers[i].hub == g
    ensures Joined(DoDeliver(w, g), i)
  {
    assert Joined(w, i) && HandlerOk(w.handlers[i], w.log) && HubOk(w.hubs[g], Pending(w, g), w.log);
    var h, hub, pending := w.handlers[i], w.hubs[g], Pending(w, g);
    if (h.phase.Replaying? || h.phase.Live?) && !hub.retired {
      assert pending[0] == w.log[hub.cursor];
      OfferSub(hub, h, SubOf(w, i).value, pending[0], w.cfg, w.log);
    }
    hide Inv, SubOk, EndsAt;
  }

  // ----- a handler and its subscription together ----------------------------------------------------------

  function WithSub(w: World, i: nat, h: Handler, s: Sub): World
    requires i < |w.handlers| && h.hub < |w.hubs|
  {
    w.(hubs := w.hubs[h.hub := w.hubs[h.hub].(subs := w.hubs[h.hub].subs[i := s])], handlers := w.handlers[i := h])
  }

  lemma SubStep(w: World, i: nat, h: Handler, s: Sub)
    requires Inv(w) && i < |w.handlers| && h.hub < |w.hubs| && HandlerOk(h, w.log)
    requires h.start == w.handlers[i].start && |w.handlers[i].out| <= |h.out|
    requires h.phase.Done? || SubOk(w.hubs[h.hub], h, s, w.log)
    ensures Inv(WithSub(w, i, h, s))
  {
    hide HandlerOk, Faithful, EndsAt;
    var v := WithSub(w, i, h, s);
    forall j | 0 <= j < |v.handlers| ensures HandlerOk(v.handlers[j], v.log) && Joined(v, j) {
      if j != i {
        assert HandlerOk(w.handlers[j], w.log) && Joined(w, j);
        assert SubOf(v, j) == SubOf(w, j);
      }
    }
    forall g | 0 <= g < |v.hubs| ensures HubOk(v.hubs[g], Pending(v, g), v.log) {
      assert HubOk(w.hubs[g], Pending(w, g), w.log);
    }
    assert forall a, n :: Reading(a, w.handlers[i], n) ==> Reading(a, h, n);
  }

  lemma ReceiveInv(w: World, i: nat)
    requires Inv(w)
    ensures Inv(DoReceive(w, i))
  {
    if SubOf(w, i).Some? && w.handlers[i].phase.Live? {
      var h, s := w.handlers[i], SubOf(w, i).value;
      assert HandlerOk(h, w.log) && Joined(w, i);
      if s.queue == [] {
        DoneStep(w, i);
      } else {
        var e := s.queue[0];
        assert e == w.log[h.after];
        assert e.number == h.after + 1;
        ReceiveOk(w.hubs[h.hub], h, s, w.log);
        hide Inv, HandlerOk, SubOk;
        SubStep(w, i, Received(h, e), s.(queue := s.queue[1..]));
      }
    }
  }

  function Received(h: Handler, e: Event): Handler {
    h.(out := h.out + [e], after := e.number, phase := if e.finished then Done else Live)
  }

  lemma ReceiveOk(hub: Hub, h: Handler, s: Sub, log: seq<Event>)
    requires HandlerOk(h, log) && SubOk(hub, h, s, log) && h.phase.Live? && s.queue != [] && s.queue[0].number == h.after + 1
    ensures var v := Received(h, s.queue[0]);
      HandlerOk(v, log) && (v.phase.Live? ==> SubOk(hub, v, s.(queue := s.queue[1..]), log))
  {
    assert s.queue[0] == log[h.after];
    assert h.out + [s.queue[0]] == log[h.start..h.after + 1];
    assert s.queue[1..] == log[h.after + 1..s.after];
  }

  lemma CloseInv(w: World, i: nat)
    requires Inv(w)
    ensures Inv(DoClose(w, i))
  {
    if i < |w.handlers| {
      var h := w.handlers[i].(phase := Done);
      assert HandlerOk(w.handlers[i], w.log);
      if SubOf(w, i).None? || w.handlers[i].phase.Joining? {
        DoneStep(w, i);
      } else {
        var s := SubOf(w, i).value.(closed := true);
        hide Inv, EndsAt;
        SubStep(w, i, h, s);
        var v := WithSub(w, i, h, s);
        DetachInv(v);
        assert DoClose(w, i) == v || DoClose(w, i) == v.(current := None);
      }
    }
  }

  lemma DetachInv(w: World)
    requires Inv(w)
    ensures Inv(w.(current := None))
  {
    hide HandlerOk, HubOk, SubOk, ClientOk;
    var v := w.(current := None);
    assert forall i :: 0 <= i < |w.handlers| ==> Joined(w, i) && SubOf(v, i) == SubOf(w, i);
    assert forall g :: 0 <= g < |v.hubs| ==> HubOk(w.hubs[g], Pending(w, g), w.log) && Pending(v, g) == Pending(w, g);
  }

  lemma OpenInv(w: World, after: nat)
    requires Inv(w)
    ensures Inv(DoOpen(w, after))
  {
    var v := DoOpen(w, after);
    if v != w {
      hide SubOk, HubOk, Faithful;
      assert v.log == w.log;
      forall j | 0 <= j < |v.handlers| ensures HandlerOk(v.handlers[j], v.log) && Joined(v, j) {
        if j < |w.handlers| {
          assert HandlerOk(w.handlers[j], w.log) && Joined(w, j);
          assert SubOf(v, j) == SubOf(w, j);
        }
      }
      assert forall g :: 0 <= g < |v.hubs| ==> HubOk(w.hubs[g], Pending(w, g), w.log) && Pending(v, g) == Pending(w, g);
    }
  }

  lemma NewHubInv(w: World, covered: nat, subs: map<nat, Sub>)
    requires Inv(w) && covered <= |w.log|
    ensures Inv(w.(hubs := w.hubs + [Hub(covered, [], subs, false)], current := Some(|w.hubs|)))
  {
    var v := w.(hubs := w.hubs + [Hub(covered, [], subs, false)], current := Some(|w.hubs|));
    hide SubOk, HandlerOk, ClientOk;
    forall j | 0 <= j < |v.handlers| ensures HandlerOk(v.handlers[j], v.log) && Joined(v, j) {
      assert HandlerOk(w.handlers[j], w.log) && Joined(w, j);
    }
    forall g | 0 <= g < |v.hubs| ensures HubOk(v.hubs[g], Pending(v, g), v.log) {
      if g < |w.hubs| {
        assert HubOk(w.hubs[g], Pending(w, g), w.log) && Pending(v, g) == Pending(w, g);
      } else {
        assert Pending(v, g) == [];
      }
    }
  }

  lemma JoinInv(w: World, i: nat)
    requires Inv(w)
    ensures Inv(DoJoin(w, i))
  {
    if i < |w.handlers| && w.handlers[i].phase.Joining? {
      var h := w.handlers[i];
      assert HandlerOk(h, w.log);
      if w.current.Some? && w.current.value < |w.hubs| {
        var g := w.current.value;
        var sub := Join(w.hubs[g], h.covered, w.cfg);
        if sub.None? {
          DoneStep(w, i);
        } else {
          assert HubOk(w.hubs[g], Pending(w, g), w.log);
          JoinIs(w.hubs[g], Pending(w, g), h.covered, w.cfg, w.log);
          hide Inv, Join;
          SubStep(w, i, h.(hub := g, phase := Replaying([])), sub.value);
        }
      } else {
        var s, g := Sub(h.covered, [], false), |w.hubs|;
        NewHubInv(w, h.covered, map[i := s]);
        var u := w.(hubs := w.hubs + [Hub(h.covered, [], map[i := s], false)], current := Some(g));
        hide Inv;
        SubStep(u, i, h.(hub := g, phase := Replaying([])), s);
        assert WithSub(u, i, h.(hub := g, phase := Replaying([])), s) == DoJoin(w, i) by {
          assert u.hubs[g].subs[i := s] == u.hubs[g].subs;
          assert u.hubs[g := u.hubs[g].(subs := u.hubs[g].subs[i := s])] == u.hubs;
        }
      }
    }
  }

  // ----- the client ----------------------------------------------------------------------------------------

  /** Only the client changes. */
  lemma ClientStep(w: World, c: Client)
    requires Inv(w) && ClientOk(c, w.handlers, w.log)
    ensures Inv(w.(client := c))
  {
    hide HandlerOk, HubOk, SubOk, ClientOk;
    var v := w.(client := c);
    assert forall i :: 0 <= i < |w.handlers| ==> Joined(w, i) && SubOf(v, i) == SubOf(w, i);
    assert forall g :: 0 <= g < |v.hubs| ==> HubOk(w.hubs[g], Pending(w, g), w.log) && Pending(v, g) == Pending(w, g);
  }

  lemma FaithfulStep(printed: seq<Item>, start: nat, item: Item, log: seq<Event>)
    requires Faithful(printed, start, log)
    requires match item
      case Printed(e) => e.number == Position(printed, start) + 1 && e.number <= |log| && e == log[e.number - 1]
      case SnapshotReset(covered) => Position(printed, start) <= covered <= |log|
    ensures Faithful(printed + [item], start, log)
  {
    assert (printed + [item])[..|printed|] == printed;
  }

  lemma ConnectInv(w: World)
    requires Inv(w)
    ensures Inv(DoConnect(w))
  {
    var c := w.client;
    if c.verdict != Watching || c.connection.Some? || c.resetting {
      return;
    }
    hide Faithful, Joined, HubOk;
    if c.after > |w.log| {
      ClientStep(w, c.(verdict := Refused));
    } else if c.after + 1 < w.retained {
      ClientStep(w, c.(resetting := true));
    } else {
      OpenInv(w, c.after);
      ClientStep(DoOpen(w, c.after), c.(connection := Some((|w.handlers|, 0))));
    }
  }

  lemma ReadFrameInv(w: World)
    requires Inv(w)
    ensures Inv(DoReadFrame(w))
  {
    var c := w.client;
    if c.verdict == Watching && c.connection.Some? {
      var i, n := c.connection.value.0, c.connection.value.1;
      if n < |w.handlers[i].out| {
        var h := w.handlers[i];
        assert HandlerOk(h, w.log);
        var e := h.out[n];
        assert e == w.log[h.start + n];
        FaithfulStep(c.printed, c.start, Printed(e), w.log);
        hide Inv, Faithful;
        ClientStep(w, c.(connection := Some((i, n + 1)), after := e.number, printed := c.printed + [Printed(e)],
                         verdict := if e.finished then Finished else Watching));
      }
    }
  }

  lemma GoneInv(w: World)
    requires Inv(w)
    ensures Inv(DoGone(w))
  {
    if DoGone(w) != w {
      assert HandlerOk(w.handlers[w.client.connection.value.0], w.log);
      hide Faithful, Joined, HubOk;
      ClientStep(w, w.client.(connection := None, resetting := true));
    }
  }

  lemma SnapshotInv(w: World)
    requires Inv(w)
    ensures Inv(DoSnapshot(w))
  {
    var c := w.client;
    if c.verdict == Watching && c.resetting {
      FaithfulStep(c.printed, c.start, SnapshotReset(|w.log|), w.log);
      hide Faithful, Joined, HubOk;
      ClientStep(w, c.(after := |w.log|, resetting := false, printed := c.printed + [SnapshotReset(|w.log|)]));
    }
  }

  // ----- every interleaving ----------------------------------------------------------------------------------

  lemma TrimInv(w: World, retained: nat)
    requires Inv(w)
    ensures Inv(DoTrim(w, retained))
  {
    hide HandlerOk, HubOk, SubOk, ClientOk;
    var v := DoTrim(w, retained);
    assert forall i :: 0 <= i < |w.handlers| ==> Joined(w, i) && SubOf(v, i) == SubOf(w, i);
    assert forall g :: 0 <= g < |v.hubs| ==> HubOk(w.hubs[g], Pending(w, g), w.log) && Pending(v, g) == Pending(w, g);
  }

  lemma DisconnectInv(w: World)
    requires Inv(w)
    ensures Inv(w.(client := w.client.(connection := None)))
  {
    hide HandlerOk, HubOk, Joined, Faithful;
    ClientStep(w, w.client.(connection := None));
  }

  lemma DoInv(w: World, step: Step)
    requires Inv(w)
    ensures Inv(Do(w, step))
  {
    hide Inv, DoAppend, DoTrim, DoOpen, DoJoin, DoFetch, DoDeliver, DoRetireHub, DoReadPage, DoReplay, DoEndReplay, DoReceive,
      DoClose, DoConnect, DoReadFrame, DoGone, DoSnapshot;
    match step
    case Append(finished, payload) => AppendInv(w, finished, payload);
    case Trim(retained) => TrimInv(w, retained);
    case Open(after) => OpenInv(w, after);
    case JoinHub(i) => JoinInv(w, i);
    case Fetch(g, limit) => FetchInv(w, g, limit);
    case Deliver(g) => DeliverInv(w, g);
    case RetireHub(g) => RetireInv(w, g);
    case ReadPage(i, limit) => ReadPageInv(w, i, limit);
    case Replay(i) => ReplayInv(w, i);
    case EndReplay(i) => EndReplayInv(w, i);
    case Receive(i) => ReceiveInv(w, i);
    case Close(i) => CloseInv(w, i);
    case Connect => ConnectInv(w);
    case ReadFrame => ReadFrameInv(w);
    case Disconnect => DisconnectInv(w);
    case Gone => GoneInv(w);
    case Snapshot => SnapshotInv(w);
  }

  lemma {:induction false} ExecInv(w: World, steps: seq<Step>)
    requires Inv(w)
    ensures Inv(Exec(w, steps))
  {
    hide Inv, Do;
    if steps != [] {
      ExecInv(w, steps[..|steps| - 1]);
      DoInv(Exec(w, steps[..|steps| - 1]), steps[|steps| - 1]);
    }
  }

  ghost function Reached(cfg: Config, start: nat, steps: seq<Step>): World { Exec(Init(cfg, start), steps) }

  lemma ReachedInv(cfg: Config, start: nat, steps: seq<Step>)
    ensures Inv(Reached(cfg, start, steps))
  {
    hide Inv, Exec;
    InitInv(cfg, start);
    ExecInv(Init(cfg, start), steps);
  }

  /** A handler opened at `start` has written exactly the log entries start+1, start+2, ...
      in order: no gap, no duplicate, no stale copy, whatever happened around it. */
  lemma HandlerWritesTheLog(cfg: Config, start: nat, steps: seq<Step>, i: nat)
    requires i < |Reached(cfg, start, steps).handlers|
    ensures var w := Reached(cfg, start, steps); var h := w.handlers[i];
      && h.start + |h.out| <= |w.log| && h.out == w.log[h.start..h.start + |h.out|]
      && forall n :: 0 <= n < |h.out| ==> h.out[n].number == h.start + n + 1
  {
    hide Exec;
    ReachedInv(cfg, start, steps);
    var w := Reached(cfg, start, steps);
    assert HandlerOk(w.handlers[i], w.log);
  }

  /** The client prints a contiguous run of log entries, broken only by forward
      snapshot resets; it never sees a gap and never a snapshot behind its cursor. */
  lemma ClientPrintsTheLog(cfg: Config, start: nat, steps: seq<Step>)
    ensures var w := Reached(cfg, start, steps);
      && w.client.verdict != GapDetected && w.client.verdict != CursorRegressed
      && Faithful(w.client.printed, start, w.log) && w.client.after == Position(w.client.printed, start)
  {
    hide Exec, Faithful;
    ReachedInv(cfg, start, steps);
    StartStays(cfg, start, steps);
  }

  lemma {:induction false} StartStays(cfg: Config, start: nat, steps: seq<Step>)
    ensures Reached(cfg, start, steps).client.start == start
  {
    if steps != [] {
      StartStays(cfg, start, steps[..|steps| - 1]);
      StartKept(Exec(Init(cfg, start), steps[..|steps| - 1]), steps[|steps| - 1]);
    }
  }

  lemma StartKept(w: World, step: Step)
    ensures Do(w, step).client.start == w.client.start
  {
    hide Publish, Join, Page, Retire;
  }

  /** The gap test in the polling loop never fires: a hub retires only when asked to
      or when its position was trimmed. */
  lemma HubNeverSeesGap(cfg: Config, start: nat, steps: seq<Step>, g: nat)
    requires var w := Reached(cfg, start, steps); g < |w.hubs| && !w.hubs[g].retired
    ensures !Do(Reached(cfg, start, steps), Deliver(g)).hubs[g].retired
  {
    hide Exec;
    var w := Reached(cfg, start, steps);
    ReachedInv(cfg, start, steps);
    if Pending(w, g) != [] {
      PublishHub(w.hubs[g], Pending(w, g), w.cfg, w.log);
    }
    hide Publish, Inv;
  }
}
