/** Live event delivery: the shared hub (internal/eventstream/hub.go), the replay and
    live loops of the HTTP handler (internal/httpapi/sse.go) and the reconnecting
    client (cmd/forge/watch.go), over the durable event log of one run. */
module EventStream {
  import opened Domain

  datatype Event = Event(number: nat, finished: bool, payload: string)

  /** A subscriber's channel.  A closed channel still yields what it holds. */
  datatype Sub = Sub(after: nat, queue: seq<Event>, closed: bool)

  datatype Config = Config(queueSize: nat, historySize: nat)

  datatype Hub = Hub(cursor: nat, history: seq<Event>, subs: map<nat, Sub>, retired: bool)

  // ----- the hub as functions ------------------------------------------------------------------

  /** A full queue removes its subscriber instead of blocking the hub. */
  function Offer(s: Sub, e: Event, cap: nat): Sub {
    if s.closed || e.number <= s.after then s
    else if |s.queue| < cap then s.(queue := s.queue + [e], after := e.number)
    else s.(closed := true)
  }

  function Retire(hub: Hub): Hub {
    hub.(retired := true, subs := map k | k in hub.subs :: hub.subs[k].(closed := true))
  }

  function Bounded(history: seq<Event>, size: nat): seq<Event> {
    if |history| > size then history[|history| - size..] else history
  }

  function Publish(hub: Hub, e: Event, cfg: Config): Hub {
    if hub.retired then hub
    else if e.number != hub.cursor + 1 then Retire(hub)
    else hub.(cursor := e.number, history := Bounded(hub.history + [e], cfg.historySize),
              subs := map k | k in hub.subs :: Offer(hub.subs[k], e, cfg.queueSize))
  }

  function PublishAll(hub: Hub, events: seq<Event>, cfg: Config): Hub {
    if events == [] then hub else Publish(PublishAll(hub, events[..|events| - 1], cfg), events[|events| - 1], cfg)
  }

  /** History events after `covered`, queued for a new subscriber; None when they do not fit. */
  function Catchup(history: seq<Event>, covered: nat, cap: nat): Option<Sub> {
    if history == [] then Some(Sub(covered, [], false))
    else
      var s, e := Catchup(history[..|history| - 1], covered, cap), history[|history| - 1];
      if s.None? || e.number <= s.value.after then s
      else if |s.value.queue| >= cap then None
      else Some(s.value.(queue := s.value.queue + [e], after := e.number))
  }

  function Join(hub: Hub, covered: nat, cfg: Config): Option<Sub> {
    if hub.cursor > covered && (hub.history == [] || hub.history[0].number > covered + 1) then None
    else Catchup(hub.history, covered, cfg.queueSize)
  }

  // ----- the hub as the mutable object it is ------------------------------------------------------

  class LiveHub {
    const cfg: Config
    var cursor: nat
    var history: seq<Event>
    var subs: map<nat, Sub>
    var retired: bool

    function State(): Hub reads this { Hub(cursor, history, subs, retired) }

    constructor (covered: nat, cfg: Config)
      ensures State() == Hub(covered, [], map[], false) && this.cfg == cfg
    {
      this.cfg, cursor, history, subs, retired := cfg, covered, [], map[], false;
    }

    method DoRetire()
      modifies this
      ensures State() == Retire(old(State()))
    {
      retired := true;
      subs := map k | k in subs :: subs[k].(closed := true);
    }

    /** The batch loop of `run`, under the hub's lock. */
    method DoPublish(events: seq<Event>)
      modifies this
      ensures State() == PublishAll(old(State()), events, cfg)
    {
      hide Offer, PublishAll;
      ghost var start := State();
      NothingPublished(start, cfg);
      var i := 0;
      while i < |events| && !retired
        invariant 0 <= i <= |events| && start == old(State())
        invariant State() == PublishAll(start, events[..i], cfg)
      {
        PublishStep(start, events, i, cfg);
        var e := events[i];
        i := i + 1;
        if e.number != cursor + 1 {
          DoRetire();
        } else {
          cursor := e.number;
          history := history + [e];
          if |history| > cfg.historySize {
            history := history[|history| - cfg.historySize..];
          }
          subs := map k | k in subs :: Offer(subs[k], e, cfg.queueSize);
        }
      }
      RetiredStays(start, events, i, cfg);
      assert events[..|events|] == events;
    }

    /** The join loop of `Subscribe`, under the hub's lock. */
    method DoSubscribe(id: nat, covered: nat) returns (result: Result<Sub>)
      modifies this
      ensures result.Success? <==> Join(old(State()), covered, cfg).Some?
      ensures result.Failure? ==> result.error == ErrReset && State() == old(State())
      ensures result.Success? ==>
        result.value == Join(old(State()), covered, cfg).value && State() == old(State()).(subs := old(subs)[id := result.value])
    {
      if cursor > covered && (history == [] || history[0].number > covered + 1) {
        return Failure(ErrReset);
      }
      var sub, i := Sub(covered, [], false), 0;
      while i < |history|
        invariant 0 <= i <= |history|
        invariant Catchup(history[..i], covered, cfg.queueSize) == Some(sub)
      {
        assert history[..i + 1][..i] == history[..i];
        if history[i].number > sub.after {
          if |sub.queue| >= cfg.queueSize {
            CatchupFails(history, i + 1, covered, cfg.queueSize);
            return Failure(ErrReset);
          }
          sub := sub.(queue := sub.queue + [history[i]], after := history[i].number);
        }
        i := i + 1;
      }
      assert history[..|history|] == history;
      subs := subs[id := sub];
      return Success(sub);
    }
  }

  lemma NothingPublished(hub: Hub, cfg: Config)
    ensures PublishAll(hub, [], cfg) == hub
  {}

  lemma PublishStep(hub: Hub, events: seq<Event>, i: nat, cfg: Config)
    requires i < |events|
    ensures PublishAll(hub, events[..i + 1], cfg) == Publish(PublishAll(hub, events[..i], cfg), events[i], cfg)
  {
    hide Publish;
    assert events[..i + 1][..i] == events[..i];
  }

  lemma {:induction false} RetiredStays(hub: Hub, events: seq<Event>, i: nat, cfg: Config)
    requires i <= |events| && (i < |events| ==> PublishAll(hub, events[..i], cfg).retired)
    ensures PublishAll(hub, events, cfg) == PublishAll(hub, events[..i], cfg)
    decreases |events|
  {
    if i < |events| {
      var n := |events| - 1;
      assert events[..n][..i] == events[..i];
      RetiredStays(hub, events[..n], i, cfg);
    } else {
      assert events[..i] == events;
    }
  }

  lemma {:induction false} CatchupFails(history: seq<Event>, i: nat, covered: nat, cap: nat)
    requires i <= |history| && Catchup(history[..i], covered, cap).None?
    ensures Catchup(history, covered, cap).None?
    decreases |history|
  {
    if i < |history| {
      var n := |history| - 1;
      assert history[..n][..i] == history[..i];
      CatchupFails(history[..n], i, covered, cap);
    } else {
      assert history[..i] == history;
    }
  }

  // ----- handlers and the client ----------------------------------------------------------------

  /** Joining: the run was read, the hub not yet locked. */
  datatype Phase = Joining | Replaying(page: seq<Event>) | Live | Done

  /** `out` is everything written to the response, `start` the requested cursor. */
  datatype Handler = Handler(start: nat, after: nat, covered: nat, hub: nat, phase: Phase, out: seq<Event>)

  datatype Item = Printed(event: Event) | SnapshotReset(covered: nat)
  datatype Verdict = Watching | Finished | Refused | GapDetected | CursorRegressed

  /** `connection` is the handler being read and how many frames were consumed. */
  datatype Client = Client(start: nat, after: nat, connection: Option<(nat, nat)>, resetting: bool, printed: seq<Item>, verdict: Verdict)

  datatype World = World(cfg: Config, log: seq<Event>, retained: nat, hubs: seq<Hub>, pending: map<nat, seq<Event>>,
                         current: Option<nat>, handlers: seq<Handler>, client: Client)

  datatype Step =
    | Append(finished: bool, payload: string)
    | Trim(retained: nat)
    | Open(after: nat)
    | JoinHub(handler: nat)
    | Fetch(hub: nat, limit: nat)
    | Deliver(hub: nat)
    | RetireHub(hub: nat)
    | ReadPage(handler: nat, limit: nat)
    | Replay(handler: nat)
    | EndReplay(handler: nat)
    | Receive(handler: nat)
    | Close(handler: nat)
    | Connect
    | ReadFrame
    | Disconnect
    | Gone
    | Snapshot

  function Init(cfg: Config, start: nat): World {
    World(cfg, [], 1, [], map[], None, [], Client(start, start, None, false, [], Watching))
  }

  /** One page of the durable log, or a reset when its beginning was trimmed. */
  function Page(w: World, after: nat, limit: nat): Option<seq<Event>> {
    if after > |w.log| || after + 1 < w.retained then None
    else Some(w.log[after..if after + limit < |w.log| then after + limit else |w.log|])
  }

  /** Trimming never removes the newest position; appends number events from one. */
  function DoAppend(w: World, finished: bool, payload: string): World {
    w.(log := w.log + [Event(|w.log| + 1, finished, payload)])
  }

  function DoTrim(w: World, retained: nat): World {
    if w.retained <= retained <= |w.log| + 1 then w.(retained := retained) else w
  }

  /** `Subscribe` up to the lock: the run row is read once. */
  function DoOpen(w: World, after: nat): World {
    if after > |w.log| || after + 1 < w.retained then w
    else w.(handlers := w.handlers + [Handler(after, after, |w.log|, 0, Joining, [])])
  }

  function SetHandler(w: World, i: nat, h: Handler): World
    requires i < |w.handlers|
  {
    w.(handlers := w.handlers[i := h])
  }

  /** `Subscribe` under the locks: find or create the hub, catch up, register. */
  function DoJoin(w: World, i: nat): World {
    if i >= |w.handlers| || !w.handlers[i].phase.Joining? then w
    else
      var h := w.handlers[i];
      if w.current.Some? && w.current.value < |w.hubs| then
        var g := w.current.value;
        var sub := Join(w.hubs[g], h.covered, w.cfg);
        if sub.None? then SetHandler(w, i, h.(phase := Done))
        else SetHandler(w.(hubs := w.hubs[g := w.hubs[g].(subs := w.hubs[g].subs[i := sub.value])]), i, h.(hub := g, phase := Replaying([])))
      else
        var created := Hub(h.covered, [], map[i := Sub(h.covered, [], false)], false);
        SetHandler(w.(hubs := w.hubs + [created], current := Some(|w.hubs|)), i, h.(hub := |w.hubs|, phase := Replaying([])))
  }

  function Pending(w: World, g: nat): seq<Event> { if g in w.pending then w.pending[g] else [] }

  /** A poll: read past the cursor, outside the hub's lock. */
  function DoFetch(w: World, g: nat, limit: nat): World {
    if g >= |w.hubs| || w.hubs[g].retired || Pending(w, g) != [] then w
    else match Page(w, w.hubs[g].cursor, limit)
      case None => DoRetireHub(w, g)
      case Some(events) => w.(pending := w.pending[g := events])
  }

  /** One event of the fetched batch reaches the subscribers. */
  function DoDeliver(w: World, g: nat): World {
    if g >= |w.hubs| || Pending(w, g) == [] then w
    else
      var next := Publish(w.hubs[g], Pending(w, g)[0], w.cfg);
      w.(hubs := w.hubs[g := next], pending := w.pending[g := Pending(w, g)[1..]],
         current := if next.retired && w.current == Some(g) then None else w.current)
  }

  function DoRetireHub(w: World, g: nat): World {
    if g >= |w.hubs| then w
    else w.(hubs := w.hubs[g := Retire(w.hubs[g])], current := if w.current == Some(g) then None else w.current)
  }

  function DoReadPage(w: World, i: nat, limit: nat): World {
    if i >= |w.handlers| || w.handlers[i].phase != Replaying([]) || w.handlers[i].after >= w.handlers[i].covered then w
    else match Page(w, w.handlers[i].after, limit)
      case None => SetHandler(w, i, w.handlers[i].(phase := Done))
      case Some(events) => SetHandler(w, i, w.handlers[i].(phase := if events == [] then Done else Replaying(events)))
  }

  /** Write the next replayed event; past the covered position the page is dropped. */
  function DoReplay(w: World, i: nat): World {
    if i >= |w.handlers| || !w.handlers[i].phase.Replaying? || w.handlers[i].phase.page == [] then w
    else
      var h, e := w.handlers[i], w.handlers[i].phase.page[0];
      if e.number > h.covered then SetHandler(w, i, h.(phase := Replaying([])))
      else if e.number != h.after + 1 then SetHandler(w, i, h.(phase := Done))
      else SetHandler(w, i, h.(out := h.out + [e], after := e.number, phase := if e.finished then Done else Replaying(h.phase.page[1..])))
  }

  function DoEndReplay(w: World, i: nat): World {
    if i >= |w.handlers| || w.handlers[i].phase != Replaying([]) || w.handlers[i].after < w.handlers[i].covered then w
    else SetHandler(w, i, w.handlers[i].(phase := Live))
  }

  function SubOf(w: World, i: nat): Option<Sub> {
    if i < |w.handlers| && w.handlers[i].hub < |w.hubs| && i in w.hubs[w.handlers[i].hub].subs
    then Some(w.hubs[w.handlers[i].hub].subs[i]) else None
  }

  function SetSub(w: World, i: nat, s: Sub): World
    requires SubOf(w, i).Some?
  {
    var g := w.handlers[i].hub;
    w.(hubs := w.hubs[g := w.hubs[g].(subs := w.hubs[g].subs[i := s])])
  }

  /** The live loop takes one event; there is no gap test here. */
  function DoReceive(w: World, i: nat): World {
    if SubOf(w, i).None? || !w.handlers[i].phase.Live? then w
    else
      var h, s := w.handlers[i], SubOf(w, i).value;
      if s.queue == [] then (if s.closed then SetHandler(w, i, h.(phase := Done)) else w)
      else
        var e, rest := s.queue[0], SetSub(w, i, s.(queue := s.queue[1..]));
        if e.number <= h.after then rest
        else SetHandler(rest, i, h.(out := h.out + [e], after := e.number, phase := if e.finished then Done else Live))
  }

  /** The handler ends, for whatever reason, and closes its subscription; an idle hub goes. */
  function DoClose(w: World, i: nat): World {
    if i >= |w.handlers| then w
    else
      var ended := SetHandler(w, i, w.handlers[i].(phase := Done));
      if SubOf(w, i).None? || w.handlers[i].phase.Joining? then ended
      else
        var g, v := w.handlers[i].hub, SetSub(ended, i, SubOf(w, i).value.(closed := true));
        if (forall k :: k in v.hubs[g].subs ==> v.hubs[g].subs[k].closed) && v.current == Some(g) then v.(current := None) else v
  }

  // ----- the client ------------------------------------------------------------------------------------

  function DoConnect(w: World): World {
    var c := w.client;
    if c.verdict != Watching || c.connection.Some? || c.resetting then w
    else if c.after > |w.log| then w.(client := c.(verdict := Refused))
    else if c.after + 1 < w.retained then w.(client := c.(resetting := true))
    else DoOpen(w, c.after).(client := c.(connection := Some((|w.handlers|, 0))))
  }

  /** `consumeEvents` dispatching one complete frame. */
  function DoReadFrame(w: World): World {
    var c := w.client;
    if c.verdict != Watching || c.connection.None? || c.connection.value.0 >= |w.handlers| then w
    else
      var i, n := c.connection.value.0, c.connection.value.1;
      if n >= |w.handlers[i].out| then w
      else
        var e, read := w.handlers[i].out[n], c.(connection := Some((i, n + 1)));
        if e.number <= c.after then w.(client := read)
        else if e.number != c.after + 1 then w.(client := read.(verdict := GapDetected))
        else w.(client := read.(after := e.number, printed := c.printed + [Printed(e)], verdict := if e.finished then Finished else Watching))
  }

  /** A handler refused before its first byte replies 410: the join or the first page
      met a reset. */
  function DoGone(w: World): World {
    var c := w.client;
    if c.verdict != Watching || c.connection.None? || c.connection.value.0 >= |w.handlers| then w
    else
      var h := w.handlers[c.connection.value.0];
      if !h.phase.Done? || h.out != [] then w else w.(client := c.(connection := None, resetting := true))
  }

  /** The reply 410 is answered by a snapshot read. */
  function DoSnapshot(w: World): World {
    var c := w.client;
    if c.verdict != Watching || !c.resetting then w
    else if |w.log| < c.after then w.(client := c.(verdict := CursorRegressed))
    else w.(client := c.(after := |w.log|, resetting := false, printed := c.printed + [SnapshotReset(|w.log|)]))
  }

  function Do(w: World, step: Step): World {
    match step
    case Append(finished, payload) => DoAppend(w, finished, payload)
    case Trim(retained) => DoTrim(w, retained)
    case Open(after) => DoOpen(w, after)
    case JoinHub(i) => DoJoin(w, i)
    case Fetch(g, limit) => DoFetch(w, g, limit)
    case Deliver(g) => DoDeliver(w, g)
    case RetireHub(g) => DoRetireHub(w, g)
    case ReadPage(i, limit) => DoReadPage(w, i, limit)
    case Replay(i) => DoReplay(w, i)
    case EndReplay(i) => DoEndReplay(w, i)
    case Receive(i) => DoReceive(w, i)
    case Close(i) => DoClose(w, i)
    case Connect => DoConnect(w)
    case ReadFrame => DoReadFrame(w)
    case Disconnect => w.(client := w.client.(connection := None))
    case Gone => DoGone(w)
    case Snapshot => DoSnapshot(w)
  }

  function Exec(w: World, steps: seq<Step>): World {
    if steps == [] then w else Do(Exec(w, steps[..|steps| - 1]), steps[|steps| - 1])
  }
}
