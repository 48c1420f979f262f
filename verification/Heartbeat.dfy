/** The heartbeat as the program runs it: shared objects changed in place, each method proved against the model. */
module Heartbeats {
  import opened Messages
  import opened Seqs
  import opened Sessions
  import opened Pendings
  import opened HeartbeatModel
  import opened Runs
  import opened Channels
  import HexCodec

  class MetricsSnapshot {
    var inflight: nat
    var queued: nat
    var audioBytes: nat
    var backpressure: nat

    ghost function View(): Metrics
      reads this
    { Metrics(inflight, queued, audioBytes, backpressure) }

    constructor ()
      ensures View() == Metrics(0, 0, 0, 0)
    {
      inflight, queued, audioBytes, backpressure := 0, 0, 0, 0;
    }

    method IncInflight()
      modifies this`inflight
      ensures View() == old(View()).IncInflight()
    {
      inflight := (inflight + 1) % WORD;
    }

    method DecInflight()
      modifies this`inflight
      ensures View() == old(View()).DecInflight()
    {
      inflight := (inflight - 1) % WORD;
    }

    method AddAudioBytes(n: int)
      modifies this`audioBytes
      ensures View() == old(View()).AddAudioBytes(n)
    {
      audioBytes := (audioBytes + n) % WORD;
    }

    method SetBackpressureLevel(level: nat)
      modifies this`backpressure
      ensures View() == old(View()).(backpressure := level)
    {
      backpressure := level;
    }
  }

  /** Collects the outputs of one tick; `emitted` remembers what earlier ticks have taken. */
  class ChangeSetBuilder {
    var changes: ChangeSet
    ghost var emitted: ChangeSet

    ghost function Total(): ChangeSet
      reads this
    { emitted.Then(changes) }

    constructor ()
      ensures changes == EMPTY_CHANGES && Total() == EMPTY_CHANGES
    {
      changes, emitted := EMPTY_CHANGES, EMPTY_CHANGES;
    }

    method AddFrame(f: Frame)
      modifies this`changes
      ensures Total() == old(Total()).(frames := old(Total()).frames + [f])
    {
      changes := changes.(frames := changes.frames + [f]);
    }

    method AddWrite(x: Write)
      modifies this`changes
      ensures Total() == old(Total()).(writes := old(Total()).writes + [x])
    {
      changes := changes.(writes := changes.writes + [x]);
    }

    method AddClose(c: Close)
      modifies this`changes
      ensures Total() == old(Total()).(closes := old(Total()).closes + [c])
    {
      changes := changes.(closes := changes.closes + [c]);
    }

    method AddJob(j: Job)
      modifies this`changes
      ensures Total() == old(Total()).(jobs := old(Total()).jobs + [j])
    {
      changes := changes.(jobs := changes.jobs + [j]);
    }

    /** The collected outputs leave the builder, which starts afresh. */
    method Collect() returns (cs: ChangeSet)
      modifies this
      ensures cs == old(changes) && emitted == old(emitted).Then(cs)
      ensures changes == EMPTY_CHANGES && Total() == old(Total())
    {
      cs := changes;
      changes := EMPTY_CHANGES;
      emitted := emitted.Then(cs);
    }
  }

  class DataBoard {
    const pool: SessionPool
    const pending: PendingRequestStore
    const metrics: MetricsSnapshot

    constructor (maxSize: nat, idleTimeout: int, maxLifetime: int)
      ensures fresh(pool) && fresh(pending) && fresh(metrics)
      ensures pool.View() == Pool(map[], [], maxSize, idleTimeout, maxLifetime)
      ensures pending.store == map[] && metrics.View() == Metrics(0, 0, 0, 0)
    {
      pool := new SessionPool(maxSize, idleTimeout, maxLifetime);
      pending := new PendingRequestStore();
      metrics := new MetricsSnapshot();
    }
  }

  class BackpressureController {
    const metrics: MetricsSnapshot
    const cfg: Config

    constructor (metrics: MetricsSnapshot, cfg: Config)
      ensures this.metrics == metrics && this.cfg == cfg
    {
      this.metrics, this.cfg := metrics, cfg;
    }

    method Evaluate() returns (admit: bool, level: nat)
      modifies metrics`backpressure
      ensures admit == Admits(cfg, old(metrics.View())) && metrics.View() == Evaluated(cfg, old(metrics.View()))
      ensures level == if metrics.inflight > metrics.queued then metrics.inflight else metrics.queued
    {
      level := if metrics.inflight > metrics.queued then metrics.inflight else metrics.queued;
      if metrics.inflight >= cfg.highWatermark || metrics.queued >= cfg.queueHighWatermark {
        admit := false;
        metrics.SetBackpressureLevel(2);
      } else if metrics.inflight >= cfg.lowWatermark {
        admit := true;
        metrics.SetBackpressureLevel(1);
      } else {
        admit := true;
        metrics.SetBackpressureLevel(0);
      }
    }
  }

  class MessageProcessor {
    const board: DataBoard
    const requests: CopyChannel<Message>
    const wsEvents: CopyChannel<Message>

    constructor (board: DataBoard, requests: CopyChannel<Message>, wsEvents: CopyChannel<Message>)
      ensures this.board == board && this.requests == requests && this.wsEvents == wsEvents
    {
      this.board, this.requests, this.wsEvents := board, requests, wsEvents;
    }

    /** Requests first, then upstream events, each in arrival order. */
    method DrainBatch() returns (batch: seq<Message>)
      requires requests != wsEvents
      modifies requests`buffer, wsEvents`buffer
      ensures batch == old(requests.buffer) + old(wsEvents.buffer) && requests.buffer == [] && wsEvents.buffer == []
    {
      batch := requests.SwapOutAll([]);
      var ws := wsEvents.SwapOutAll([]);
      batch := batch + ws;
    }

    method AcquireOrCreateSession(c: Choice) returns (h: Option<(Id, bool)>)
      modifies board.pool
      ensures match Acquire(old(board.pool.View()), c)
              case None => h == None && board.pool.View() == old(board.pool.View())
              case Some(g) => h == Some((g.session, g.reused)) && board.pool.View() == g.pool
    {
      var idle := board.pool.FindIdleLeastRecentlyUsed();
      if idle.Some? {
        board.pool.MarkActive(idle.value, c.now);
        return Some((idle.value, true));
      }
      var name := SessionName(c.entropy);
      var added := board.pool.Add(name, Session(Connecting, 0, 0, "", ""));
      if !added { return None; }
      return Some((name, false));
    }

    method BindRequest(req: Request, session: Id)
      modifies board.pending, board.metrics`inflight
      ensures board.pending.store == old(board.pending.store)[req.id := UpstreamPending(req, session)]
      ensures board.metrics.View() == old(board.metrics.View()).IncInflight()
    {
      board.pending.Add(req.id, UpstreamPending(req, session));
      board.metrics.IncInflight();
    }
  }

  class DataEvolutionEngine {
    const board: DataBoard

    constructor (board: DataBoard)
      ensures this.board == board
    {
      this.board := board;
    }

    method CloseBroken(changed: set<Id>) returns (closes: seq<Close>, ghost errored: seq<Id>)
      modifies board.pool
      ensures Enumerates(errored, ErroredSet(old(board.pool.View()), changed))
              && closes == Notices(errored, EvolveSessionClosed)
      ensures board.pool.View() == old(board.pool.View()).RemoveAll(ErroredSet(old(board.pool.View()), changed))
    {
      ghost var p := board.pool.View();
      closes, errored := [], [];
      ghost var gone: set<Id> := {};
      RemoveNothing(p);
      var rest := changed;
      while rest != {}
        invariant rest <= changed && board.pool.View() == p.RemoveAll(gone) && gone == ErroredSet(p, changed - rest)
        invariant Enumerates(errored, gone) && closes == Notices(errored, EvolveSessionClosed)
      {
        var sid :| sid in rest;
        ghost var was := rest;
        rest := rest - {sid};
        assert sid !in gone;
        if sid in board.pool.sessions &&
           (board.pool.sessions[sid].state == Errored || board.pool.sessions[sid].state == Closed)
        {
          closes := closes + [Close(sid, EvolveSessionClosed)];
          board.pool.MarkClosed(sid);
          RemoveTwice(p, gone, {sid});
          errored := errored + [sid];
          gone := gone + {sid};
        }
        assert gone == ErroredSet(p, changed - rest);
      }
      assert changed - rest == changed;
    }

    method CloseAll(ids: seq<Id>, reason: CloseReason) returns (closes: seq<Close>)
      modifies board.pool
      ensures closes == Notices(ids, reason)
      ensures board.pool.View() == old(board.pool.View()).RemoveAll(SetOf(ids))
    {
      ghost var p := board.pool.View();
      closes := [];
      RemoveNothing(p);
      assert SetOf(ids[..0]) == {};
      for i := 0 to |ids|
        invariant closes == Notices(ids[..i], reason)
        invariant board.pool.View() == p.RemoveAll(SetOf(ids[..i]))
      {
        closes := closes + [Close(ids[i], reason)];
        board.pool.MarkClosed(ids[i]);
        RemoveTwice(p, SetOf(ids[..i]), {ids[i]});
        SetOfPrefix(ids, i);
        assert Notices(ids[..i + 1], reason) == Notices(ids[..i], reason) + [Close(ids[i], reason)];
      }
      assert ids[..|ids|] == ids;
    }

    method SweepTerminal() returns (closes: seq<Close>, ghost terminal: seq<Id>)
      modifies board.pending
      ensures Enumerates(terminal, TerminalSet(old(board.pending.store)))
      ensures closes == TerminalNotices(old(board.pending.store), terminal)
      ensures board.pending.store == old(board.pending.store) - TerminalSet(old(board.pending.store))
    {
      var ids := board.pending.CollectTerminal();
      terminal := ids;
      assert forall k :: 0 <= k < |ids| ==> ids[k] in ids;
      ghost var store := board.pending.store;
      closes := [];
      for i := 0 to |ids|
        invariant |closes| == i
        invariant forall k :: 0 <= k < i ==> closes[k] == Close(store[ids[k]].session, RequestFailedOrCancelled)
        invariant board.pending.store == store - SetOf(ids[..i])
      {
        assert ids[i] in ids && ids[i] !in ids[..i];
        if ids[i] in board.pending.store {
          closes := closes + [Close(board.pending.store[ids[i]].session, RequestFailedOrCancelled)];
          board.pending.Remove(ids[i]);
        }
        SetOfPrefix(ids, i);
      }
      assert ids[..|ids|] == ids;
      assert SetOf(ids) == TerminalSet(store);
    }

    /** One pass; `w` is the heartbeat's state as the pass begins. */
    method EvolveOnce(changed: set<Id>, now: Time, ghost w: Work) returns (closes: seq<Close>, ghost o: Orders)
      requires w.pool == board.pool.View() && w.pending == board.pending.store && w.changedSessions == changed
      modifies board.pool, board.pending
      ensures OrdersFit(w, now, o) && closes == Closes(w, now, o)
      ensures board.pool.View() == Evolve(w, now, o).pool && board.pending.store == Evolve(w, now, o).pending
    {
      var broken, errored := CloseBroken(changed);
      var lifetime := board.pool.CollectLifetimeExpired(now);
      var tooOld := CloseAll(lifetime, LifetimeExceeded);
      assert SetOf(lifetime) == LifetimeSet(w.pool.RemoveAll(ErroredSet(w.pool, changed)), now);
      assert board.pool.View() == Aged(w.pool, changed, now);
      var idle := board.pool.CollectIdleExpired(now);
      var tooIdle := CloseAll(idle, IdleTimedOut);
      var dead, terminal := SweepTerminal();
      closes := broken + tooOld + tooIdle + dead;
      o := Orders(errored, lifetime, terminal);
    }
  }

  class Heartbeat {
    const cfg: Config
    const board: DataBoard
    const processor: MessageProcessor
    const evolution: DataEvolutionEngine
    const builder: ChangeSetBuilder
    const backpressure: BackpressureController
    /** The failure events published on the bus. */
    var published: seq<SendFailure>
    ghost var audit: Audit

    ghost predicate Valid()
      reads this
    {
      && processor.board == board && evolution.board == board
      && backpressure.metrics == board.metrics && backpressure.cfg == cfg
      && processor.requests != processor.wsEvents
    }

    ghost function State(changedSessions: set<Id>, changedRequests: set<Id>): Work
      reads this, board.pool, board.pending, board.metrics, builder
    {
      Work(board.pool.View(), board.pending.store, board.metrics.View(), builder.Total(), published,
           changedSessions, changedRequests, audit)
    }

    constructor (cfg: Config, board: DataBoard, requests: CopyChannel<Message>, wsEvents: CopyChannel<Message>)
      requires requests != wsEvents
      ensures Valid() && this.cfg == cfg && this.board == board && fresh(builder) && builder.changes == EMPTY_CHANGES
      ensures processor.requests == requests && processor.wsEvents == wsEvents
      ensures State({}, {}) == Work(board.pool.View(), board.pending.store, board.metrics.View(), EMPTY_CHANGES, [],
                                    {}, {}, FRESH_AUDIT)
    {
      this.cfg, this.board := cfg, board;
      processor := new MessageProcessor(board, requests, wsEvents);
      evolution := new DataEvolutionEngine(board);
      builder := new ChangeSetBuilder();
      backpressure := new BackpressureController(board.metrics, cfg);
      published, audit := [], FRESH_AUDIT;
    }

    method StartLocal(req: Request, cs: set<Id>, cr: set<Id>) returns (cr': set<Id>)
      requires Valid()
      modifies this, board.pending, board.metrics, builder`changes
      ensures State(cs, cr') == AskLocal(old(State(cs, cr)), req)
    {
      if req.id !in board.pending.store {
        board.pending.Add(req.id, LocalPending(req));
      } else {
        var p := board.pending.store[req.id];
        p := p.(sampleRate := req.audio.sampleRate);
        p := p.(channels := req.audio.channel);
        p := p.(format := Pcm);
        p := p.(state := PendingState.Streaming);
        board.pending.Add(req.id, p);
      }
      board.metrics.IncInflight();
      cr' := cr + {req.id};
      var speed := if req.voice.speed > 0.0 then req.voice.speed else 1.0;
      builder.AddJob(Job(req.id, req.text, req.voice.voiceId, speed));
    }

    method StartUpstream(req: Request, c: Choice, cs: set<Id>, cr: set<Id>) returns (cs': set<Id>, cr': set<Id>)
      requires Valid()
      modifies this, board.pool, board.pending, board.metrics, builder`changes
      ensures State(cs', cr') == AskUpstream(old(State(cs, cr)), req, c)
    {
      cs', cr' := cs, cr;
      var h := processor.AcquireOrCreateSession(c);
      if h.None? {
        published := published + [SendFailure(req.id, NoSessionAvailable)];
        return;
      }
      var (session, reused) := h.value;
      processor.BindRequest(req, session);
      cs' := cs + {session};
      cr' := cr + {req.id};
      board.pool.SetCurrentRequest(session, req.id);
      if !reused {
        builder.AddFrame(StartFrame(session, req));
      }
      builder.AddFrame(ContinueFrame(session, req));
      audit := audit.(bound := audit.bound + [req.id], lease := audit.lease + [HandOut(session)]);
      assert reused ==> old(builder.Total()).frames + [] == old(builder.Total()).frames;
    }

    method HandleRequest(req: Request, c: Choice, cs: set<Id>, cr: set<Id>) returns (cs': set<Id>, cr': set<Id>)
      requires Valid()
      modifies this, board.pool, board.pending, board.metrics, builder`changes
      ensures State(cs', cr') == HandleAsk(cfg, old(State(cs, cr)), req, c)
    {
      cs', cr' := cs, cr;
      var admit, _ := backpressure.Evaluate();
      if !admit {
        published := published + [SendFailure(req.id, BackpressureAdmissionDenied)];
        return;
      }
      var useLocal := ShouldUseLocal(cfg, req, c.engineReady);
      if useLocal {
        cr' := StartLocal(req, cs, cr);
      } else {
        cs', cr' := StartUpstream(req, c, cs, cr);
      }
    }

    method HandleAudioChunk(rsp: Response, cs: set<Id>, cr: set<Id>) returns (cr': set<Id>)
      requires Valid()
      modifies board.pending
      ensures State(cs, cr') == HandleChunk(old(State(cs, cr)), rsp)
    {
      var rid := if rsp.session in board.pool.sessions then board.pool.sessions[rsp.session].currentRequest else "";
      if rid == "" { return cr; }
      var bytes := HexCodec.HexDecode(rsp.audioHex);
      var _ := board.pending.AppendChunk(rid, bytes, rsp.isFinal, rsp.usageCharacters);
      cr' := cr + {rid};
    }

    /** Fails every pending request of a session; on TaskFailed the upstream's status is recorded too. */
    method FailRequests(session: Id, withStatus: bool, code: int, msg: string, cr: set<Id>) returns (cr': set<Id>)
      requires Valid()
      modifies board.pending
      ensures board.pending.store == if withStatus then FailSession(old(board.pending.store), session, code, msg)
                                     else LoseSession(old(board.pending.store), session)
      ensures cr' == cr + BySession(old(board.pending.store), session)
    {
      var ids := board.pending.CollectBySession(session);
      ghost var store := board.pending.store;
      ghost var done := if withStatus then FailSession(store, session, code, msg) else LoseSession(store, session);
      cr' := cr;
      for i := 0 to |ids|
        invariant board.pending.store.Keys == store.Keys && cr' == cr + SetOf(ids[..i])
        invariant forall id <- store :: board.pending.store[id] == if id in ids[..i] then done[id] else store[id]
      {
        assert ids[i] in ids && ids[i] !in ids[..i];
        SetOfPrefix(ids, i);
        assert ids[..i + 1] == ids[..i] + [ids[i]];
        board.pending.SetState(ids[i], PendingState.Failed);
        if withStatus { board.pending.SetStatus(ids[i], code, msg); }
        cr' := cr' + {ids[i]};
      }
      assert ids[..|ids|] == ids && SetOf(ids) == BySession(store, session);
      assert board.pending.store == done;
    }

    method HandleResponse(rsp: Response, c: Choice, cs: set<Id>, cr: set<Id>) returns (cs': set<Id>, cr': set<Id>)
      requires Valid()
      modifies this, board.pool, board.pending
      ensures State(cs', cr') == HandleEvent(old(State(cs, cr)), rsp, c)
    {
      cs', cr' := cs, cr;
      match rsp.kind
      case Connected =>
        board.pool.MarkReady(rsp.session, c.now);
        cs' := cs + {rsp.session};
        audit := audit.(lease := audit.lease + [Reconnect(rsp.session)]);
      case TaskStarted =>
      case AudioChunk =>
        cr' := HandleAudioChunk(rsp, cs, cr);
      case TaskFinished =>
        cs' := cs + {rsp.session};
      case TaskFailed =>
        cr' := FailRequests(rsp.session, true, rsp.statusCode, rsp.statusMsg, cr);
        board.pool.MarkErrored(rsp.session, rsp.statusMsg);
        cs' := cs + {rsp.session};
      case Disconnected =>
        cr' := FailRequests(rsp.session, false, 0, "", cr);
        board.pool.MarkClosed(rsp.session);
        cs' := cs + {rsp.session};
    }

    /** The tail that both engine reports share. */
    method Deliver(x: Write, cs: set<Id>, cr: set<Id>)
      requires Valid()
      modifies this, board.pending, board.metrics, builder`changes
      ensures State(cs, cr) == Delivered(old(State(cs, cr)), x)
    {
      builder.AddWrite(x);
      board.metrics.AddAudioBytes(|x.audio|);
      board.metrics.DecInflight();
      board.pending.Remove(x.id);
      audit := audit.(delivered := audit.delivered + [x]);
    }

    method EmitCompleted(id: Id, cs: set<Id>, cr: set<Id>) returns (cs': set<Id>, cr': set<Id>)
      requires Valid()
      modifies this, board.pool, board.pending, board.metrics, builder`changes
      ensures State(cs', cr') == EmitOne(old(State(cs, cr)), id)
    {
      cs', cr' := cs, cr;
      if id !in board.pending.store { return; }
      var p := board.pending.store[id];
      builder.AddWrite(EmittedWrite(id, p));
      board.metrics.AddAudioBytes(p.cumulativeBytes);
      board.metrics.DecInflight();
      board.pool.MarkDraining(p.session);
      cs' := cs + {p.session};
      cr' := cr + {id};
      board.pending.Remove(id);
      audit := audit.(emitted := audit.emitted + [id]);
    }

    method HandleMessage(m: Message, c: Choice, cs: set<Id>, cr: set<Id>) returns (cs': set<Id>, cr': set<Id>)
      requires Valid()
      modifies this, board.pool, board.pending, board.metrics, builder`changes
      ensures State(cs', cr') == Handle(cfg, old(State(cs, cr)), m, c)
    {
      cs', cr' := cs, cr;
      audit := audit.(clock := c.now);
      match m
      case Ask(req) =>
        cs', cr' := HandleRequest(req, c, cs, cr);
      case WsEvent(rsp) =>
        cs', cr' := HandleResponse(rsp, c, cs, cr);
      case Cancel(id) =>
        board.pending.SetState(id, Cancelled);
        cr' := cr + {id};
      case SynthComplete(done) =>
        Deliver(CompleteWrite(done), cs, cr);
      case SynthFailed(id, code, msg) =>
        Deliver(FailedWrite(id, code, msg), cs, cr);
        cr' := cr + {id};
    }

    method ProcessBatch(batch: seq<Message>, choices: seq<Choice>) returns (cs: set<Id>, cr: set<Id>)
      requires Valid() && |choices| == |batch|
      modifies this, board.pool, board.pending, board.metrics, builder`changes
      ensures State(cs, cr) == Process(cfg, old(State({}, {})), batch, choices)
    {
      ghost var goal := Process(cfg, State({}, {}), batch, choices);
      cs, cr := {}, {};
      assert batch[0..] == batch && choices[0..] == choices;
      for i := 0 to |batch|
        invariant Process(cfg, State(cs, cr), batch[i..], choices[i..]) == goal
      {
        assert batch[i..][1..] == batch[i + 1..] && choices[i..][1..] == choices[i + 1..];
        cs, cr := HandleMessage(batch[i], choices[i], cs, cr);
      }
    }

    method EmitReady(cs: set<Id>, cr: set<Id>) returns (cs': set<Id>, cr': set<Id>, ghost ready: seq<Id>)
      requires Valid()
      modifies this, board.pool, board.pending, board.metrics, builder`changes
      ensures Enumerates(ready, ReadySet(old(board.pending.store)))
      ensures State(cs', cr') == EmitAll(old(State(cs, cr)), ready)
    {
      var ids := board.pending.FindReadyToEmit();
      ready := ids;
      ghost var goal := EmitAll(State(cs, cr), ids);
      cs', cr' := cs, cr;
      assert ids[0..] == ids;
      for i := 0 to |ids|
        invariant EmitAll(State(cs', cr'), ids[i..]) == goal
      {
        assert ids[i..][1..] == ids[i + 1..];
        cs', cr' := EmitCompleted(ids[i], cs', cr');
      }
    }

    method AddCloses(closes: seq<Close>)
      modifies builder`changes
      ensures builder.Total() == old(builder.Total()).(closes := old(builder.Total()).closes + closes)
    {
      for i := 0 to |closes|
        invariant builder.Total() == old(builder.Total()).(closes := old(builder.Total()).closes + closes[..i])
      {
        builder.AddClose(closes[i]);
        assert closes[..i + 1] == closes[..i] + [closes[i]];
      }
      assert closes[..|closes|] == closes;
    }

    method EvolveBoard(cs: set<Id>, cr: set<Id>, now: Time) returns (ghost o: Orders)
      requires Valid()
      modifies this, board.pool, board.pending, builder`changes
      ensures OrdersFit(old(State(cs, cr)), now, o) && State(cs, cr) == Evolve(old(State(cs, cr)), now, o)
    {
      ghost var w := State(cs, cr);
      var closes;
      closes, o := evolution.EvolveOnce(cs, now, w);
      AddCloses(closes);
      audit := audit.(clock := now);
    }

    /** Everything a tick does to the board once the batch is drained. */
    method Beat(batch: seq<Message>, choices: seq<Choice>, now: Time) returns (ghost plan: Plan)
      requires Valid() && |choices| == |batch|
      modifies this, board.pool, board.pending, board.metrics, builder`changes
      ensures plan.choices == choices && plan.now == now && PlanFits(cfg, old(State({}, {})), batch, plan)
      ensures Fresh(State({}, {})) == Fresh(HeartbeatModel.Tick(cfg, old(State({}, {})), batch, plan))
    {
      assert Fresh(State({}, {})) == State({}, {});
      var sessions, requests := ProcessBatch(batch, choices);
      ghost var ready: seq<Id>;
      sessions, requests, ready := EmitReady(sessions, requests);
      ghost var o := EvolveBoard(sessions, requests, now);
      plan := Plan(choices, ready, now, o);
    }

    /** One tick: the batch is drained and handled, finished requests are emitted, the board evolves once. */
    method Tick(choices: seq<Choice>, now: Time) returns (cs: ChangeSet, ghost plan: Plan)
      requires Valid() && builder.changes == EMPTY_CHANGES
      requires |choices| == |processor.requests.buffer| + |processor.wsEvents.buffer|
      modifies this, board.pool, board.pending, board.metrics, builder, processor.requests`buffer,
               processor.wsEvents`buffer
      ensures processor.requests.buffer == [] && processor.wsEvents.buffer == [] && builder.changes == EMPTY_CHANGES
      ensures plan.choices == choices && plan.now == now
      ensures var batch := old(processor.requests.buffer) + old(processor.wsEvents.buffer);
              && PlanFits(cfg, old(State({}, {})), batch, plan)
              && Fresh(State({}, {})) == Fresh(HeartbeatModel.Tick(cfg, old(State({}, {})), batch, plan))
      ensures builder.Total() == old(builder.Total()).Then(cs)
    {
      ThenEmpty(builder.emitted);
      ghost var before := State({}, {});
      var batch := processor.DrainBatch();
      assert State({}, {}) == before;
      plan := Beat(batch, choices, now);
      ghost var after := State({}, {});
      cs := builder.Collect();
      ThenEmpty(builder.emitted);
      assert State({}, {}) == after;
    }
  }
}
