/**
 * One heartbeat tick as a function of the board, the drained batch and the choices the environment makes:
 * clock readings, generated session names, engine readiness and the iteration order of hash maps.
 */
module HeartbeatModel {
  import opened Messages
  import opened Seqs
  import opened Sessions
  import opened Pendings
  import HexCodec

  datatype Config = Config(highWatermark: nat, lowWatermark: nat, queueHighWatermark: nat,
                           hasEngine: bool, preferLocal: bool)

  datatype Metrics = Metrics(inflight: nat, queued: nat, audioBytes: nat, backpressure: nat) {
    function IncInflight(): Metrics { this.(inflight := (inflight + 1) % WORD) }
    function DecInflight(): Metrics { this.(inflight := (inflight - 1) % WORD) }
    function AddAudioBytes(n: int): Metrics { this.(audioBytes := (audioBytes + n) % WORD) }
  }

  /** What the environment supplies while one message is handled. */
  datatype Choice = Choice(now: Time, entropy: string, engineReady: bool)

  datatype Lease = HandOut(session: Id) | Reconnect(session: Id)

  /**
   * History that the program does not keep and that changes nothing it does: the last clock reading, the ids bound
   * upstream, the local writes, the ids of upstream writes, and the hand-outs and connections of sessions.
   */
  datatype Audit = Audit(clock: Time, bound: seq<Id>, delivered: seq<Write>, emitted: seq<Id>, lease: seq<Lease>)

  /** The board, the output so far, the events published so far and the tick's two change sets. */
  datatype Work = Work(pool: Pool, pending: Store, metrics: Metrics, out: ChangeSet, failures: seq<SendFailure>,
                       changedSessions: set<Id>, changedRequests: set<Id>, audit: Audit)

  function SessionName(entropy: string): Id { "s-" + entropy }

  // ---- requests ------------------------------------------------------------------------------

  predicate Admits(cfg: Config, m: Metrics) {
    !(m.inflight >= cfg.highWatermark || m.queued >= cfg.queueHighWatermark)
  }

  function Evaluated(cfg: Config, m: Metrics): Metrics {
    m.(backpressure := if !Admits(cfg, m) then 2 else if m.inflight >= cfg.lowWatermark then 1 else 0)
  }

  predicate ShouldUseLocal(cfg: Config, req: Request, engineReady: bool) {
    cfg.hasEngine && engineReady && req.backend != Upstream && (req.backend == Local || cfg.preferLocal)
  }

  function JobOf(req: Request): Job {
    Job(req.id, req.text, req.voice.voiceId, if req.voice.speed > 0.0 then req.voice.speed else 1.0)
  }

  function LocalPending(req: Request): Pending {
    Pending("", PendingState.Streaming, [], 0, req.audio.sampleRate, req.audio.channel, Pcm, 0, 0, "", false)
  }

  function UpstreamPending(req: Request, session: Id): Pending {
    Pending(session, AwaitingSession, [], 0, req.audio.sampleRate, req.audio.channel, req.audio.format, 0, 0, "", false)
  }

  function Denied(w: Work, id: Id, reason: FailureReason): Work {
    w.(failures := w.failures + [SendFailure(id, reason)])
  }

  function AskLocal(w: Work, req: Request): Work {
    w.(pending := w.pending[req.id :=
         if req.id !in w.pending then LocalPending(req)
         else w.pending[req.id].(sampleRate := req.audio.sampleRate, channels := req.audio.channel, format := Pcm,
                                 state := PendingState.Streaming)],
       metrics := w.metrics.IncInflight(),
       out := w.out.(jobs := w.out.jobs + [JobOf(req)]),
       changedRequests := w.changedRequests + {req.id})
  }

  function StartFrame(session: Id, req: Request): Frame {
    Frame(session, TaskStart, StartPayload(req.model, req.voice, req.audio))
  }

  function ContinueFrame(session: Id, req: Request): Frame {
    Frame(session, TaskContinue, ContinuePayload(req.text))
  }

  /** The request is bound to a session that has just been handed out. */
  function Bound(w: Work, req: Request, session: Id, reused: bool): Work {
    w.(pool := w.pool.SetCurrent(session, req.id),
       pending := w.pending[req.id := UpstreamPending(req, session)],
       metrics := w.metrics.IncInflight(),
       out := w.out.(frames := w.out.frames + (if reused then [] else [StartFrame(session, req)])
                               + [ContinueFrame(session, req)]),
       changedSessions := w.changedSessions + {session},
       changedRequests := w.changedRequests + {req.id},
       audit := w.audit.(bound := w.audit.bound + [req.id], lease := w.audit.lease + [HandOut(session)]))
  }

  /** The pool after a hand-out, the session handed out and whether it was used before. */
  datatype Grant = Grant(pool: Pool, session: Id, reused: bool)

  function Acquire(p: Pool, c: Choice): Option<Grant> {
    match LastReady(p, p.lru)
    case Some(idle) => Some(Grant(p.MarkActive(idle, c.now), idle, true))
    case None =>
      if p.Full() then None
      else Some(Grant(p.Add(SessionName(c.entropy), Session(Connecting, 0, 0, "", "")), SessionName(c.entropy), false))
  }

  function AskUpstream(w: Work, req: Request, c: Choice): Work {
    match Acquire(w.pool, c)
    case None => Denied(w, req.id, NoSessionAvailable)
    case Some(g) => Bound(w.(pool := g.pool), req, g.session, g.reused)
  }

  function HandleAsk(cfg: Config, w: Work, req: Request, c: Choice): Work {
    var v := w.(metrics := Evaluated(cfg, w.metrics));
    if !Admits(cfg, w.metrics) then Denied(v, req.id, BackpressureAdmissionDenied)
    else if ShouldUseLocal(cfg, req, c.engineReady) then AskLocal(v, req)
    else AskUpstream(v, req, c)
  }

  // ---- upstream events -----------------------------------------------------------------------

  function HandleChunk(w: Work, rsp: Response): Work {
    var id := if rsp.session in w.pool.sessions then w.pool.sessions[rsp.session].currentRequest else "";
    if id == "" then w
    else
      w.(pending := WithChunk(w.pending, id, HexCodec.Decoded(rsp.audioHex), rsp.isFinal, rsp.usageCharacters),
         changedRequests := w.changedRequests + {id})
  }

  function HandleEvent(w: Work, rsp: Response, c: Choice): Work {
    match rsp.kind
    case Connected =>
      w.(pool := w.pool.MarkReady(rsp.session, c.now),
         changedSessions := w.changedSessions + {rsp.session},
         audit := w.audit.(lease := w.audit.lease + [Reconnect(rsp.session)]))
    case TaskStarted => w
    case AudioChunk => HandleChunk(w, rsp)
    case TaskFinished => w.(changedSessions := w.changedSessions + {rsp.session})
    case TaskFailed =>
      w.(pending := FailSession(w.pending, rsp.session, rsp.statusCode, rsp.statusMsg),
         pool := w.pool.MarkErrored(rsp.session, rsp.statusMsg),
         changedSessions := w.changedSessions + {rsp.session},
         changedRequests := w.changedRequests + BySession(w.pending, rsp.session))
    case Disconnected =>
      w.(pending := LoseSession(w.pending, rsp.session),
         pool := w.pool.MarkClosed(rsp.session),
         changedSessions := w.changedSessions + {rsp.session},
         changedRequests := w.changedRequests + BySession(w.pending, rsp.session))
  }

  // ---- cancellations and engine reports ------------------------------------------------------

  function HandleCancel(w: Work, id: Id): Work {
    w.(pending := WithState(w.pending, id, Cancelled), changedRequests := w.changedRequests + {id})
  }

  function CompleteWrite(c: Completion): Write {
    Write(c.id, c.audio, c.sampleRate, c.channels, c.format, true, |c.audio|, c.usageMs, c.statusCode, c.statusMsg)
  }

  function FailedWrite(id: Id, code: int, msg: string): Write {
    Write(id, [], 16000, 1, Pcm, true, 0, 0, code, msg)
  }

  /** A client write for a locally synthesised request: its slot and its entry are released. */
  function Delivered(w: Work, write: Write): Work {
    w.(out := w.out.(writes := w.out.writes + [write]),
       metrics := w.metrics.AddAudioBytes(|write.audio|).DecInflight(),
       pending := w.pending - {write.id},
       audit := w.audit.(delivered := w.audit.delivered + [write]))
  }

  /** One message of the batch. */
  function Handle(cfg: Config, w: Work, m: Message, c: Choice): Work {
    var v := w.(audit := w.audit.(clock := c.now));
    match m
    case Ask(req) => HandleAsk(cfg, v, req, c)
    case WsEvent(rsp) => HandleEvent(v, rsp, c)
    case Cancel(id) => HandleCancel(v, id)
    case SynthComplete(done) => Delivered(v, CompleteWrite(done))
    case SynthFailed(id, code, msg) =>
      Delivered(v, FailedWrite(id, code, msg)).(changedRequests := v.changedRequests + {id})
  }

  function Process(cfg: Config, w: Work, batch: seq<Message>, choices: seq<Choice>): Work
    requires |choices| == |batch|
    decreases |batch|
  {
    if batch == [] then w
    else Process(cfg, Handle(cfg, w, batch[0], choices[0]), batch[1..], choices[1..])
  }

  // ---- finished upstream requests ------------------------------------------------------------

  function EmittedWrite(id: Id, p: Pending): Write {
    Write(id, p.audio, p.sampleRate, p.channels, p.format, p.finalReceived, p.cumulativeBytes, p.usageCharacters,
          p.statusCode, p.statusMsg)
  }

  function EmitOne(w: Work, id: Id): Work {
    if id !in w.pending then w
    else
      var p := w.pending[id];
      w.(out := w.out.(writes := w.out.writes + [EmittedWrite(id, p)]),
         metrics := w.metrics.AddAudioBytes(p.cumulativeBytes).DecInflight(),
         pool := w.pool.MarkDraining(p.session),
         changedSessions := w.changedSessions + {p.session},
         changedRequests := w.changedRequests + {id},
         pending := w.pending - {id},
         audit := w.audit.(emitted := w.audit.emitted + [id]))
  }

  function EmitAll(w: Work, ready: seq<Id>): Work
    decreases |ready|
  {
    if ready == [] then w else EmitAll(EmitOne(w, ready[0]), ready[1..])
  }

  // ---- evolution -----------------------------------------------------------------------------

  function ErroredSet(p: Pool, changed: set<Id>): set<Id> {
    set id | id in changed && id in p.sessions && p.sessions[id].state in {Errored, Closed}
  }

  function LifetimeSet(p: Pool, now: Time): set<Id> {
    set id | id in p.sessions && p.LifetimeExpired(id, now)
  }

  /** The iteration orders of one evolution pass over the changed sessions and the two hash maps. */
  datatype Orders = Orders(errored: seq<Id>, lifetime: seq<Id>, terminal: seq<Id>)

  /** The pool once the changed broken sessions and the lifetime-expired ones are gone. */
  function Aged(p: Pool, changed: set<Id>, now: Time): Pool {
    var q := p.RemoveAll(ErroredSet(p, changed));
    q.RemoveAll(LifetimeSet(q, now))
  }

  ghost predicate OrdersFit(w: Work, now: Time, o: Orders) {
    var p := w.pool.RemoveAll(ErroredSet(w.pool, w.changedSessions));
    && Enumerates(o.errored, ErroredSet(w.pool, w.changedSessions))
    && Enumerates(o.lifetime, LifetimeSet(p, now))
    && Enumerates(o.terminal, TerminalSet(w.pending))
  }

  function Notices(ids: seq<Id>, reason: CloseReason): seq<Close> {
    seq(|ids|, i requires 0 <= i < |ids| => Close(ids[i], reason))
  }

  function TerminalNotices(store: Store, ids: seq<Id>): seq<Close>
    requires forall id <- ids :: id in store
  {
    seq(|ids|, i requires 0 <= i < |ids| => Close(store[ids[i]].session, RequestFailedOrCancelled))
  }

  function IdleIds(p: Pool, changed: set<Id>, now: Time): seq<Id> {
    var q := Aged(p, changed, now);
    IdleFromBack(q, q.lru, now)
  }

  function Closes(w: Work, now: Time, o: Orders): seq<Close>
    requires forall id <- o.terminal :: id in w.pending
  {
    Notices(o.errored, EvolveSessionClosed) + Notices(o.lifetime, LifetimeExceeded)
    + Notices(IdleIds(w.pool, w.changedSessions, now), IdleTimedOut) + TerminalNotices(w.pending, o.terminal)
  }

  function Evolve(w: Work, now: Time, o: Orders): Work
    requires forall id <- o.terminal :: id in w.pending
  {
    var p, changed := w.pool, w.changedSessions;
    w.(pool := Aged(p, changed, now).RemoveAll(SetOf(IdleIds(p, changed, now))),
       pending := w.pending - TerminalSet(w.pending),
       out := w.out.(closes := w.out.closes + Closes(w, now, o)),
       audit := w.audit.(clock := now))
  }

  // ---- one tick ------------------------------------------------------------------------------

  datatype Plan = Plan(choices: seq<Choice>, ready: seq<Id>, now: Time, orders: Orders)

  function Fresh(w: Work): Work { w.(changedSessions := {}, changedRequests := {}) }

  /** The plan supplies what the tick needs: a choice per message and true enumerations. */
  ghost predicate PlanFits(cfg: Config, w: Work, batch: seq<Message>, plan: Plan) {
    && |plan.choices| == |batch|
    && var v := Process(cfg, Fresh(w), batch, plan.choices);
    && Enumerates(plan.ready, ReadySet(v.pending))
    && OrdersFit(EmitAll(v, plan.ready), plan.now, plan.orders)
  }

  ghost function Tick(cfg: Config, w: Work, batch: seq<Message>, plan: Plan): Work
    requires PlanFits(cfg, w, batch, plan)
  {
    Evolve(EmitAll(Process(cfg, Fresh(w), batch, plan.choices), plan.ready), plan.now, plan.orders)
  }
}
