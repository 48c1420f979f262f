/**
 * The journal of a run: one event for each message handled, entry emitted, pass made and binding from outside. An event
 * says what its message brought about, by the fields of the board it met. Every entry and every session then follows
 * an automaton of its own over the events, and every output is gathered from them.
 */
module Journals {
  import opened Messages
  import opened Seqs
  import opened Sessions
  import opened Pendings
  import opened HeartbeatModel
  import opened Runs
  import opened Ledger
  import opened Listings
  import Evolution
  import HexCodec

  datatype Event =
    | Refused(req: Request, reason: FailureReason)
    | TookLocal(req: Request)
    | TookUpstream(req: Request, session: Id, isNew: bool, now: Time)
    | Heard(id: Id, rsp: Response)
    | Readied(session: Id, now: Time)
    | Broke(session: Id, code: int, msg: string)
    | Left(session: Id)
    | Withdrawn(id: Id)
    | Reported(m: Message)
    | Emitted(id: Id, entry: Pending)
    | Swept(now: Time)
    | Rebound(id: Id, session: Id)
    | Passed

  // ---- what a message brings about -----------------------------------------------------------

  /** The engine is there and ready, and the request asks for it or leaves the choice to a service that prefers it. */
  predicate GoesLocal(cfg: Config, backend: Backend, engineReady: bool) {
    cfg.hasEngine && engineReady && (backend == Local || (backend == Auto && cfg.preferLocal))
  }

  ghost function AskEvent(cfg: Config, w: Work, req: Request, c: Choice): Event {
    if w.metrics.inflight >= cfg.highWatermark || w.metrics.queued >= cfg.queueHighWatermark then
      Refused(req, BackpressureAdmissionDenied)
    else if GoesLocal(cfg, req.backend, c.engineReady) then TookLocal(req)
    else
      match LastReady(w.pool, w.pool.lru)
      case Some(s) => TookUpstream(req, s, false, c.now)
      case None =>
        if |w.pool.sessions| < w.pool.maxSize then TookUpstream(req, "s-" + c.entropy, true, c.now)
        else Refused(req, NoSessionAvailable)
  }

  /** A chunk belongs to the request its session is serving. */
  ghost function WsEventOf(p: Pool, rsp: Response, c: Choice): Event {
    match rsp.kind
    case Connected => Readied(rsp.session, c.now)
    case TaskStarted => Passed
    case AudioChunk =>
      if rsp.session in p.sessions && p.sessions[rsp.session].currentRequest != ""
      then Heard(p.sessions[rsp.session].currentRequest, rsp) else Passed
    case TaskFinished => Passed
    case TaskFailed => Broke(rsp.session, rsp.statusCode, rsp.statusMsg)
    case Disconnected => Left(rsp.session)
  }

  ghost function Cause(cfg: Config, w: Work, m: Message, c: Choice): Event {
    match m
    case Ask(req) => AskEvent(cfg, w, req, c)
    case WsEvent(rsp) => WsEventOf(w.pool, rsp, c)
    case Cancel(id) => Withdrawn(id)
    case SynthComplete(_) => Reported(m)
    case SynthFailed(_, _, _) => Reported(m)
  }

  ghost function BatchEvents(cfg: Config, w: Work, batch: seq<Message>, choices: seq<Choice>): seq<Event>
    requires |choices| == |batch|
    decreases |batch|
  {
    if batch == [] then []
    else [Cause(cfg, w, batch[0], choices[0])]
         + BatchEvents(cfg, Handle(cfg, w, batch[0], choices[0]), batch[1..], choices[1..])
  }

  /** The entries emitted by a scan, as they were found. */
  function Emissions(store: Store, ready: seq<Id>): seq<Event>
    requires forall id <- ready :: id in store
  {
    seq(|ready|, i requires 0 <= i < |ready| => Emitted(ready[i], store[ready[i]]))
  }

  ghost function StepEvents(cfg: Config, w: World, s: Step): seq<Event>
    requires Enabled(cfg, w, s)
  {
    match s
    case Bind(id, session) => [Rebound(id, session)]
    case TickStep(plan) =>
      BatchEvents(cfg, Fresh(w.hb), w.Todo(), plan.choices)
      + Emissions(Process(cfg, Fresh(w.hb), w.Todo(), plan.choices).pending, plan.ready) + [Swept(plan.now)]
    case _ => []
  }

  ghost function Journal(cfg: Config, w: World, steps: seq<Step>): seq<Event>
    requires Legal(cfg, w, steps)
    decreases |steps|
  {
    if steps == [] then [] else StepEvents(cfg, w, steps[0]) + Journal(cfg, Next(cfg, w, steps[0]), steps[1..])
  }

  // ---- one entry -----------------------------------------------------------------------------

  /** What an event makes of the entry of `id`. */
  function EntryStep(o: Option<Pending>, id: Id, e: Event): Option<Pending> {
    match e
    case TookLocal(req) =>
      if req.id != id then o
      else if o.None? then
        Some(Pending("", PendingState.Streaming, [], 0, req.audio.sampleRate, req.audio.channel, Pcm, 0, 0, "", false))
      else Some(o.value.(sampleRate := req.audio.sampleRate, channels := req.audio.channel, format := Pcm,
                         state := PendingState.Streaming))
    case TookUpstream(req, s, _, _) =>
      if req.id != id then o
      else Some(Pending(s, AwaitingSession, [], 0, req.audio.sampleRate, req.audio.channel, req.audio.format, 0, 0, "",
                        false))
    case Heard(x, rsp) =>
      if x != id || o.None? then o
      else
        var bytes := HexCodec.Decoded(rsp.audioHex);
        Some(o.value.(audio := o.value.audio + bytes, cumulativeBytes := o.value.cumulativeBytes + |bytes|,
                      finalReceived := o.value.finalReceived || rsp.isFinal, usageCharacters := rsp.usageCharacters))
    case Broke(s, code, msg) =>
      if o.None? || o.value.session != s then o
      else Some(o.value.(state := Failed, statusCode := code, statusMsg := msg))
    case Left(s) => if o.None? || o.value.session != s then o else Some(o.value.(state := Failed))
    case Withdrawn(x) => if x != id || o.None? then o else Some(o.value.(state := Cancelled))
    case Reported(m) => if id in ReportIds(m) then None else o
    case Emitted(x, _) => if x == id then None else o
    case Swept(_) => if o.Some? && o.value.state in {Failed, Cancelled} then None else o
    case Rebound(x, s) =>
      if x != id || o.None? then o else Some(o.value.(session := s, state := PendingState.Streaming))
    case _ => o
  }

  function ReportIds(m: Message): seq<Id> {
    match m
    case SynthComplete(done) => [done.id]
    case SynthFailed(id, _, _) => [id]
    case _ => []
  }

  function EntryAfter(j: seq<Event>, id: Id): Option<Pending> {
    if j == [] then None else EntryStep(EntryAfter(j[..|j| - 1], id), id, j[|j| - 1])
  }

  // ---- one session ---------------------------------------------------------------------------

  datatype Limits = Limits(idle: int, lifetime: int)

  /** A pass removes a session that is broken, too old, or ready and idle for too long. */
  predicate Outlives(limits: Limits, s: Session, now: Time) {
    && s.state != Errored && s.state != Closed && now - s.createdAt < limits.lifetime
    && (s.state == Ready ==> now - s.lastActiveAt < limits.idle)
  }

  /** What an event makes of the record of the session `id`. */
  function SessionStep(limits: Limits, o: Option<Session>, id: Id, e: Event): Option<Session> {
    match e
    case TookUpstream(req, s, isNew, now) =>
      if s != id then o
      else if isNew then Some(Session(Connecting, 0, 0, req.id, ""))
      else if o.None? then o
      else Some(o.value.(state := SessionState.Streaming, lastActiveAt := now, currentRequest := req.id))
    case Readied(s, now) =>
      if s != id || o.None? then o else Some(o.value.(state := Ready, lastActiveAt := now))
    case Broke(s, _, msg) => if s != id || o.None? then o else Some(o.value.(state := Errored, lastError := msg))
    case Left(s) => if s == id then None else o
    case Emitted(_, p) => if p.session != id || o.None? then o else Some(o.value.(state := Draining))
    case Swept(now) => if o.Some? && !Outlives(limits, o.value, now) then None else o
    case _ => o
  }

  function SessionAfter(limits: Limits, j: seq<Event>, id: Id): Option<Session> {
    if j == [] then None else SessionStep(limits, SessionAfter(limits, j[..|j| - 1], id), id, j[|j| - 1])
  }

  // ---- the outputs ---------------------------------------------------------------------------

  /** What was handed over and published, and the history that other theorems speak of. */
  datatype Output = Output(jobs: seq<Job>, frames: seq<Frame>, writes: seq<Write>, refusals: seq<SendFailure>,
                           bound: seq<Id>, delivered: seq<Write>, emitted: seq<Id>, lease: seq<Lease>)
  {
    function Then(o: Output): Output {
      Output(jobs + o.jobs, frames + o.frames, writes + o.writes, refusals + o.refusals, bound + o.bound,
             delivered + o.delivered, emitted + o.emitted, lease + o.lease)
    }
  }

  const SILENCE := Output([], [], [], [], [], [], [], [])

  function ReportWrites(m: Message): seq<Write> {
    match m
    case SynthComplete(c) =>
      [Write(c.id, c.audio, c.sampleRate, c.channels, c.format, true, |c.audio|, c.usageMs, c.statusCode, c.statusMsg)]
    case SynthFailed(id, code, msg) => [Write(id, [], 16000, 1, Pcm, true, 0, 0, code, msg)]
    case _ => []
  }

  /** The client write of an event, if it has one. */
  function WritesOf(e: Event): seq<Write> {
    match e
    case Reported(m) => ReportWrites(m)
    case Emitted(id, p) =>
      [Write(id, p.audio, p.sampleRate, p.channels, p.format, p.finalReceived, p.cumulativeBytes, p.usageCharacters,
             p.statusCode, p.statusMsg)]
    case _ => []
  }

  function OutputOf(e: Event): Output {
    match e
    case Refused(req, reason) => SILENCE.(refusals := [SendFailure(req.id, reason)])
    case TookLocal(req) =>
      var speed := if req.voice.speed > 0.0 then req.voice.speed else 1.0;
      SILENCE.(jobs := [Job(req.id, req.text, req.voice.voiceId, speed)])
    case TookUpstream(req, s, isNew, _) =>
      SILENCE.(frames := (if isNew then [Frame(s, TaskStart, StartPayload(req.model, req.voice, req.audio))] else [])
                         + [Frame(s, TaskContinue, ContinuePayload(req.text))],
               bound := [req.id], lease := [HandOut(s)])
    case Readied(s, _) => SILENCE.(lease := [Reconnect(s)])
    case Reported(m) => SILENCE.(writes := WritesOf(e), delivered := WritesOf(e))
    case Emitted(id, p) => SILENCE.(writes := WritesOf(e), emitted := [id])
    case _ => SILENCE
  }

  function Outputs(j: seq<Event>): Output {
    if j == [] then SILENCE else Outputs(j[..|j| - 1]).Then(OutputOf(j[|j| - 1]))
  }

  // ---- the board follows the journal ---------------------------------------------------------

  function Lookup<T>(m: map<Id, T>, id: Id): Option<T> { if id in m then Some(m[id]) else None }

  function View(w: Work): Output {
    Output(w.out.jobs, w.out.frames, w.out.writes, w.failures, w.audit.bound, w.audit.delivered, w.audit.emitted,
           w.audit.lease)
  }

  /** Outputs, the entry of `x` and the session `x` are what the journal makes them. */
  ghost predicate Recorded(limits: Limits, w: Work, j: seq<Event>, x: Id) {
    && View(w) == Outputs(j)
    && Lookup(w.pending, x) == EntryAfter(j, x)
    && Lookup(w.pool.sessions, x) == SessionAfter(limits, j, x)
  }

  ghost predicate AllRecorded(limits: Limits, w: Work, j: seq<Event>) { forall x :: Recorded(limits, w, j, x) }

  lemma Appended(limits: Limits, j: seq<Event>, e: Event, x: Id)
    ensures Outputs(j + [e]) == Outputs(j).Then(OutputOf(e))
    ensures EntryAfter(j + [e], x) == EntryStep(EntryAfter(j, x), x, e)
    ensures SessionAfter(limits, j + [e], x) == SessionStep(limits, SessionAfter(limits, j, x), x, e)
  {
    assert (j + [e])[..|j|] == j;
  }

  /** Between two boards the entry of `x`, the session `x` and the outputs move as the event says. */
  ghost predicate Moved(limits: Limits, w: Work, v: Work, e: Event, x: Id) {
    && Lookup(v.pending, x) == EntryStep(Lookup(w.pending, x), x, e)
    && Lookup(v.pool.sessions, x) == SessionStep(limits, Lookup(w.pool.sessions, x), x, e)
    && View(v) == View(w).Then(OutputOf(e))
  }

  lemma LocalStep(limits: Limits, w: Work, req: Request, x: Id)
    ensures Moved(limits, w, AskLocal(w, req), TookLocal(req), x)
  {
  }

  lemma BoundStep(limits: Limits, w: Work, req: Request, g: Grant, now: Time, x: Id)
    requires Lookup(g.pool.SetCurrent(g.session, req.id).sessions, x)
             == SessionStep(limits, Lookup(w.pool.sessions, x), x, TookUpstream(req, g.session, !g.reused, now))
    ensures Moved(limits, w, Bound(w.(pool := g.pool), req, g.session, g.reused),
                  TookUpstream(req, g.session, !g.reused, now), x)
  {
    if g.reused { assert w.out.frames + [] == w.out.frames; }
  }

  /** The session handed out is the last ready one listed, or a new one where there is room. */
  lemma GrantStep(limits: Limits, p: Pool, req: Request, c: Choice, g: Grant, x: Id)
    requires Acquire(p, c) == Some(g)
    ensures Lookup(g.pool.SetCurrent(g.session, req.id).sessions, x)
            == SessionStep(limits, Lookup(p.sessions, x), x, TookUpstream(req, g.session, !g.reused, c.now))
  {
    LastReadyFound(p, p.lru);
  }

  lemma AskStep(cfg: Config, limits: Limits, w: Work, req: Request, c: Choice, x: Id)
    ensures Moved(limits, w, HandleAsk(cfg, w, req, c), AskEvent(cfg, w, req, c), x)
  {
    var v := w.(metrics := Evaluated(cfg, w.metrics));
    if !Admits(cfg, w.metrics) {
    } else if ShouldUseLocal(cfg, req, c.engineReady) {
      LocalStep(limits, v, req, x);
    } else {
      match Acquire(w.pool, c)
      case None =>
      case Some(g) =>
        GrantStep(limits, w.pool, req, c, g, x);
        BoundStep(limits, v, req, g, c.now, x);
    }
  }

  lemma ConnectedStep(limits: Limits, w: Work, rsp: Response, c: Choice, x: Id)
    requires rsp.kind in {Connected, TaskStarted, TaskFinished}
    ensures Moved(limits, w, HandleEvent(w, rsp, c), WsEventOf(w.pool, rsp, c), x)
  {
  }

  lemma ChunkStep(limits: Limits, w: Work, rsp: Response, c: Choice, x: Id)
    requires rsp.kind == AudioChunk
    ensures Moved(limits, w, HandleEvent(w, rsp, c), WsEventOf(w.pool, rsp, c), x)
  {
  }

  lemma FailStep(limits: Limits, w: Work, rsp: Response, c: Choice, x: Id)
    requires rsp.kind == TaskFailed || rsp.kind == Disconnected
    ensures Moved(limits, w, HandleEvent(w, rsp, c), WsEventOf(w.pool, rsp, c), x)
  {
  }

  /** One message moves every entry, every session and the outputs as its event says. */
  lemma MessageStep(cfg: Config, limits: Limits, w: Work, m: Message, c: Choice, x: Id)
    ensures Moved(limits, w, Handle(cfg, w, m, c), Cause(cfg, w, m, c), x)
  {
    var v := w.(audit := w.audit.(clock := c.now));
    assert Cause(cfg, v, m, c) == Cause(cfg, w, m, c);
    match m
    case Ask(req) => AskStep(cfg, limits, v, req, c, x);
    case WsEvent(rsp) =>
      match rsp.kind {
        case AudioChunk => ChunkStep(limits, v, rsp, c, x);
        case TaskFailed => FailStep(limits, v, rsp, c, x);
        case Disconnected => FailStep(limits, v, rsp, c, x);
        case _ => ConnectedStep(limits, v, rsp, c, x);
      }
    case _ =>
  }

  lemma {:induction false} BatchRecorded(cfg: Config, limits: Limits, w: Work, batch: seq<Message>,
                                         choices: seq<Choice>, j: seq<Event>, x: Id)
    requires |choices| == |batch| && Recorded(limits, w, j, x)
    ensures Recorded(limits, Process(cfg, w, batch, choices), j + BatchEvents(cfg, w, batch, choices), x)
    decreases |batch|
  {
    if batch == [] {
      assert j + [] == j;
    } else {
      var e, v := Cause(cfg, w, batch[0], choices[0]), Handle(cfg, w, batch[0], choices[0]);
      MessageStep(cfg, limits, w, batch[0], choices[0], x);
      Appended(limits, j, e, x);
      BatchRecorded(cfg, limits, v, batch[1..], choices[1..], j + [e], x);
      Associative(j, [e], BatchEvents(cfg, v, batch[1..], choices[1..]));
    }
  }

  lemma EmitStep(limits: Limits, w: Work, id: Id, x: Id)
    requires id in w.pending
    ensures Moved(limits, w, EmitOne(w, id), Emitted(id, w.pending[id]), x)
  {
  }

  lemma EmissionsTail(w: Work, ready: seq<Id>)
    requires Emittable(w, ready) && ready != []
    ensures Emittable(EmitOne(w, ready[0]), ready[1..])
    ensures Emissions(w.pending, ready)
            == [Emitted(ready[0], w.pending[ready[0]])] + Emissions(EmitOne(w, ready[0]).pending, ready[1..])
  {
    EmittableNext(w, ready);
    assert ready[0] in ready && forall i :: 0 <= i < |ready[1..]| ==> ready[1..][i] == ready[i + 1] != ready[0];
  }

  lemma {:induction false} EmitRecorded(limits: Limits, w: Work, ready: seq<Id>, j: seq<Event>, x: Id)
    requires Emittable(w, ready) && Recorded(limits, w, j, x)
    ensures Recorded(limits, EmitAll(w, ready), j + Emissions(w.pending, ready), x)
    decreases |ready|
  {
    if ready == [] {
      assert j + [] == j;
    } else {
      var e, v := Emitted(ready[0], w.pending[ready[0]]), EmitOne(w, ready[0]);
      EmissionsTail(w, ready);
      EmitStep(limits, w, ready[0], x);
      Appended(limits, j, e, x);
      EmitRecorded(limits, v, ready[1..], j + [e], x);
      Associative(j, [e], Emissions(v.pending, ready[1..]));
    }
  }

  ghost predicate Within(limits: Limits, p: Pool) { p.idleTimeout == limits.idle && p.maxLifetime == limits.lifetime }

  lemma SweptEntry(store: Store, x: Id, now: Time)
    ensures Lookup(store - TerminalSet(store), x) == EntryStep(Lookup(store, x), x, Swept(now))
  {
  }

  /** For a pool whose broken sessions are all noted, the rule keeps what outlives the pass. */
  lemma RuleOutlives(limits: Limits, p: Pool, changed: set<Id>, now: Time, x: Id)
    requires Within(limits, p) && x in p.sessions
    requires p.sessions[x].state in {Errored, Closed} ==> x in changed
    ensures Evolution.Survives(p, changed, now, x) <==> Outlives(limits, p.sessions[x], now)
  {
  }

  lemma RuleSession(limits: Limits, p: Pool, changed: set<Id>, now: Time, x: Id)
    requires Within(limits, p)
    requires x in p.sessions && p.sessions[x].state in {Errored, Closed} ==> x in changed
    ensures Lookup(p.RemoveAll(Evolution.Removed(p, changed, now)).sessions, x)
            == SessionStep(limits, Lookup(p.sessions, x), x, Swept(now))
  {
    if x in p.sessions { RuleOutlives(limits, p, changed, now, x); }
  }

  lemma SweptSession(limits: Limits, w: Work, now: Time, o: Orders, x: Id)
    requires OrdersFit(w, now, o) && w.pool.Listed() && BrokenNoted(w) && Within(limits, w.pool)
    ensures Lookup(Evolve(w, now, o).pool.sessions, x)
            == SessionStep(limits, Lookup(w.pool.sessions, x), x, Swept(now))
  {
    Evolution.EvolvedPool(w.pool, w.changedSessions, now);
    RuleSession(limits, w.pool, w.changedSessions, now, x);
  }

  lemma QuietRecorded(limits: Limits, w: Work, v: Work, now: Time, j: seq<Event>, x: Id)
    requires Recorded(limits, w, j, x) && View(v) == View(w)
    requires Lookup(v.pending, x) == EntryStep(Lookup(w.pending, x), x, Swept(now))
    requires Lookup(v.pool.sessions, x) == SessionStep(limits, Lookup(w.pool.sessions, x), x, Swept(now))
    ensures Recorded(limits, v, j + [Swept(now)], x)
  {
    Appended(limits, j, Swept(now), x);
  }

  lemma SweepRecorded(limits: Limits, w: Work, now: Time, o: Orders, j: seq<Event>, x: Id)
    requires OrdersFit(w, now, o) && w.pool.Listed() && BrokenNoted(w) && Within(limits, w.pool)
    requires Recorded(limits, w, j, x)
    ensures Recorded(limits, Evolve(w, now, o), j + [Swept(now)], x)
  {
    SweptEntry(w.pending, x, now);
    SweptSession(limits, w, now, o, x);
    QuietRecorded(limits, w, Evolve(w, now, o), now, j, x);
  }

  /** What every step keeps and the journal needs. */
  ghost predicate Steady(limits: Limits, w: World) {
    WorldSound(w) && Ageless(w.hb.pool) && Within(limits, w.hb.pool)
  }

  lemma NextSteady(cfg: Config, limits: Limits, w: World, s: Step)
    requires Steady(limits, w) && Enabled(cfg, w, s)
    ensures Steady(limits, Next(cfg, w, s))
  {
    NextSound(cfg, w, s);
    NextAgeless(cfg, w, s);
    Evolution.NextKeeps(cfg, w, s);
  }

  /** The board as the pass finds it. */
  lemma UnevolvedSteady(cfg: Config, limits: Limits, w: World, plan: Plan)
    requires Steady(limits, w) && Enabled(cfg, w, TickStep(plan))
    ensures Emittable(Process(cfg, Fresh(w.hb), w.Todo(), plan.choices), plan.ready)
    ensures var u := Unevolved(cfg, w, plan); u.pool.Listed() && BrokenNoted(u) && Within(limits, u.pool)
  {
    StartOfTick(w);
    ScanSound(cfg, w.hb, w.Todo(), plan, w.asked);
    UnevolvedAgeless(cfg, w, plan);
    Evolution.UnevolvedKeeps(cfg, w, plan);
  }

  lemma TickRecorded(cfg: Config, limits: Limits, w: World, plan: Plan, j: seq<Event>, x: Id)
    requires Steady(limits, w) && Enabled(cfg, w, TickStep(plan)) && Recorded(limits, w.hb, j, x)
    ensures Recorded(limits, Next(cfg, w, TickStep(plan)).hb, j + StepEvents(cfg, w, TickStep(plan)), x)
  {
    var v := Process(cfg, Fresh(w.hb), w.Todo(), plan.choices);
    var batch, scan := BatchEvents(cfg, Fresh(w.hb), w.Todo(), plan.choices), Emissions(v.pending, plan.ready);
    UnevolvedSteady(cfg, limits, w, plan);
    BatchRecorded(cfg, limits, Fresh(w.hb), w.Todo(), plan.choices, j, x);
    EmitRecorded(limits, v, plan.ready, j + batch, x);
    SweepRecorded(limits, Unevolved(cfg, w, plan), plan.now, plan.orders, j + batch + scan, x);
    Associative(j, batch, scan);
    Associative(j, batch + scan, [Swept(plan.now)]);
  }

  lemma BindRecorded(limits: Limits, w: Work, id: Id, session: Id, j: seq<Event>, x: Id)
    requires Recorded(limits, w, j, x)
    ensures Recorded(limits, w.(pending := WithSession(w.pending, id, session)), j + [Rebound(id, session)], x)
  {
    Appended(limits, j, Rebound(id, session), x);
  }

  lemma NextRecorded(cfg: Config, limits: Limits, w: World, s: Step, j: seq<Event>, x: Id)
    requires Steady(limits, w) && Enabled(cfg, w, s) && Recorded(limits, w.hb, j, x)
    ensures Recorded(limits, Next(cfg, w, s).hb, j + StepEvents(cfg, w, s), x)
  {
    match s
    case Bind(id, session) => BindRecorded(limits, w.hb, id, session, j, x);
    case TickStep(plan) => TickRecorded(cfg, limits, w, plan, j, x);
    case _ => assert j + [] == j;
  }

  lemma {:induction false} RunRecorded(cfg: Config, limits: Limits, w: World, steps: seq<Step>, j: seq<Event>, x: Id)
    requires Steady(limits, w) && Legal(cfg, w, steps) && Recorded(limits, w.hb, j, x)
    ensures Recorded(limits, After(cfg, w, steps).hb, j + Journal(cfg, w, steps), x)
    decreases |steps|
  {
    if steps == [] {
      assert j + [] == j;
    } else {
      var events, next := StepEvents(cfg, w, steps[0]), Next(cfg, w, steps[0]);
      NextSteady(cfg, limits, w, steps[0]);
      NextRecorded(cfg, limits, w, steps[0], j, x);
      RunRecorded(cfg, limits, next, steps[1..], j + events, x);
      Associative(j, events, Journal(cfg, next, steps[1..]));
    }
  }

  lemma NextAllRecorded(cfg: Config, limits: Limits, w: World, s: Step, j: seq<Event>)
    requires Steady(limits, w) && Enabled(cfg, w, s) && AllRecorded(limits, w.hb, j)
    ensures AllRecorded(limits, Next(cfg, w, s).hb, j + StepEvents(cfg, w, s))
  {
    forall x ensures Recorded(limits, Next(cfg, w, s).hb, j + StepEvents(cfg, w, s), x) {
      assert Recorded(limits, w.hb, j, x);
      NextRecorded(cfg, limits, w, s, j, x);
    }
  }

  function LimitsOf(start: World): Limits { Limits(start.hb.pool.idleTimeout, start.hb.pool.maxLifetime) }

  /**
   * In every run, whatever the ids, clocks and names: each pending entry and each pooled session is what its own
   * automaton makes of the events, and jobs, frames, client writes and published failures are gathered from them.
   */
  lemma {:induction false} EveryRunIsRecorded(cfg: Config, start: World, steps: seq<Step>, x: Id)
    requires AnyRun(cfg, start, steps)
    ensures Recorded(LimitsOf(start), After(cfg, start, steps).hb, Journal(cfg, start, steps), x)
  {
    var j := Journal(cfg, start, steps);
    StartSound(start);
    RunRecorded(cfg, LimitsOf(start), start, steps, [], x);
    assert [] + j == j;
  }
}
