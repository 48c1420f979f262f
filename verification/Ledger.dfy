/** Conservation over every run, with no assumption on ids, clocks or senders. */
module Ledger {
  import opened Messages
  import opened Seqs
  import opened Sessions
  import opened Pendings
  import opened HeartbeatModel
  import opened Runs

  function Continues(frames: seq<Frame>): nat {
    if frames == [] then 0
    else Continues(frames[..|frames| - 1]) + if frames[|frames| - 1].op == TaskContinue then 1 else 0
  }

  function AudioTotal(writes: seq<Write>): nat {
    if writes == [] then 0 else AudioTotal(writes[..|writes| - 1]) + |writes[|writes| - 1].audio|
  }

  /** Every id asked for is accounted for once per time it was asked. */
  ghost predicate Accounted(jobs: seq<Id>, bound: seq<Id>, failures: seq<Id>, queued: seq<Id>, asked: seq<Id>) {
    multiset(jobs) + multiset(bound) + multiset(failures) + multiset(queued) == multiset(asked)
  }

  lemma Settle(jobs: seq<Id>, bound: seq<Id>, failures: seq<Id>, id: Id, queued: seq<Id>, asked: seq<Id>)
    requires Accounted(jobs, bound, failures, [id] + queued, asked)
    ensures Accounted(jobs + [id], bound, failures, queued, asked)
    ensures Accounted(jobs, bound + [id], failures, queued, asked)
    ensures Accounted(jobs, bound, failures + [id], queued, asked)
  {
  }

  /**
   * Every request asked for is still queued or became exactly one of a job, a bound upstream request or a published
   * failure; the inflight counter is jobs plus TaskContinue frames minus client writes, as a 64-bit word; the queue
   * counter stays zero.
   */
  ghost predicate Balanced(w: Work, queued: seq<Id>, asked: seq<Id>) {
    && Accounted(JobIds(w.out.jobs), w.audit.bound, FailureIds(w.failures), queued, asked)
    && Continues(w.out.frames) == |w.audit.bound|
    && w.metrics.inflight == (|w.out.jobs| + |w.audit.bound| - |w.out.writes|) % WORD && w.metrics.queued == 0
  }

  /** Byte counts are true counts, every write is final, and the byte counter is the total written, as a 64-bit word. */
  ghost predicate BytesCounted(w: Work) {
    && (forall id <- w.pending :: w.pending[id].cumulativeBytes == |w.pending[id].audio|)
    && (forall x <- w.out.writes :: x.isFinal && x.cumulativeBytes == |x.audio|)
    && w.metrics.audioBytes == AudioTotal(w.out.writes) % WORD
  }

  /** A broken session is one the tick has noted as changed. */
  ghost predicate BrokenNoted(w: Work) {
    forall id <- w.pool.sessions :: w.pool.sessions[id].state in {Errored, Closed} ==> id in w.changedSessions
  }

  lemma AppendJob(jobs: seq<Job>, j: Job)
    ensures JobIds(jobs + [j]) == JobIds(jobs) + [j.id]
  {
  }

  lemma AppendWrite(writes: seq<Write>, x: Write)
    ensures WriteIds(writes + [x]) == WriteIds(writes) + [x.id]
    ensures AudioTotal(writes + [x]) == AudioTotal(writes) + |x.audio|
  {
    assert (writes + [x])[..|writes|] == writes;
  }

  lemma AppendFailure(fs: seq<SendFailure>, f: SendFailure)
    ensures FailureIds(fs + [f]) == FailureIds(fs) + [f.id]
  {
  }

  lemma AppendFrame(frames: seq<Frame>, f: Frame)
    ensures Continues(frames + [f]) == Continues(frames) + if f.op == TaskContinue then 1 else 0
  {
    assert (frames + [f])[..|frames|] == frames;
  }

  lemma Wrap(n: int, k: int)
    ensures (n % WORD + k) % WORD == (n + k) % WORD
  {
  }

  /** Upstream events emit nothing, publish nothing and move no counter. */
  lemma EventsAreQuiet(w: Work, rsp: Response, c: Choice)
    ensures var v := HandleEvent(w, rsp, c); v.out == w.out && v.metrics == w.metrics && v.failures == w.failures
    ensures var v := HandleEvent(w, rsp, c);
            && v.audit.bound == w.audit.bound && v.audit.delivered == w.audit.delivered
            && v.audit.emitted == w.audit.emitted
  {
  }

  lemma DeniedBalanced(w: Work, id: Id, reason: FailureReason, queued: seq<Id>, asked: seq<Id>)
    requires Balanced(w, [id] + queued, asked)
    ensures Balanced(Denied(w, id, reason), queued, asked)
  {
    AppendFailure(w.failures, SendFailure(id, reason));
    Settle(JobIds(w.out.jobs), w.audit.bound, FailureIds(w.failures), id, queued, asked);
  }

  lemma LocalBalanced(w: Work, req: Request, queued: seq<Id>, asked: seq<Id>)
    requires Balanced(w, [req.id] + queued, asked)
    ensures Balanced(AskLocal(w, req), queued, asked)
  {
    AppendJob(w.out.jobs, JobOf(req));
    Wrap(|w.out.jobs| + |w.audit.bound| - |w.out.writes|, 1);
    Settle(JobIds(w.out.jobs), w.audit.bound, FailureIds(w.failures), req.id, queued, asked);
  }

  lemma BoundBalanced(w: Work, req: Request, session: Id, reused: bool, queued: seq<Id>, asked: seq<Id>)
    requires Balanced(w, [req.id] + queued, asked)
    ensures Balanced(Bound(w, req, session, reused), queued, asked)
  {
    Settle(JobIds(w.out.jobs), w.audit.bound, FailureIds(w.failures), req.id, queued, asked);
    Wrap(|w.out.jobs| + |w.audit.bound| - |w.out.writes|, 1);
    var started := w.out.frames + if reused then [] else [StartFrame(session, req)];
    AppendFrame(started, ContinueFrame(session, req));
    if reused { assert started == w.out.frames; } else { AppendFrame(w.out.frames, StartFrame(session, req)); }
  }

  lemma AskBalanced(cfg: Config, w: Work, req: Request, c: Choice, queued: seq<Id>, asked: seq<Id>)
    requires Balanced(w, [req.id] + queued, asked)
    ensures Balanced(HandleAsk(cfg, w, req, c), queued, asked)
  {
    var v := w.(metrics := Evaluated(cfg, w.metrics));
    if !Admits(cfg, w.metrics) {
      DeniedBalanced(v, req.id, BackpressureAdmissionDenied, queued, asked);
    } else if ShouldUseLocal(cfg, req, c.engineReady) {
      LocalBalanced(v, req, queued, asked);
    } else {
      match Acquire(v.pool, c)
      case None => DeniedBalanced(v, req.id, NoSessionAvailable, queued, asked);
      case Some(g) => BoundBalanced(v.(pool := g.pool), req, g.session, g.reused, queued, asked);
    }
  }

  lemma HandleBalanced(cfg: Config, w: Work, m: Message, c: Choice, queued: seq<Id>, asked: seq<Id>)
    requires Balanced(w, AskId(m) + queued, asked)
    ensures Balanced(Handle(cfg, w, m, c), queued, asked)
  {
    var v := w.(audit := w.audit.(clock := c.now));
    assert !m.Ask? ==> AskId(m) + queued == queued;
    match m
    case Ask(req) => AskBalanced(cfg, v, req, c, queued, asked);
    case WsEvent(rsp) => EventsAreQuiet(v, rsp, c);
    case Cancel(_) =>
    case SynthComplete(_) => Wrap(|w.out.jobs| + |w.audit.bound| - |w.out.writes|, -1);
    case SynthFailed(_, _, _) => Wrap(|w.out.jobs| + |w.audit.bound| - |w.out.writes|, -1);
  }

  // ---- bytes ---------------------------------------------------------------------------------

  lemma DeliveredBytes(w: Work, x: Write)
    requires BytesCounted(w) && x.isFinal && x.cumulativeBytes == |x.audio|
    ensures BytesCounted(Delivered(w, x))
  {
    AppendWrite(w.out.writes, x);
    Wrap(AudioTotal(w.out.writes), |x.audio|);
  }

  lemma AskBytes(cfg: Config, w: Work, req: Request, c: Choice)
    requires BytesCounted(w)
    ensures BytesCounted(HandleAsk(cfg, w, req, c))
  {
  }

  lemma EventBytes(w: Work, rsp: Response, c: Choice)
    requires BytesCounted(w)
    ensures BytesCounted(HandleEvent(w, rsp, c))
  {
    EventsAreQuiet(w, rsp, c);
    assert forall id <- HandleEvent(w, rsp, c).pending :: id in w.pending;
  }

  lemma HandleBytes(cfg: Config, w: Work, m: Message, c: Choice)
    requires BytesCounted(w)
    ensures BytesCounted(Handle(cfg, w, m, c))
  {
    var v := w.(audit := w.audit.(clock := c.now));
    match m
    case Ask(req) => AskBytes(cfg, v, req, c);
    case WsEvent(rsp) => EventBytes(v, rsp, c);
    case Cancel(_) =>
    case SynthComplete(done) => DeliveredBytes(v, CompleteWrite(done));
    case SynthFailed(id, code, msg) => DeliveredBytes(v, FailedWrite(id, code, msg));
  }

  lemma EmitBytes(w: Work, id: Id)
    requires BytesCounted(w) && id in w.pending && w.pending[id].finalReceived
    ensures BytesCounted(EmitOne(w, id))
  {
    AppendWrite(w.out.writes, EmittedWrite(id, w.pending[id]));
    Wrap(AudioTotal(w.out.writes), w.pending[id].cumulativeBytes);
  }

  // ---- broken sessions -----------------------------------------------------------------------

  lemma AskNoted(cfg: Config, w: Work, req: Request, c: Choice)
    requires BrokenNoted(w)
    ensures BrokenNoted(HandleAsk(cfg, w, req, c))
  {
  }

  lemma EventNoted(w: Work, rsp: Response, c: Choice)
    requires BrokenNoted(w)
    ensures BrokenNoted(HandleEvent(w, rsp, c))
  {
  }

  lemma HandleNoted(cfg: Config, w: Work, m: Message, c: Choice)
    requires BrokenNoted(w)
    ensures BrokenNoted(Handle(cfg, w, m, c))
  {
    var v := w.(audit := w.audit.(clock := c.now));
    match m
    case Ask(req) => AskNoted(cfg, v, req, c);
    case WsEvent(rsp) => EventNoted(v, rsp, c);
    case Cancel(_) =>
    case SynthComplete(_) =>
    case SynthFailed(_, _, _) =>
  }

  // ---- every run -----------------------------------------------------------------------------

  ghost predicate Sound(w: Work, queued: seq<Id>, asked: seq<Id>) {
    Balanced(w, queued, asked) && BytesCounted(w) && BrokenNoted(w)
  }

  lemma {:induction false} ProcessSound(cfg: Config, w: Work, batch: seq<Message>, choices: seq<Choice>,
                                        queued: seq<Id>, asked: seq<Id>)
    requires |choices| == |batch| && Sound(w, AskIds(batch) + queued, asked)
    ensures Sound(Process(cfg, w, batch, choices), queued, asked)
    decreases |batch|
  {
    if batch == [] {
      assert AskIds(batch) + queued == queued;
    } else {
      var m, c := batch[0], choices[0];
      Associative(AskId(m), AskIds(batch[1..]), queued);
      HandleBalanced(cfg, w, m, c, AskIds(batch[1..]) + queued, asked);
      HandleBytes(cfg, w, m, c);
      HandleNoted(cfg, w, m, c);
      ProcessSound(cfg, Handle(cfg, w, m, c), batch[1..], choices[1..], queued, asked);
    }
  }

  lemma EmitSound(w: Work, id: Id, asked: seq<Id>)
    requires Sound(w, [], asked) && id in w.pending && w.pending[id].finalReceived
    ensures Sound(EmitOne(w, id), [], asked)
  {
    Wrap(|w.out.jobs| + |w.audit.bound| - |w.out.writes|, -1);
    EmitBytes(w, id);
  }

  /** The entries to emit are there and have their final chunk. */
  ghost predicate Emittable(w: Work, ready: seq<Id>) {
    Distinct(ready) && forall id <- ready :: id in w.pending && w.pending[id].ReadyToEmit()
  }

  lemma EmittableNext(w: Work, ready: seq<Id>)
    requires Emittable(w, ready) && ready != []
    ensures Emittable(EmitOne(w, ready[0]), ready[1..])
  {
    forall i | 1 <= i < |ready| ensures ready[i] != ready[0] {}
  }

  lemma {:induction false} EmitAllSound(w: Work, ready: seq<Id>, asked: seq<Id>)
    requires Sound(w, [], asked) && Emittable(w, ready)
    ensures Sound(EmitAll(w, ready), [], asked)
    decreases |ready|
  {
    if ready != [] {
      assert ready[0] in ready;
      EmitSound(w, ready[0], asked);
      EmittableNext(w, ready);
      EmitAllSound(EmitOne(w, ready[0]), ready[1..], asked);
    }
  }

  lemma {:induction false} EmitAllPending(w: Work, ready: seq<Id>)
    ensures EmitAll(w, ready).pending == w.pending - SetOf(ready)
    decreases |ready|
  {
    if ready != [] {
      EmitAllPending(EmitOne(w, ready[0]), ready[1..]);
      assert SetOf(ready) == {ready[0]} + SetOf(ready[1..]);
    }
  }

  ghost predicate NoneBroken(p: Pool) {
    forall id <- p.sessions :: p.sessions[id].state !in {Errored, Closed}
  }

  /** Nothing failed, cancelled, finished or broken is left on the board. */
  ghost predicate Quiescent(w: Work) {
    NoneBroken(w.pool) && forall id <- w.pending :: !w.pending[id].Terminal() && !w.pending[id].ReadyToEmit()
  }

  lemma EvolveSound(w: Work, now: Time, o: Orders, asked: seq<Id>)
    requires Sound(w, [], asked) && OrdersFit(w, now, o)
    ensures Sound(Evolve(w, now, o), [], asked) && NoneBroken(Evolve(w, now, o).pool)
  {
    EvolvedSessions(w.pool, w.changedSessions, now);
    var v := Evolve(w, now, o);
    assert forall id <- v.pending :: id in w.pending && v.pending[id] == w.pending[id];
  }

  lemma EvolvedSessions(p: Pool, changed: set<Id>, now: Time)
    ensures var q := Aged(p, changed, now).RemoveAll(SetOf(IdleIds(p, changed, now)));
            forall id <- q.sessions ::
              id in p.sessions && q.sessions[id] == p.sessions[id] && id !in ErroredSet(p, changed)
  {
  }

  /** The batch and the scan keep the ledger, and the scan finds its entries ready. */
  lemma ScanSound(cfg: Config, w: Work, batch: seq<Message>, plan: Plan, asked: seq<Id>)
    requires PlanFits(cfg, w, batch, plan)
    requires Sound(Fresh(w), AskIds(batch), asked)
    ensures var v := Process(cfg, Fresh(w), batch, plan.choices);
            Emittable(v, plan.ready) && Sound(EmitAll(v, plan.ready), [], asked)
  {
    var v := Process(cfg, Fresh(w), batch, plan.choices);
    assert AskIds(batch) + [] == AskIds(batch);
    ProcessSound(cfg, Fresh(w), batch, plan.choices, [], asked);
    EmitAllSound(v, plan.ready, asked);
  }

  lemma TickSound(cfg: Config, w: Work, batch: seq<Message>, plan: Plan, asked: seq<Id>)
    requires PlanFits(cfg, w, batch, plan)
    requires Sound(Fresh(w), AskIds(batch), asked)
    ensures Sound(Tick(cfg, w, batch, plan), [], asked) && Quiescent(Tick(cfg, w, batch, plan))
  {
    ScanSound(cfg, w, batch, plan, asked);
    var v := Process(cfg, Fresh(w), batch, plan.choices);
    var u := EmitAll(v, plan.ready);
    EmitAllPending(v, plan.ready);
    EvolveSound(u, plan.now, plan.orders, asked);
    assert forall id <- u.pending :: id in v.pending && u.pending[id] == v.pending[id] && id !in ReadySet(v.pending);
  }

  ghost predicate WorldSound(w: World) {
    && Balanced(w.hb, AskIds(w.Todo()), w.asked) && BytesCounted(w.hb) && NoneBroken(w.hb.pool)
  }

  lemma Shuffle<T>(a: seq<T>, b: seq<T>, x: seq<T>)
    ensures multiset((a + x) + b) == multiset(a + b) + multiset(x)
    ensures multiset(a + (b + x)) == multiset(a + b) + multiset(x)
  {
  }

  lemma {:induction false} QueuedIds(reqQ: seq<Message>, wsQ: seq<Message>, m: Message)
    ensures multiset(AskIds((reqQ + [m]) + wsQ)) == multiset(AskIds(reqQ + wsQ)) + multiset(AskId(m))
    ensures multiset(AskIds(reqQ + (wsQ + [m]))) == multiset(AskIds(reqQ + wsQ)) + multiset(AskId(m))
  {
    assert AskIds([m]) == AskId(m);
    AskIdsAppend(reqQ, wsQ);
    Shuffle(AskIds(reqQ), AskIds(wsQ), AskId(m));
    assert AskIds((reqQ + [m]) + wsQ) == (AskIds(reqQ) + AskId(m)) + AskIds(wsQ) by {
      AskIdsAppend(reqQ + [m], wsQ);
      AskIdsAppend(reqQ, [m]);
    }
    assert AskIds(reqQ + (wsQ + [m])) == AskIds(reqQ) + (AskIds(wsQ) + AskId(m)) by {
      AskIdsAppend(reqQ, wsQ + [m]);
      AskIdsAppend(wsQ, [m]);
    }
  }

  lemma Enqueued(jobs: seq<Id>, bound: seq<Id>, failures: seq<Id>, queued: seq<Id>, asked: seq<Id>, more: seq<Id>,
                 id: seq<Id>)
    requires Accounted(jobs, bound, failures, queued, asked)
    requires multiset(more) == multiset(queued) + multiset(id)
    ensures Accounted(jobs, bound, failures, more, asked + id)
  {
  }

  lemma SendSound(w: World, m: Message)
    requires WorldSound(w)
    ensures WorldSound(w.(wsQ := w.wsQ + [m], asked := w.asked + AskId(m)))
    ensures WorldSound(w.(reqQ := w.reqQ + [m], asked := w.asked + AskId(m)))
  {
    QueuedIds(w.reqQ, w.wsQ, m);
    var jobs, fs, now := JobIds(w.hb.out.jobs), FailureIds(w.hb.failures), AskIds(w.Todo());
    Enqueued(jobs, w.hb.audit.bound, fs, now, w.asked, AskIds((w.reqQ + [m]) + w.wsQ), AskId(m));
    Enqueued(jobs, w.hb.audit.bound, fs, now, w.asked, AskIds(w.reqQ + (w.wsQ + [m])), AskId(m));
  }

  lemma RunJobSound(cfg: Config, w: World, r: Synthesis)
    requires WorldSound(w) && Enabled(cfg, w, RunJob(r))
    ensures WorldSound(Next(cfg, w, RunJob(r)))
  {
    if cfg.hasEngine {
      var m := Report(w.hb.out.jobs[|w.results|].id, r);
      SendSound(w, m);
      assert w.asked + AskId(m) == w.asked;
    }
  }

  lemma BindSound(w: Work, id: Id, session: Id)
    requires BytesCounted(w)
    ensures BytesCounted(w.(pending := WithSession(w.pending, id, session)))
  {
  }

  lemma StartOfTick(w: World)
    requires WorldSound(w)
    ensures Sound(Fresh(w.hb), AskIds(w.Todo()), w.asked)
  {
  }

  lemma EndOfTick(w: World, v: Work)
    requires Sound(v, [], w.asked) && Quiescent(v)
    ensures WorldSound(w.(reqQ := [], wsQ := [], hb := Fresh(v))) && Quiescent(Fresh(v))
  {
    var after := w.(reqQ := [], wsQ := [], hb := Fresh(v));
    assert after.Todo() == [] && AskIds(after.Todo()) == [];
  }

  lemma TickStepSound(cfg: Config, w: World, plan: Plan)
    requires WorldSound(w) && Enabled(cfg, w, TickStep(plan))
    ensures WorldSound(Next(cfg, w, TickStep(plan))) && Quiescent(Next(cfg, w, TickStep(plan)).hb)
  {
    StartOfTick(w);
    TickSound(cfg, w.hb, w.Todo(), plan, w.asked);
    EndOfTick(w, Tick(cfg, w.hb, w.Todo(), plan));
  }

  lemma NextSound(cfg: Config, w: World, s: Step)
    requires WorldSound(w) && Enabled(cfg, w, s)
    ensures WorldSound(Next(cfg, w, s))
    ensures s.TickStep? ==> Quiescent(Next(cfg, w, s).hb)
  {
    match s
    case SendRequest(m) => SendSound(w, m);
    case SendWs(m) => SendSound(w, m);
    case Bind(id, session) => BindSound(w.hb, id, session);
    case TickStep(plan) => TickStepSound(cfg, w, plan);
    case RunJob(r) => RunJobSound(cfg, w, r);
  }

  lemma {:induction false} RunSound(cfg: Config, w: World, steps: seq<Step>)
    requires WorldSound(w) && Legal(cfg, w, steps)
    ensures WorldSound(After(cfg, w, steps))
    decreases |steps|
  {
    if steps != [] {
      NextSound(cfg, w, steps[0]);
      RunSound(cfg, Next(cfg, w, steps[0]), steps[1..]);
    }
  }

  // ---- the theorems --------------------------------------------------------------------------

  ghost predicate AnyRun(cfg: Config, start: World, steps: seq<Step>) {
    && start == Start(start.hb.pool.maxSize, start.hb.pool.idleTimeout, start.hb.pool.maxLifetime)
    && Legal(cfg, start, steps)
  }

  lemma StartSound(start: World)
    requires start == Start(start.hb.pool.maxSize, start.hb.pool.idleTimeout, start.hb.pool.maxLifetime)
    ensures WorldSound(start)
  {
  }

  lemma AnyRunSound(cfg: Config, start: World, steps: seq<Step>)
    requires AnyRun(cfg, start, steps)
    ensures WorldSound(After(cfg, start, steps))
  {
    StartSound(start);
    RunSound(cfg, start, steps);
  }

  /** The ledger and the byte counts hold in every run. */
  lemma EveryRunBalances(cfg: Config, start: World, steps: seq<Step>)
    requires AnyRun(cfg, start, steps)
    ensures var w := After(cfg, start, steps); Balanced(w.hb, AskIds(w.Todo()), w.asked) && BytesCounted(w.hb)
  {
    AnyRunSound(cfg, start, steps);
  }

  /** After every tick nothing failed, cancelled, finished or broken is left. */
  lemma QuiescentAfterTick(cfg: Config, start: World, steps: seq<Step>, plan: Plan)
    requires AnyRun(cfg, start, steps) && Enabled(cfg, After(cfg, start, steps), TickStep(plan))
    ensures Quiescent(Next(cfg, After(cfg, start, steps), TickStep(plan)).hb)
  {
    AnyRunSound(cfg, start, steps);
    TickStepSound(cfg, After(cfg, start, steps), plan);
  }
}
