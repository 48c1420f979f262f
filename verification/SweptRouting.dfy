/**
 * Ticks whose clock has reached the maximum lifetime empty the pool, so no chunk can come on a session bound in an
 * earlier tick: in runs of such ticks delivery and load stay within bounds in every configuration, whatever the ids.
 */
module SweptRouting {
  import opened Messages
  import opened Sessions
  import opened HeartbeatModel
  import opened Runs
  import opened Ledger
  import opened Delivery
  import opened Load
  import opened Listings
  import opened Evolution
  import opened MixedRouting
  import opened Routing
  import opened UnboundRouting

  /** There is a binding of the id that no emission has used. */
  ghost predicate Spare(w: Work, id: Id) { multiset(w.audit.emitted)[id] < multiset(w.audit.bound)[id] }

  /** Emissions use up bindings; a final entry has one in reserve, and any entry has one or an unreported job. */
  ghost predicate Token(w: Work, done: seq<Write>, ran: nat, id: Id)
    requires ran <= |w.out.jobs|
  {
    && multiset(w.audit.emitted)[id] <= multiset(w.audit.bound)[id]
    && (id in w.pending && w.pending[id].finalReceived ==> Spare(w, id))
    && (id in w.pending ==> Spare(w, id) || id in WriteIds(done) || id in JobIds(w.out.jobs[ran..]))
  }

  /** A session that names the id was bound to it in this tick. */
  ghost predicate Serving(w: Work, id: Id) {
    forall s <- w.pool.sessions :: w.pool.sessions[s].currentRequest == id ==> Spare(w, id)
  }

  // ---- one message ---------------------------------------------------------------------------

  lemma LocalToken(w: Work, req: Request, done: seq<Write>, ran: nat, id: Id)
    requires ran <= |w.out.jobs| && Token(w, done, ran, id) && Serving(w, id)
    ensures Token(AskLocal(w, req), done, ran, id) && Serving(AskLocal(w, req), id)
  {
    var jobs, more := w.out.jobs, w.out.jobs + [JobOf(req)];
    AppendJob(jobs[ran..], JobOf(req));
    assert more[ran..] == jobs[ran..] + [JobOf(req)];
    assert JobIds(more[ran..])[|jobs| - ran] == req.id;
  }

  lemma BoundToken(w: Work, req: Request, session: Id, reused: bool, done: seq<Write>, ran: nat, id: Id)
    requires ran <= |w.out.jobs| && Token(w, done, ran, id)
    requires forall s <- w.pool.sessions :: s != session && w.pool.sessions[s].currentRequest == id ==> Spare(w, id)
    ensures Token(Bound(w, req, session, reused), done, ran, id) && Serving(Bound(w, req, session, reused), id)
  {
  }

  lemma GrantServes(p: Pool, c: Choice)
    requires Acquire(p, c).Some?
    ensures var g := Acquire(p, c).value;
            forall s <- g.pool.sessions :: s != g.session ==> s in p.sessions && g.pool.sessions[s] == p.sessions[s]
  {
  }

  lemma AskToken(cfg: Config, w: Work, req: Request, c: Choice, done: seq<Write>, ran: nat, id: Id)
    requires ran <= |w.out.jobs| && Token(w, done, ran, id) && Serving(w, id)
    ensures Token(HandleAsk(cfg, w, req, c), done, ran, id) && Serving(HandleAsk(cfg, w, req, c), id)
  {
    var v := w.(metrics := Evaluated(cfg, w.metrics));
    if !Admits(cfg, w.metrics) {
    } else if ShouldUseLocal(cfg, req, c.engineReady) {
      LocalToken(v, req, done, ran, id);
    } else if Acquire(v.pool, c).Some? {
      var g := Acquire(v.pool, c).value;
      GrantServes(v.pool, c);
      BoundToken(v.(pool := g.pool), req, g.session, g.reused, done, ran, id);
    }
  }

  lemma EventToken(w: Work, rsp: Response, c: Choice, done: seq<Write>, ran: nat, id: Id)
    requires ran <= |w.out.jobs| && Token(w, done, ran, id) && Serving(w, id)
    ensures var v := HandleEvent(w, rsp, c); v.out == w.out && Token(v, done, ran, id) && Serving(v, id)
  {
    EventsAreQuiet(w, rsp, c);
    EventKeepsIds(w, rsp, c);
  }

  lemma DeliveredToken(w: Work, x: Write, done: seq<Write>, ran: nat, id: Id)
    requires ran <= |w.out.jobs| && Token(w, [x] + done, ran, id) && Serving(w, id)
    ensures Token(Delivered(w, x), done, ran, id) && Serving(Delivered(w, x), id)
  {
    assert WriteIds([x] + done) == [x.id] + WriteIds(done);
  }

  lemma ClockToken(w: Work, now: Time, done: seq<Write>, ran: nat, id: Id)
    requires ran <= |w.out.jobs| && Token(w, done, ran, id) && Serving(w, id)
    ensures var v := w.(audit := w.audit.(clock := now)); Token(v, done, ran, id) && Serving(v, id)
  {
  }

  lemma HandleToken(cfg: Config, w: Work, m: Message, c: Choice, done: seq<Write>, ran: nat, id: Id)
    requires ran <= |w.out.jobs| && Token(w, DoneWrite(m) + done, ran, id) && Serving(w, id)
    ensures var v := Handle(cfg, w, m, c); ran <= |v.out.jobs| && Token(v, done, ran, id) && Serving(v, id)
  {
    var v := w.(audit := w.audit.(clock := c.now));
    ClockToken(w, c.now, DoneWrite(m) + done, ran, id);
    assert !m.IsDone() ==> DoneWrite(m) + done == done;
    match m
    case Ask(req) => AskToken(cfg, v, req, c, done, ran, id);
    case WsEvent(rsp) => EventToken(v, rsp, c, done, ran, id);
    case Cancel(_) =>
    case SynthComplete(d) => DeliveredToken(v, CompleteWrite(d), done, ran, id);
    case SynthFailed(x, code, msg) => DeliveredToken(v, FailedWrite(x, code, msg), done, ran, id);
  }

  lemma EmitToken(w: Work, x: Id, ran: nat, id: Id)
    requires ran <= |w.out.jobs| && Token(w, [], ran, id) && x in w.pending && w.pending[x].finalReceived
    ensures Token(EmitOne(w, x), [], ran, id)
  {
  }

  // ---- covered -------------------------------------------------------------------------------

  lemma TokenCovers(w: Work, done: seq<Write>, results: seq<Synthesis>, id: Id)
    requires InOrder(w, done, results) && TwoKinds(w) && Token(w, done, |results|, id)
    ensures multiset(WriteIds(w.out.writes))[id] + Held(w, id)
            <= multiset(JobIds(w.out.jobs))[id] + multiset(w.audit.bound)[id]
  {
    JobsAccounted(w, done, results);
    var todo := JobIds(w.out.jobs[|results|..]);
    assert multiset(JobIds(w.out.jobs))[id]
           == multiset(WriteIds(w.audit.delivered))[id] + multiset(WriteIds(done))[id] + multiset(todo)[id];
  }

  /** Everything known in the middle of a batch. */
  ghost predicate Swept(cfg: Config, w: Work, done: seq<Write>, results: seq<Synthesis>) {
    && AllTracked(cfg, w, done, results) && |results| <= |w.out.jobs|
    && forall id :: Token(w, done, |results|, id)
  }

  lemma SweptCovered(cfg: Config, w: Work, done: seq<Write>, results: seq<Synthesis>)
    requires Swept(cfg, w, done, results)
    ensures Covered(w)
  {
    forall id ensures multiset(WriteIds(w.out.writes))[id] + Held(w, id)
                      <= multiset(JobIds(w.out.jobs))[id] + multiset(w.audit.bound)[id]
    {
      assert Tracked(cfg, w, done, results, id) && Token(w, done, |results|, id);
      TokenCovers(w, done, results, id);
    }
  }

  ghost predicate AllServing(w: Work) { forall id :: Serving(w, id) }

  lemma HandleSwept(cfg: Config, w: Work, m: Message, c: Choice, done: seq<Write>, results: seq<Synthesis>)
    requires Swept(cfg, w, DoneWrite(m) + done, results) && AllServing(w)
    ensures Swept(cfg, Handle(cfg, w, m, c), done, results) && AllServing(Handle(cfg, w, m, c))
  {
    HandleAllTracked(cfg, w, m, c, done, results);
    HandleGrows(cfg, w, m, c);
    forall id ensures Token(Handle(cfg, w, m, c), done, |results|, id) && Serving(Handle(cfg, w, m, c), id) {
      assert Token(w, DoneWrite(m) + done, |results|, id) && Serving(w, id);
      HandleToken(cfg, w, m, c, done, |results|, id);
    }
  }

  lemma {:induction false} ProcessSwept(cfg: Config, w: Work, batch: seq<Message>, choices: seq<Choice>,
                                        results: seq<Synthesis>)
    requires |choices| == |batch| && Swept(cfg, w, DoneWrites(batch), results) && AllServing(w)
    ensures Swept(cfg, Process(cfg, w, batch, choices), [], results)
    decreases |batch|
  {
    if batch != [] {
      HandleSwept(cfg, w, batch[0], choices[0], DoneWrites(batch[1..]), results);
      ProcessSwept(cfg, Handle(cfg, w, batch[0], choices[0]), batch[1..], choices[1..], results);
    }
  }

  lemma {:induction false} ProcessSweptWithin(cfg: Config, w: Work, batch: seq<Message>, choices: seq<Choice>,
                                              results: seq<Synthesis>, asked: seq<Id>)
    requires |choices| == |batch| && Swept(cfg, w, DoneWrites(batch), results) && AllServing(w)
    requires cfg.highWatermark < WORD && Within(cfg, w) && Balanced(w, AskIds(batch), asked)
    ensures Within(cfg, Process(cfg, w, batch, choices)) && NeverAtZero(cfg, w, batch, choices)
    decreases |batch|
  {
    if batch != [] {
      var m, c, rest := batch[0], choices[0], batch[1..];
      HandleSwept(cfg, w, m, c, DoneWrites(rest), results);
      SweptCovered(cfg, Handle(cfg, w, m, c), DoneWrites(rest), results);
      HandleCovered(cfg, w, m, c, AskIds(rest), asked);
      ProcessSweptWithin(cfg, Handle(cfg, w, m, c), rest, choices[1..], results, asked);
    }
  }

  lemma EmitSwept(cfg: Config, w: Work, x: Id, results: seq<Synthesis>)
    requires Swept(cfg, w, [], results) && x in w.pending && w.pending[x].finalReceived
    ensures Swept(cfg, EmitOne(w, x), [], results)
  {
    forall id ensures Tracked(cfg, EmitOne(w, x), [], results, id) && Token(EmitOne(w, x), [], |results|, id) {
      assert Tracked(cfg, w, [], results, id) && Token(w, [], |results|, id);
      EmitTracked(cfg, w, x, results, id);
      EmitToken(w, x, |results|, id);
    }
  }

  lemma {:induction false} EmitAllSwept(cfg: Config, w: Work, ready: seq<Id>, results: seq<Synthesis>)
    requires Swept(cfg, w, [], results) && Emittable(w, ready)
    ensures Swept(cfg, EmitAll(w, ready), [], results)
    ensures cfg.highWatermark < WORD && Within(cfg, w) ==> Within(cfg, EmitAll(w, ready)) && EmitNeverAtZero(w, ready)
    decreases |ready|
  {
    if ready != [] {
      assert ready[0] in ready;
      EmitSwept(cfg, w, ready[0], results);
      SweptCovered(cfg, EmitOne(w, ready[0]), [], results);
      if cfg.highWatermark < WORD && Within(cfg, w) { EmitCovered(cfg, w, ready[0]); }
      EmittableNext(w, ready);
      EmitAllSwept(cfg, EmitOne(w, ready[0]), ready[1..], results);
    }
  }

  // ---- every run -----------------------------------------------------------------------------

  predicate SweptStep(s: Step, life: int) { s.TickStep? ==> s.plan.now >= life }

  ghost predicate SweptWorld(cfg: Config, w: World, life: int) {
    && Steady(cfg, w) && Swept(cfg, w.hb, DoneWrites(w.reqQ), w.results)
    && Ageless(w.hb.pool) && w.hb.pool.sessions == map[] && w.hb.pool.maxLifetime == life
  }

  lemma TodoDone(cfg: Config, w: World)
    requires Steady(cfg, w)
    ensures DoneWrites(w.Todo()) == DoneWrites(w.reqQ)
  {
    assert WorldTracked(cfg, w, "");
    DoneWritesAppend(w.reqQ, w.wsQ);
    NoDoneWrites(w.wsQ);
  }

  lemma StartOfSweptTick(cfg: Config, w: World, life: int)
    requires SweptWorld(cfg, w, life)
    ensures Swept(cfg, Fresh(w.hb), DoneWrites(w.Todo()), w.results) && AllServing(Fresh(w.hb))
  {
    TodoDone(cfg, w);
    TodoAllTracked(cfg, w);
    forall id ensures Token(Fresh(w.hb), DoneWrites(w.Todo()), |w.results|, id) {
      assert Token(w.hb, DoneWrites(w.reqQ), |w.results|, id);
    }
  }

  lemma UnevolvedSwept(cfg: Config, w: World, plan: Plan, life: int)
    requires SweptWorld(cfg, w, life) && Enabled(cfg, w, TickStep(plan))
    ensures Swept(cfg, Unevolved(cfg, w, plan), [], w.results)
  {
    StartOfSweptTick(cfg, w, life);
    ProcessSwept(cfg, Fresh(w.hb), w.Todo(), plan.choices, w.results);
    EmitAllSwept(cfg, Process(cfg, Fresh(w.hb), w.Todo(), plan.choices), plan.ready, w.results);
  }

  lemma EvolveToken(w: Work, now: Time, o: Orders, ran: nat, id: Id)
    requires ran <= |w.out.jobs| && Token(w, [], ran, id) && OrdersFit(w, now, o)
    ensures Token(Fresh(Evolve(w, now, o)), [], ran, id)
  {
  }

  lemma TickPool(cfg: Config, w: World, plan: Plan, life: int)
    requires SweptWorld(cfg, w, life) && Enabled(cfg, w, TickStep(plan)) && plan.now >= life
    ensures var p := Next(cfg, w, TickStep(plan)).hb.pool; Ageless(p) && p.sessions == map[] && p.maxLifetime == life
  {
    var u := Unevolved(cfg, w, plan);
    NextAgeless(cfg, w, TickStep(plan));
    UnevolvedAgeless(cfg, w, plan);
    ProcessKeeps(cfg, Fresh(w.hb), w.Todo(), plan.choices);
    EmitAllKeeps(Process(cfg, Fresh(w.hb), w.Todo(), plan.choices), plan.ready);
    NoneYoung(u.pool, u.changedSessions, plan.now);
  }

  lemma TickTokens(cfg: Config, w: World, plan: Plan, life: int, id: Id)
    requires SweptWorld(cfg, w, life) && Enabled(cfg, w, TickStep(plan))
    ensures var v := Next(cfg, w, TickStep(plan)); |v.results| <= |v.hb.out.jobs| && Token(v.hb, [], |v.results|, id)
  {
    UnevolvedSwept(cfg, w, plan, life);
    EvolveToken(Unevolved(cfg, w, plan), plan.now, plan.orders, |w.results|, id);
  }

  lemma ReportToken(w: Work, done: seq<Write>, ran: nat, x: Write, id: Id)
    requires ran < |w.out.jobs| && Token(w, done, ran, id) && x.id == w.out.jobs[ran].id
    ensures Token(w, done + [x], ran + 1, id)
  {
    AppendWrite(done, x);
    assert JobIds(w.out.jobs[ran..]) == [w.out.jobs[ran].id] + JobIds(w.out.jobs[ran + 1..]);
  }

  lemma ReportQueued(cfg: Config, w: World, r: Synthesis)
    requires cfg.hasEngine && Enabled(cfg, w, RunJob(r))
    ensures var id := w.hb.out.jobs[|w.results|].id;
            DoneWrites(Next(cfg, w, RunJob(r)).reqQ) == DoneWrites(w.reqQ) + [EngineWrite(id, r)]
  {
    var m := Report(w.hb.out.jobs[|w.results|].id, r);
    DoneWritesAppend(w.reqQ, [m]);
    assert DoneWrites([m]) == DoneWrite(m) + DoneWrites([]);
  }

  lemma RunJobToken(cfg: Config, w: World, r: Synthesis, id: Id)
    requires cfg.hasEngine && Enabled(cfg, w, RunJob(r)) && Token(w.hb, DoneWrites(w.reqQ), |w.results|, id)
    ensures var v := Next(cfg, w, RunJob(r));
            |v.results| <= |v.hb.out.jobs| && Token(v.hb, DoneWrites(v.reqQ), |v.results|, id)
  {
    ReportQueued(cfg, w, r);
    ReportToken(w.hb, DoneWrites(w.reqQ), |w.results|, EngineWrite(w.hb.out.jobs[|w.results|].id, r), id);
  }

  lemma NextToken(cfg: Config, w: World, s: Step, life: int, id: Id)
    requires SweptWorld(cfg, w, life) && Enabled(cfg, w, s) && EngineReports(s)
    ensures var v := Next(cfg, w, s);
            |v.results| <= |v.hb.out.jobs| && Token(v.hb, DoneWrites(v.reqQ), |v.results|, id)
  {
    assert WorldTracked(cfg, w, id) && Token(w.hb, DoneWrites(w.reqQ), |w.results|, id);
    match s
    case SendRequest(m) => NothingDone(w.reqQ, m);
    case SendWs(_) =>
    case Bind(_, _) =>
    case TickStep(plan) => TickTokens(cfg, w, plan, life, id);
    case RunJob(r) => RunJobToken(cfg, w, r, id);
  }

  lemma SteadySwept(cfg: Config, w: World)
    requires Steady(cfg, w) && |w.results| <= |w.hb.out.jobs|
    requires forall id :: Token(w.hb, DoneWrites(w.reqQ), |w.results|, id)
    ensures Swept(cfg, w.hb, DoneWrites(w.reqQ), w.results)
  {
    forall id ensures Tracked(cfg, w.hb, DoneWrites(w.reqQ), w.results, id) { assert WorldTracked(cfg, w, id); }
  }

  lemma NextSwept(cfg: Config, w: World, s: Step, life: int)
    requires SweptWorld(cfg, w, life) && Enabled(cfg, w, s) && EngineReports(s) && SweptStep(s, life)
    ensures SweptWorld(cfg, Next(cfg, w, s), life)
  {
    var v := Next(cfg, w, s);
    NextSteady(cfg, w, s);
    NextToken(cfg, w, s, life, "");
    forall id ensures Token(v.hb, DoneWrites(v.reqQ), |v.results|, id) { NextToken(cfg, w, s, life, id); }
    SteadySwept(cfg, v);
    if s.TickStep? { TickPool(cfg, w, s.plan, life); }
  }

  lemma SweptTickWithin(cfg: Config, w: World, plan: Plan, life: int)
    requires cfg.highWatermark < WORD && SweptWorld(cfg, w, life) && Within(cfg, w.hb)
    requires Enabled(cfg, w, TickStep(plan))
    ensures Within(cfg, Next(cfg, w, TickStep(plan)).hb) && TickNeverAtZero(cfg, w, plan)
  {
    StartOfSweptTick(cfg, w, life);
    ProcessSwept(cfg, Fresh(w.hb), w.Todo(), plan.choices, w.results);
    ProcessSweptWithin(cfg, Fresh(w.hb), w.Todo(), plan.choices, w.results, w.asked);
    EmitAllSwept(cfg, Process(cfg, Fresh(w.hb), w.Todo(), plan.choices), plan.ready, w.results);
  }

  lemma NextSweptWithin(cfg: Config, w: World, s: Step, life: int)
    requires cfg.highWatermark < WORD && SweptWorld(cfg, w, life) && Within(cfg, w.hb) && Enabled(cfg, w, s)
    ensures Within(cfg, Next(cfg, w, s).hb)
  {
    if s.TickStep? { SweptTickWithin(cfg, w, s.plan, life); }
  }

  lemma {:induction false} RunSwept(cfg: Config, w: World, steps: seq<Step>, life: int)
    requires SweptWorld(cfg, w, life) && Legal(cfg, w, steps)
    requires forall s <- steps :: EngineReports(s) && SweptStep(s, life)
    ensures SweptWorld(cfg, After(cfg, w, steps), life)
    decreases |steps|
  {
    if steps != [] {
      assert steps[0] in steps;
      NextSwept(cfg, w, steps[0], life);
      RunSwept(cfg, Next(cfg, w, steps[0]), steps[1..], life);
    }
  }

  lemma {:induction false} RunSweptWithin(cfg: Config, w: World, steps: seq<Step>, life: int)
    requires cfg.highWatermark < WORD && SweptWorld(cfg, w, life) && Within(cfg, w.hb) && Legal(cfg, w, steps)
    requires forall s <- steps :: EngineReports(s) && SweptStep(s, life)
    ensures Within(cfg, After(cfg, w, steps).hb)
    decreases |steps|
  {
    if steps != [] {
      assert steps[0] in steps;
      NextSwept(cfg, w, steps[0], life);
      NextSweptWithin(cfg, w, steps[0], life);
      RunSweptWithin(cfg, Next(cfg, w, steps[0]), steps[1..], life);
    }
  }

  lemma StartSwept(cfg: Config, start: World)
    requires start == Start(start.hb.pool.maxSize, start.hb.pool.idleTimeout, start.hb.pool.maxLifetime)
    ensures SweptWorld(cfg, start, start.hb.pool.maxLifetime) && Within(cfg, start.hb)
  {
    StartSteady(cfg, start);
    forall id ensures Tracked(cfg, start.hb, DoneWrites(start.reqQ), start.results, id) {
      assert WorldTracked(cfg, start, id);
    }
  }

  // ---- the theorems --------------------------------------------------------------------------

  /** A run of the service in which every tick's clock has reached the maximum lifetime. */
  ghost predicate SweptRun(cfg: Config, start: World, steps: seq<Step>) {
    ServiceRun(cfg, start, steps) && forall s <- steps :: SweptStep(s, start.hb.pool.maxLifetime)
  }

  lemma AcceptedAsked(w: World, id: Id)
    requires WorldSound(w) && Covered(w.hb)
    ensures WithinRequests(w, id)
  {
    assert multiset(JobIds(w.hb.out.jobs))[id] + multiset(w.hb.audit.bound)[id] <= multiset(w.asked)[id];
  }

  /** In such runs no id gets more client writes than it was requested, in any configuration, bound or not. */
  lemma {:induction false} SweptDelivery(cfg: Config, start: World, steps: seq<Step>, id: Id)
    requires SweptRun(cfg, start, steps)
    ensures WithinRequests(After(cfg, start, steps), id)
  {
    StartSwept(cfg, start);
    RunSwept(cfg, start, steps, start.hb.pool.maxLifetime);
    var w := After(cfg, start, steps);
    SweptCovered(cfg, w.hb, DoneWrites(w.reqQ), w.results);
    AcceptedAsked(w, id);
  }

  /** Nor does the load leave its bounds. */
  lemma {:induction false} SweptLoad(cfg: Config, start: World, steps: seq<Step>)
    requires cfg.highWatermark < WORD && SweptRun(cfg, start, steps)
    ensures LoadBounded(cfg, After(cfg, start, steps).hb)
  {
    StartSwept(cfg, start);
    RunSwept(cfg, start, steps, start.hb.pool.maxLifetime);
    RunSweptWithin(cfg, start, steps, start.hb.pool.maxLifetime);
    var w := After(cfg, start, steps);
    SweptCovered(cfg, w.hb, DoneWrites(w.reqQ), w.results);
    PendingCounted(w.hb);
  }

  /** Nor does any of their ticks decrement a zero counter. */
  lemma {:induction false} SweptUnderflow(cfg: Config, start: World, steps: seq<Step>, plan: Plan)
    requires cfg.highWatermark < WORD && SweptRun(cfg, start, steps)
    requires Enabled(cfg, After(cfg, start, steps), TickStep(plan))
    ensures TickNeverAtZero(cfg, After(cfg, start, steps), plan)
  {
    StartSwept(cfg, start);
    RunSwept(cfg, start, steps, start.hb.pool.maxLifetime);
    RunSweptWithin(cfg, start, steps, start.hb.pool.maxLifetime);
    SweptTickWithin(cfg, After(cfg, start, steps), plan, start.hb.pool.maxLifetime);
  }

  // ---- clocks that start at their epoch ------------------------------------------------------

  /** No reading of the step is before the clock's epoch. */
  predicate SinceEpoch(s: Step) {
    s.TickStep? ==> s.plan.now >= 0 && forall c <- s.plan.choices :: c.now >= 0
  }

  ghost predicate EpochRun(cfg: Config, start: World, steps: seq<Step>) {
    UnboundServiceRun(cfg, start, steps) && forall s <- steps :: SinceEpoch(s)
  }

  /** Both kinds of request can be open at once, and a session can outlive a tick. */
  predicate Exposed(cfg: Config, p: Pool) { BothAtOnce(cfg, p) && p.maxLifetime > 0 }

  lemma TickSinceEpoch(now: Time, messages: nat, ready: seq<Id>)
    requires now >= 0
    ensures SinceEpoch(CalmTick(now, messages, ready))
  {
  }

  lemma TroubleSinceEpoch(k: Scenario)
    requires k.now >= 0
    ensures forall s <- UnboundRun(k) :: SinceEpoch(s)
    ensures forall s <- UnboundPart(k) + LocalPart(k) :: SinceEpoch(s)
  {
    TickSinceEpoch(k.now, 1, []);
    TickSinceEpoch(k.now, 2, [k.near.id]);
    assert forall s <- LocalPart(k) :: SinceEpoch(s);
    assert forall s <- Round(k) :: SinceEpoch(s);
    assert forall s <- UnboundPart(k) :: SinceEpoch(s);
  }

  lemma EpochSwept(cfg: Config, start: World, steps: seq<Step>)
    requires EpochRun(cfg, start, steps) && start.hb.pool.maxLifetime <= 0
    ensures SweptRun(cfg, start, steps)
  {
  }

  ghost predicate EpochNeverOverdelivers(cfg: Config, start: World) {
    forall steps, id | EpochRun(cfg, start, steps) :: WithinRequests(After(cfg, start, steps), id)
  }

  /** With such clocks and no binding steps, exactly the services that are not exposed never overdeliver. */
  lemma EpochDeliveryIsExact(cfg: Config, start: World)
    requires start == Start(start.hb.pool.maxSize, start.hb.pool.idleTimeout, start.hb.pool.maxLifetime)
    ensures EpochNeverOverdelivers(cfg, start) <==> !Exposed(cfg, start.hb.pool)
  {
    if Exposed(cfg, start.hb.pool) {
      var k := Trouble(start);
      TroubleFits(cfg, start);
      WholeUnboundRun(k, cfg, start);
      TroubleSinceEpoch(k);
      assert !WithinRequests(After(cfg, start, UnboundRun(k)), k.up.id);
    } else if start.hb.pool.maxLifetime <= 0 {
      forall steps, id | EpochRun(cfg, start, steps) ensures WithinRequests(After(cfg, start, steps), id) {
        EpochSwept(cfg, start, steps);
        SweptDelivery(cfg, start, steps, id);
      }
    } else {
      UnboundDeliveryIsExact(cfg, start);
    }
  }

  ghost predicate EpochAlwaysBounded(cfg: Config, start: World) {
    forall steps | EpochRun(cfg, start, steps) :: LoadBounded(cfg, After(cfg, start, steps).hb)
  }

  /** Exactly those keep their load bounded. */
  lemma EpochLoadIsExact(cfg: Config, start: World)
    requires start == Start(start.hb.pool.maxSize, start.hb.pool.idleTimeout, start.hb.pool.maxLifetime)
    requires cfg.highWatermark < WORD
    ensures EpochAlwaysBounded(cfg, start) <==> !Exposed(cfg, start.hb.pool)
  {
    if Exposed(cfg, start.hb.pool) {
      var k := Trouble(start);
      TroubleFits(cfg, start);
      WholeUnboundRun(k, cfg, start);
      TroubleSinceEpoch(k);
      AnyRunSound(cfg, start, UnboundRun(k));
      OverdeliveredUnbounded(cfg, After(cfg, start, UnboundRun(k)), k.up.id);
    } else if start.hb.pool.maxLifetime <= 0 {
      forall steps | EpochRun(cfg, start, steps) ensures LoadBounded(cfg, After(cfg, start, steps).hb) {
        EpochSwept(cfg, start, steps);
        SweptLoad(cfg, start, steps);
      }
    } else {
      UnboundLoadIsExact(cfg, start);
    }
  }

  ghost predicate EpochNeverUnderflows(cfg: Config, start: World) {
    forall steps, plan | EpochRun(cfg, start, steps)
                         && Enabled(cfg, After(cfg, start, steps), TickStep(plan)) && SinceEpoch(TickStep(plan)) ::
      TickNeverAtZero(cfg, After(cfg, start, steps), plan)
  }

  /** Exactly those never decrement a zero counter. */
  lemma EpochUnderflowIsExact(cfg: Config, start: World)
    requires start == Start(start.hb.pool.maxSize, start.hb.pool.idleTimeout, start.hb.pool.maxLifetime)
    requires cfg.highWatermark < WORD
    ensures EpochNeverUnderflows(cfg, start) <==> !Exposed(cfg, start.hb.pool)
  {
    if Exposed(cfg, start.hb.pool) {
      var k := Trouble(start);
      TroubleFits(cfg, start);
      WholeUnboundRun(k, cfg, start);
      TroubleSinceEpoch(k);
      TickSinceEpoch(k.now, 1, []);
      TippingUnderflows(k, cfg, After(cfg, start, UnboundPart(k) + LocalPart(k)), CalmTick(k.now, 1, []).plan);
    } else if start.hb.pool.maxLifetime <= 0 {
      forall steps, plan | EpochRun(cfg, start, steps)
                           && Enabled(cfg, After(cfg, start, steps), TickStep(plan)) && SinceEpoch(TickStep(plan))
        ensures TickNeverAtZero(cfg, After(cfg, start, steps), plan)
      {
        EpochSwept(cfg, start, steps);
        SweptUnderflow(cfg, start, steps, plan);
      }
    } else {
      UnboundUnderflowIsExact(cfg, start);
    }
  }
}
