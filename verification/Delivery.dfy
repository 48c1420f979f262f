/** Delivery to clients over every run in which only the engine loop reports on jobs. */
module Delivery {
  import opened Messages
  import opened Seqs
  import opened Pendings
  import opened HeartbeatModel
  import opened Runs
  import opened Ledger

  /** What the client must be sent for a job, given what the engine made of it. */
  function EngineWrite(id: Id, r: Synthesis): Write {
    if r.statusCode == 0
    then Write(id, r.pcm, r.sampleRate, r.channels, Pcm, true, |r.pcm|, r.durationMs, 0, r.statusMsg)
    else Write(id, [], 16000, 1, Pcm, true, 0, 0, r.statusCode, r.statusMsg)
  }

  function Promised(jobs: seq<Job>, results: seq<Synthesis>): seq<Write>
    requires |results| <= |jobs|
  {
    seq(|results|, k requires 0 <= k < |results| => EngineWrite(jobs[k].id, results[k]))
  }

  /** The client write a report turns into. */
  function DoneWrite(m: Message): seq<Write> {
    match m
    case SynthComplete(done) => [CompleteWrite(done)]
    case SynthFailed(id, code, msg) => [FailedWrite(id, code, msg)]
    case _ => []
  }

  function DoneWrites(todo: seq<Message>): seq<Write> {
    if todo == [] then [] else DoneWrite(todo[0]) + DoneWrites(todo[1..])
  }

  lemma {:induction false} DoneWritesAppend(a: seq<Message>, b: seq<Message>)
    ensures DoneWrites(a + b) == DoneWrites(a) + DoneWrites(b)
  {
    if a == [] {
      assert a + b == b;
    } else {
      var m, rest := a[0], a[1..];
      DoneWritesAppend(rest, b);
      assert a + b == [m] + (rest + b);
      assert ([m] + (rest + b))[1..] == rest + b;
      Associative(DoneWrite(m), DoneWrites(rest), DoneWrites(b));
    }
  }

  lemma {:induction false} NoDoneWrites(todo: seq<Message>)
    requires forall m <- todo :: !m.IsDone()
    ensures DoneWrites(todo) == []
  {
    if todo != [] {
      assert todo[0] in todo;
      NoDoneWrites(todo[1..]);
    }
  }

  // ---- the invariant -------------------------------------------------------------------------

  /** Local writes are made from reports in order: delivered ones, then the ones still in `done`. */
  ghost predicate InOrder(w: Work, done: seq<Write>, results: seq<Synthesis>) {
    |results| <= |w.out.jobs| && w.audit.delivered + done == Promised(w.out.jobs, results)
  }

  /** The writes are the local ones and the upstream ones. */
  ghost predicate TwoKinds(w: Work) {
    && multiset(WriteIds(w.out.writes)) == multiset(WriteIds(w.audit.delivered)) + multiset(w.audit.emitted)
    && (w.audit.emitted == [] ==> w.out.writes == w.audit.delivered)
  }

  /** Audio can only reach a request that was bound upstream. */
  ghost predicate OnlyBoundHear(w: Work) {
    && (forall s <- w.pool.sessions ::
          w.pool.sessions[s].currentRequest == "" || w.pool.sessions[s].currentRequest in w.audit.bound)
    && (forall id <- w.pending :: w.pending[id].finalReceived ==> id in w.audit.bound)
  }

  function Held(w: Work, id: Id): nat { if id in w.pending then 1 else 0 }

  /** An id that only went local waits for a report; one that only went upstream has a binding left to emit. */
  ghost predicate Waiting(w: Work, done: seq<Write>, ran: nat, id: Id)
    requires ran <= |w.out.jobs|
  {
    && (id !in w.audit.bound ==>
          id !in w.audit.emitted && (id in w.pending ==> id in WriteIds(done) || id in JobIds(w.out.jobs[ran..])))
    && (id !in JobIds(w.out.jobs) ==> multiset(w.audit.emitted)[id] + Held(w, id) <= multiset(w.audit.bound)[id])
  }

  ghost predicate Tracked(cfg: Config, w: Work, done: seq<Write>, results: seq<Synthesis>, id: Id) {
    InOrder(w, done, results) && TwoKinds(w) && OnlyBoundHear(w) && Waiting(w, done, |results|, id)
    && (w.out.jobs != [] ==> cfg.hasEngine)
  }

  // ---- one message ---------------------------------------------------------------------------

  lemma LocalTracked(cfg: Config, w: Work, req: Request, done: seq<Write>, results: seq<Synthesis>, id: Id)
    requires Tracked(cfg, w, done, results, id) && cfg.hasEngine
    ensures Tracked(cfg, AskLocal(w, req), done, results, id)
  {
    var n, jobs, more := |results|, w.out.jobs, w.out.jobs + [JobOf(req)];
    assert Promised(more, results) == Promised(jobs, results);
    AppendJob(jobs, JobOf(req));
    AppendJob(jobs[n..], JobOf(req));
    assert more[n..] == jobs[n..] + [JobOf(req)];
    assert JobIds(more)[|jobs|] == req.id;
    assert JobIds(more[n..])[|jobs| - n] == req.id;
  }

  lemma BoundTracked(cfg: Config, w: Work, req: Request, session: Id, reused: bool, done: seq<Write>,
                     results: seq<Synthesis>, id: Id)
    requires Tracked(cfg, w, done, results, id)
    ensures Tracked(cfg, Bound(w, req, session, reused), done, results, id)
  {
    assert (w.audit.bound + [req.id])[|w.audit.bound|] == req.id;
  }

  lemma UpstreamTracked(cfg: Config, w: Work, req: Request, c: Choice, done: seq<Write>, results: seq<Synthesis>,
                        id: Id)
    requires Tracked(cfg, w, done, results, id)
    ensures Tracked(cfg, AskUpstream(w, req, c), done, results, id)
  {
    match Acquire(w.pool, c)
    case None =>
    case Some(g) => BoundTracked(cfg, w.(pool := g.pool), req, g.session, g.reused, done, results, id);
  }

  lemma AskTracked(cfg: Config, w: Work, req: Request, c: Choice, done: seq<Write>, results: seq<Synthesis>, id: Id)
    requires Tracked(cfg, w, done, results, id)
    ensures Tracked(cfg, HandleAsk(cfg, w, req, c), done, results, id)
  {
    var v := w.(metrics := Evaluated(cfg, w.metrics));
    if !Admits(cfg, w.metrics) {
    } else if ShouldUseLocal(cfg, req, c.engineReady) {
      LocalTracked(cfg, v, req, done, results, id);
    } else {
      UpstreamTracked(cfg, v, req, c, done, results, id);
    }
  }

  lemma EventTracked(cfg: Config, w: Work, rsp: Response, c: Choice, done: seq<Write>, results: seq<Synthesis>, id: Id)
    requires Tracked(cfg, w, done, results, id)
    ensures Tracked(cfg, HandleEvent(w, rsp, c), done, results, id)
  {
    EventsAreQuiet(w, rsp, c);
    EventKeepsIds(w, rsp, c);
    EventHeard(w, rsp, c);
    QuietTracked(cfg, w, HandleEvent(w, rsp, c), done, results, id);
  }

  lemma EventKeepsIds(w: Work, rsp: Response, c: Choice)
    ensures HandleEvent(w, rsp, c).pending.Keys == w.pending.Keys
  {
  }

  lemma EventHeard(w: Work, rsp: Response, c: Choice)
    requires OnlyBoundHear(w)
    ensures OnlyBoundHear(HandleEvent(w, rsp, c))
  {
    EventsAreQuiet(w, rsp, c);
    EventKeepsIds(w, rsp, c);
  }

  lemma QuietTracked(cfg: Config, w: Work, v: Work, done: seq<Write>, results: seq<Synthesis>, id: Id)
    requires Tracked(cfg, w, done, results, id) && v.out == w.out && v.pending.Keys == w.pending.Keys
             && OnlyBoundHear(v)
    requires v.audit.bound == w.audit.bound && v.audit.delivered == w.audit.delivered
             && v.audit.emitted == w.audit.emitted
    ensures Tracked(cfg, v, done, results, id)
  {
  }

  lemma DeliveredInOrder(w: Work, x: Write, done: seq<Write>, results: seq<Synthesis>)
    requires InOrder(w, [x] + done, results) && TwoKinds(w)
    ensures InOrder(Delivered(w, x), done, results) && TwoKinds(Delivered(w, x))
  {
    AppendWrite(w.out.writes, x);
    AppendWrite(w.audit.delivered, x);
    Associative(w.audit.delivered, [x], done);
  }

  lemma DeliveredWaiting(w: Work, x: Write, done: seq<Write>, ran: nat, id: Id)
    requires ran <= |w.out.jobs| && Waiting(w, [x] + done, ran, id)
    ensures Waiting(Delivered(w, x), done, ran, id)
  {
    assert WriteIds([x] + done) == [x.id] + WriteIds(done);
  }

  lemma DeliveredTracked(cfg: Config, w: Work, x: Write, done: seq<Write>, results: seq<Synthesis>, id: Id)
    requires Tracked(cfg, w, [x] + done, results, id)
    ensures Tracked(cfg, Delivered(w, x), done, results, id)
  {
    DeliveredInOrder(w, x, done, results);
    DeliveredWaiting(w, x, done, |results|, id);
  }

  lemma CancelTracked(cfg: Config, w: Work, x: Id, done: seq<Write>, results: seq<Synthesis>, id: Id)
    requires Tracked(cfg, w, done, results, id)
    ensures Tracked(cfg, HandleCancel(w, x), done, results, id)
  {
  }

  lemma ClockTracked(cfg: Config, w: Work, now: Time, done: seq<Write>, results: seq<Synthesis>, id: Id)
    requires Tracked(cfg, w, done, results, id)
    ensures Tracked(cfg, w.(audit := w.audit.(clock := now)), done, results, id)
  {
  }

  lemma ChangedTracked(cfg: Config, w: Work, changed: set<Id>, done: seq<Write>, results: seq<Synthesis>, id: Id)
    requires Tracked(cfg, w, done, results, id)
    ensures Tracked(cfg, w.(changedRequests := changed), done, results, id)
  {
  }

  lemma HandleTracked(cfg: Config, w: Work, m: Message, c: Choice, done: seq<Write>, results: seq<Synthesis>, id: Id)
    requires Tracked(cfg, w, DoneWrite(m) + done, results, id)
    ensures Tracked(cfg, Handle(cfg, w, m, c), done, results, id)
  {
    var v := w.(audit := w.audit.(clock := c.now));
    ClockTracked(cfg, w, c.now, DoneWrite(m) + done, results, id);
    assert !m.IsDone() ==> DoneWrite(m) + done == done;
    match m
    case Ask(req) => AskTracked(cfg, v, req, c, done, results, id);
    case WsEvent(rsp) => EventTracked(cfg, v, rsp, c, done, results, id);
    case Cancel(x) => CancelTracked(cfg, v, x, done, results, id);
    case SynthComplete(d) => DeliveredTracked(cfg, v, CompleteWrite(d), done, results, id);
    case SynthFailed(x, code, msg) =>
      var write := FailedWrite(x, code, msg);
      DeliveredTracked(cfg, v, write, done, results, id);
      ChangedTracked(cfg, Delivered(v, write), v.changedRequests + {x}, done, results, id);
  }

  lemma EmitTracked(cfg: Config, w: Work, x: Id, results: seq<Synthesis>, id: Id)
    requires Tracked(cfg, w, [], results, id) && x in w.pending && w.pending[x].finalReceived
    ensures Tracked(cfg, EmitOne(w, x), [], results, id)
  {
    EmitTwoKinds(w, x);
    EmitWaiting(w, x, |results|, id);
  }

  lemma EmitTwoKinds(w: Work, x: Id)
    requires TwoKinds(w) && OnlyBoundHear(w) && x in w.pending
    ensures TwoKinds(EmitOne(w, x)) && OnlyBoundHear(EmitOne(w, x))
  {
    AppendWrite(w.out.writes, EmittedWrite(x, w.pending[x]));
    assert (w.audit.emitted + [x])[|w.audit.emitted|] == x;
  }

  lemma EmitWaiting(w: Work, x: Id, ran: nat, id: Id)
    requires ran <= |w.out.jobs| && Waiting(w, [], ran, id) && x in w.pending && x in w.audit.bound
    ensures Waiting(EmitOne(w, x), [], ran, id)
  {
  }

  // ---- every run -----------------------------------------------------------------------------

  lemma {:induction false} ProcessTracked(cfg: Config, w: Work, batch: seq<Message>, choices: seq<Choice>,
                                          done: seq<Write>, results: seq<Synthesis>, id: Id)
    requires |choices| == |batch| && Tracked(cfg, w, DoneWrites(batch) + done, results, id)
    ensures Tracked(cfg, Process(cfg, w, batch, choices), done, results, id)
    decreases |batch|
  {
    if batch == [] {
      assert DoneWrites(batch) + done == done;
    } else {
      Associative(DoneWrite(batch[0]), DoneWrites(batch[1..]), done);
      HandleTracked(cfg, w, batch[0], choices[0], DoneWrites(batch[1..]) + done, results, id);
      ProcessTracked(cfg, Handle(cfg, w, batch[0], choices[0]), batch[1..], choices[1..], done, results, id);
    }
  }

  lemma {:induction false} EmitAllTracked(cfg: Config, w: Work, ready: seq<Id>, results: seq<Synthesis>, id: Id)
    requires Tracked(cfg, w, [], results, id) && Emittable(w, ready)
    ensures Tracked(cfg, EmitAll(w, ready), [], results, id)
    decreases |ready|
  {
    if ready != [] {
      assert ready[0] in ready;
      EmitTracked(cfg, w, ready[0], results, id);
      EmittableNext(w, ready);
      EmitAllTracked(cfg, EmitOne(w, ready[0]), ready[1..], results, id);
    }
  }

  lemma EvolveTracked(cfg: Config, w: Work, now: Time, o: Orders, results: seq<Synthesis>, id: Id)
    requires Tracked(cfg, w, [], results, id) && OrdersFit(w, now, o)
    ensures Tracked(cfg, Evolve(w, now, o), [], results, id)
  {
    var v := Evolve(w, now, o);
    assert forall s <- v.pool.sessions :: s in w.pool.sessions && v.pool.sessions[s] == w.pool.sessions[s];
    assert forall x <- v.pending :: x in w.pending && v.pending[x] == w.pending[x];
  }

  lemma TickTracked(cfg: Config, w: Work, batch: seq<Message>, plan: Plan, results: seq<Synthesis>, id: Id)
    requires PlanFits(cfg, w, batch, plan) && Tracked(cfg, w, DoneWrites(batch), results, id)
    ensures Tracked(cfg, Tick(cfg, w, batch, plan), [], results, id)
  {
    var v := Process(cfg, Fresh(w), batch, plan.choices);
    assert DoneWrites(batch) + [] == DoneWrites(batch);
    ProcessTracked(cfg, Fresh(w), batch, plan.choices, [], results, id);
    EmitAllTracked(cfg, v, plan.ready, results, id);
    EvolveTracked(cfg, EmitAll(v, plan.ready), plan.now, plan.orders, results, id);
  }

  ghost predicate WorldTracked(cfg: Config, w: World, id: Id) {
    Tracked(cfg, w.hb, DoneWrites(w.reqQ), w.results, id) && forall m <- w.wsQ :: !m.IsDone()
  }

  lemma NothingDone(q: seq<Message>, m: Message)
    requires !m.IsDone()
    ensures DoneWrites(q + [m]) == DoneWrites(q)
  {
    DoneWritesAppend(q, [m]);
    assert DoneWrites([m]) == [];
  }

  lemma BindTracked(cfg: Config, w: Work, x: Id, session: Id, done: seq<Write>, results: seq<Synthesis>, id: Id)
    requires Tracked(cfg, w, done, results, id)
    ensures Tracked(cfg, w.(pending := WithSession(w.pending, x, session)), done, results, id)
  {
  }

  lemma ReportTracked(cfg: Config, w: Work, done: seq<Write>, results: seq<Synthesis>, r: Synthesis, id: Id)
    requires Tracked(cfg, w, done, results, id) && |results| < |w.out.jobs|
    ensures Tracked(cfg, w, done + [EngineWrite(w.out.jobs[|results|].id, r)], results + [r], id)
  {
    var jobs, n := w.out.jobs, |results|;
    var x := EngineWrite(jobs[n].id, r);
    assert Promised(jobs, results + [r]) == Promised(jobs, results) + [x];
    Associative(w.audit.delivered, done, [x]);
    AppendWrite(done, x);
    assert JobIds(jobs[n..]) == [jobs[n].id] + JobIds(jobs[n + 1..]);
  }

  lemma RunJobTracked(cfg: Config, w: World, r: Synthesis, id: Id)
    requires WorldTracked(cfg, w, id) && Enabled(cfg, w, RunJob(r))
    ensures WorldTracked(cfg, Next(cfg, w, RunJob(r)), id)
  {
    var job := w.hb.out.jobs[|w.results|];
    var m := Report(job.id, r);
    DoneWritesAppend(w.reqQ, [m]);
    assert DoneWrites([m]) == [EngineWrite(job.id, r)];
    ReportTracked(cfg, w.hb, DoneWrites(w.reqQ), w.results, r, id);
  }

  lemma TickStepTracked(cfg: Config, w: World, plan: Plan, id: Id)
    requires WorldTracked(cfg, w, id) && PlanFits(cfg, w.hb, w.Todo(), plan)
    ensures Tracked(cfg, Tick(cfg, w.hb, w.Todo(), plan), [], w.results, id)
  {
    DoneWritesAppend(w.reqQ, w.wsQ);
    NoDoneWrites(w.wsQ);
    assert DoneWrites(w.Todo()) == DoneWrites(w.reqQ);
    TickTracked(cfg, w.hb, w.Todo(), plan, w.results, id);
  }

  lemma NextTracked(cfg: Config, w: World, s: Step, id: Id)
    requires WorldTracked(cfg, w, id) && Enabled(cfg, w, s) && EngineReports(s)
    ensures WorldTracked(cfg, Next(cfg, w, s), id)
  {
    match s
    case SendRequest(m) => NothingDone(w.reqQ, m);
    case SendWs(m) =>
    case Bind(x, session) => BindTracked(cfg, w.hb, x, session, DoneWrites(w.reqQ), w.results, id);
    case TickStep(plan) => TickStepTracked(cfg, w, plan, id);
    case RunJob(r) => RunJobTracked(cfg, w, r, id);
  }

  lemma {:induction false} RunTracked(cfg: Config, w: World, steps: seq<Step>, id: Id)
    requires WorldTracked(cfg, w, id) && Legal(cfg, w, steps) && forall s <- steps :: EngineReports(s)
    ensures WorldTracked(cfg, After(cfg, w, steps), id)
    decreases |steps|
  {
    if steps != [] {
      assert steps[0] in steps;
      NextTracked(cfg, w, steps[0], id);
      RunTracked(cfg, Next(cfg, w, steps[0]), steps[1..], id);
    }
  }

  // ---- the theorems --------------------------------------------------------------------------

  /** A run of the service from its empty board, in which only the engine loop reports on jobs. */
  ghost predicate ServiceRun(cfg: Config, start: World, steps: seq<Step>) {
    && start == Start(start.hb.pool.maxSize, start.hb.pool.idleTimeout, start.hb.pool.maxLifetime)
    && Legal(cfg, start, steps)
    && forall s <- steps :: EngineReports(s)
  }

  predicate Mixed(w: Work, id: Id) { id in JobIds(w.out.jobs) && id in w.audit.bound }

  lemma RunInvariants(cfg: Config, start: World, steps: seq<Step>, id: Id)
    requires ServiceRun(cfg, start, steps)
    ensures WorldSound(After(cfg, start, steps)) && WorldTracked(cfg, After(cfg, start, steps), id)
  {
    StartInvariants(cfg, start, id);
    RunSound(cfg, start, steps);
    RunTracked(cfg, start, steps, id);
  }

  lemma StartInvariants(cfg: Config, start: World, id: Id)
    requires start == Start(start.hb.pool.maxSize, start.hb.pool.idleTimeout, start.hb.pool.maxLifetime)
    ensures WorldSound(start) && WorldTracked(cfg, start, id)
  {
  }

  /** An id that was never routed both ways gets at most as many client writes as it was requested. */
  lemma WritesWithinRequests(cfg: Config, start: World, steps: seq<Step>, id: Id)
    requires ServiceRun(cfg, start, steps)
    requires !Mixed(After(cfg, start, steps).hb, id)
    ensures var w := After(cfg, start, steps);
            multiset(WriteIds(w.hb.out.writes))[id] + Held(w.hb, id)
            <= multiset(JobIds(w.hb.out.jobs))[id] + multiset(w.hb.audit.bound)[id]
            <= multiset(w.asked)[id]
  {
    RunInvariants(cfg, start, steps, id);
    var w := After(cfg, start, steps);
    UnmixedOpen(cfg, w.hb, DoneWrites(w.reqQ), w.results, id);
  }

  /** Each job is written, reported on or still to be done, exactly once. */
  lemma JobsAccounted(w: Work, done: seq<Write>, results: seq<Synthesis>)
    requires InOrder(w, done, results)
    ensures multiset(JobIds(w.out.jobs))
            == multiset(WriteIds(w.audit.delivered)) + multiset(WriteIds(done))
               + multiset(JobIds(w.out.jobs[|results|..]))
  {
    var jobs, n := w.out.jobs, |results|;
    assert WriteIds(w.audit.delivered + done) == WriteIds(w.audit.delivered) + WriteIds(done);
    assert WriteIds(Promised(jobs, results)) == JobIds(jobs)[..n];
    assert JobIds(jobs) == JobIds(jobs)[..n] + JobIds(jobs[n..]);
  }

  lemma UnmixedOpen(cfg: Config, w: Work, done: seq<Write>, results: seq<Synthesis>, id: Id)
    requires Tracked(cfg, w, done, results, id) && !Mixed(w, id)
    ensures multiset(WriteIds(w.out.writes))[id] + Held(w, id)
            <= multiset(JobIds(w.out.jobs))[id] + multiset(w.audit.bound)[id]
  {
    JobsAccounted(w, done, results);
    CountsOpen(JobIds(w.out.jobs), WriteIds(w.audit.delivered), WriteIds(done), JobIds(w.out.jobs[|results|..]),
               w.audit.emitted, w.audit.bound, id, Held(w, id));
  }

  /** The counting behind it, on the ids alone. */
  lemma CountsOpen(jobs: seq<Id>, delivered: seq<Id>, done: seq<Id>, todo: seq<Id>, emitted: seq<Id>, bound: seq<Id>,
                   id: Id, held: nat)
    requires multiset(jobs) == multiset(delivered) + multiset(done) + multiset(todo) && held <= 1
    requires id !in jobs || id !in bound
    requires id !in bound ==> id !in emitted && (held == 1 ==> id in done || id in todo)
    requires id !in jobs ==> multiset(emitted)[id] + held <= multiset(bound)[id]
    ensures multiset(delivered)[id] + multiset(emitted)[id] + held <= multiset(jobs)[id] + multiset(bound)[id]
  {
    assert multiset(jobs)[id] == multiset(delivered)[id] + multiset(done)[id] + multiset(todo)[id];
  }

  /** At-most-once delivery: an id requested once gets at most one client write, ever. */
  lemma AtMostOnce(cfg: Config, start: World, steps: seq<Step>, id: Id)
    requires ServiceRun(cfg, start, steps)
    requires multiset(After(cfg, start, steps).asked)[id] <= 1
    ensures multiset(WriteIds(After(cfg, start, steps).hb.out.writes))[id] <= 1
  {
    RunInvariants(cfg, start, steps, id);
    WritesWithinRequests(cfg, start, steps, id);
  }

  /**
   * In every run the local writes are the engine's results in job order, one for each job, up to the reports still on
   * their way; the other writes are the emitted upstream ones.
   */
  lemma ReportsInOrder(cfg: Config, start: World, steps: seq<Step>)
    requires ServiceRun(cfg, start, steps)
    ensures var w := After(cfg, start, steps);
            && |w.results| <= |w.hb.out.jobs|
            && w.hb.audit.delivered + DoneWrites(w.reqQ) == Promised(w.hb.out.jobs, w.results)
            && multiset(WriteIds(w.hb.out.writes))
               == multiset(WriteIds(w.hb.audit.delivered)) + multiset(w.hb.audit.emitted)
  {
    RunInvariants(cfg, start, steps, "");
  }

  /** When nothing was routed upstream, the writes are the engine's results in job order, up to the reports queued. */
  lemma LocalExactlyOnceInOrder(cfg: Config, start: World, steps: seq<Step>)
    requires ServiceRun(cfg, start, steps)
    requires Continues(After(cfg, start, steps).hb.out.frames) == 0
    ensures var w := After(cfg, start, steps);
            |w.results| <= |w.hb.out.jobs| && w.hb.out.writes + DoneWrites(w.reqQ) == Promised(w.hb.out.jobs, w.results)
  {
    RunInvariants(cfg, start, steps, "");
    var w := After(cfg, start, steps);
    assert w.hb.audit.bound == [];
    forall id ensures id !in w.hb.audit.emitted {
      RunInvariants(cfg, start, steps, id);
    }
    HeadIn(w.hb.audit.emitted);
  }
}
