/**
 * Exactly which configurations keep delivery and load within bounds in runs without binding steps, whatever ids their
 * clients use: a service that can have at most one request open is safe as well.
 */
module UnboundRouting {
  import opened Messages
  import opened Seqs
  import opened Sessions
  import opened Pendings
  import opened HeartbeatModel
  import opened Runs
  import opened Ledger
  import opened Delivery
  import opened Load
  import opened Shutdown
  import opened MixedRouting
  import opened Routing

  /** The service can have an upstream and a local request open at once. */
  predicate BothAtOnce(cfg: Config, p: Pool) { BothRoutes(cfg, p) && cfg.highWatermark > 1 }

  /** A run in which no binding step is made, as the service itself makes none. */
  ghost predicate UnboundServiceRun(cfg: Config, start: World, steps: seq<Step>) {
    ServiceRun(cfg, start, steps) && forall s <- steps :: !s.Bind?
  }

  // ---- a watermark of one --------------------------------------------------------------------

  /** One upstream request holds the only slot for good; every local one was written exactly once. */
  ghost predicate Filled(cfg: Config, w: Work) {
    && Shut(cfg, w) && |w.audit.bound| == 1 && w.metrics.inflight == 1 && |w.pending.Keys| <= 1
    && multiset(WriteIds(w.out.writes)) == multiset(JobIds(w.out.jobs))
  }

  lemma FrozenFilled(cfg: Config, w: Work, v: Work)
    requires Filled(cfg, w) && Frozen(w, v) && Shut(cfg, v)
    ensures Filled(cfg, v)
  {
    SubsetCardinality(v.pending.Keys, w.pending.Keys);
  }

  lemma NoReports(w: Work, done: seq<Write>, results: seq<Synthesis>)
    requires InOrder(w, done, results) && TwoKinds(w) && w.audit.emitted == [] && |w.out.writes| == |w.out.jobs|
    ensures done == [] && multiset(WriteIds(w.out.writes)) == multiset(JobIds(w.out.jobs))
    ensures |results| == |w.out.jobs|
  {
    assert |Promised(w.out.jobs, results)| == |w.audit.delivered| + |done|;
    JobsAccounted(w, done, results);
    assert w.out.jobs[|results|..] == [];
  }

  lemma {:induction false} NoReportsQueued(ms: seq<Message>)
    requires DoneWrites(ms) == []
    ensures forall m <- ms :: !m.IsDone()
  {
    if ms != [] {
      assert |DoneWrite(ms[0])| == 0;
      NoReportsQueued(ms[1..]);
    }
  }

  lemma NoneEmittedYet(cfg: Config, w: Work, done: seq<Write>, results: seq<Synthesis>)
    requires AllTracked(cfg, w, done, results) && w.audit.bound == []
    ensures w.audit.emitted == []
  {
    forall id ensures id !in w.audit.emitted { assert Tracked(cfg, w, done, results, id); }
    HeadIn(w.audit.emitted);
  }

  /** The first upstream request is accepted only when nothing else is open, and then fills the watermark. */
  lemma FirstBound(cfg: Config, w: Work, m: Message, c: Choice, done: seq<Write>, results: seq<Synthesis>)
    requires cfg.highWatermark == 1 && Within(cfg, w) && AllTracked(cfg, w, DoneWrite(m) + done, results)
    requires w.audit.bound == [] && Handle(cfg, w, m, c).audit.bound != []
    ensures Filled(cfg, Handle(cfg, w, m, c)) && done == [] && |results| == |Handle(cfg, w, m, c).out.jobs|
  {
    BindingAsk(cfg, w, m, c);
    NoneEmittedYet(cfg, w, DoneWrite(m) + done, results);
    UnmixedCovered(cfg, w, DoneWrite(m) + done, results);
    PendingCounted(w);
    assert Tracked(cfg, w, DoneWrite(m) + done, results, "");
    NoReports(w, DoneWrite(m) + done, results);
  }

  /** What can bind: a request admitted with the counter at zero. */
  lemma BindingAsk(cfg: Config, w: Work, m: Message, c: Choice)
    requires cfg.highWatermark == 1 && w.audit.bound == [] && Handle(cfg, w, m, c).audit.bound != []
    ensures m.Ask? && w.metrics.inflight == 0
    ensures var v := Handle(cfg, w, m, c);
            && v.metrics.inflight == 1 && |v.audit.bound| == 1
            && v.out.jobs == w.out.jobs && v.out.writes == w.out.writes
            && exists p :: v.pending == w.pending[m.req.id := p] && p.state == AwaitingSession
  {
    if m.WsEvent? { EventsAreQuiet(w.(audit := w.audit.(clock := c.now)), m.rsp, c); }
  }

  lemma {:induction false} NoDecrements(cfg: Config, w: Work, batch: seq<Message>, choices: seq<Choice>)
    requires |choices| == |batch| && forall m <- batch :: !m.IsDone()
    ensures NeverAtZero(cfg, w, batch, choices)
    decreases |batch|
  {
    if batch != [] {
      assert batch[0] in batch;
      NoDecrements(cfg, Handle(cfg, w, batch[0], choices[0]), batch[1..], choices[1..]);
    }
  }

  /** Before the first upstream request the load is within bounds; from it on the service has stopped. */
  lemma {:induction false} LowBatch(cfg: Config, w: Work, batch: seq<Message>, choices: seq<Choice>,
                                    results: seq<Synthesis>, asked: seq<Id>)
    requires |choices| == |batch| && cfg.highWatermark == 1 && Within(cfg, w) && w.audit.bound == []
    requires Balanced(w, AskIds(batch), asked) && AllTracked(cfg, w, DoneWrites(batch), results)
    ensures var v := Process(cfg, w, batch, choices);
            (v.audit.bound == [] && Within(cfg, v)) || (Filled(cfg, v) && |results| == |v.out.jobs|)
    ensures NeverAtZero(cfg, w, batch, choices)
    decreases |batch|
  {
    if batch != [] {
      var m, c, rest := batch[0], choices[0], batch[1..];
      var v := Handle(cfg, w, m, c);
      if v.audit.bound == [] {
        HandleWithin(cfg, w, m, c, DoneWrites(rest), results, AskIds(rest), asked);
        LowBatch(cfg, v, rest, choices[1..], results, asked);
      } else {
        BindingAsk(cfg, w, m, c);
        FirstBound(cfg, w, m, c, DoneWrites(rest), results);
        NoReportsQueued(rest);
        ProcessShut(cfg, v, rest, choices[1..]);
        FrozenFilled(cfg, v, Process(cfg, v, rest, choices[1..]));
        NoDecrements(cfg, v, rest, choices[1..]);
      }
    }
  }

  ghost predicate Low(cfg: Config, w: World) {
    && Steady(cfg, w)
    && ((w.hb.audit.bound == [] && Within(cfg, w.hb)) || (Filled(cfg, w.hb) && ShutDown(cfg, w)))
  }

  lemma ProcessAllTracked(cfg: Config, w: World, choices: seq<Choice>)
    requires Steady(cfg, w) && |choices| == |w.Todo()|
    ensures AllTracked(cfg, Process(cfg, Fresh(w.hb), w.Todo(), choices), [], w.results)
  {
    TodoAllTracked(cfg, w);
    assert DoneWrites(w.Todo()) + [] == DoneWrites(w.Todo());
    forall id ensures Tracked(cfg, Process(cfg, Fresh(w.hb), w.Todo(), choices), [], w.results, id) {
      assert Tracked(cfg, Fresh(w.hb), DoneWrites(w.Todo()), w.results, id);
      ProcessTracked(cfg, Fresh(w.hb), w.Todo(), choices, [], w.results, id);
    }
  }

  lemma UnboundTick(cfg: Config, w: World, plan: Plan, v: Work)
    requires cfg.highWatermark == 1 && Steady(cfg, w) && Enabled(cfg, w, TickStep(plan))
    requires v == Process(cfg, Fresh(w.hb), w.Todo(), plan.choices) && v.audit.bound == [] && Within(cfg, v)
    ensures var u := Next(cfg, w, TickStep(plan)).hb; u.audit.bound == [] && Within(cfg, u)
    ensures EmitNeverAtZero(v, plan.ready)
  {
    ProcessAllTracked(cfg, w, plan.choices);
    EmitAllWithin(cfg, v, plan.ready, w.results);
    EmitAllGrows(v, plan.ready);
  }

  lemma FillingTick(cfg: Config, w: World, plan: Plan, v: Work)
    requires Enabled(cfg, w, TickStep(plan)) && v == Process(cfg, Fresh(w.hb), w.Todo(), plan.choices)
    requires Filled(cfg, v) && |w.results| == |v.out.jobs|
    ensures var u := Next(cfg, w, TickStep(plan)); Filled(cfg, u.hb) && ShutDown(cfg, u)
    ensures EmitNeverAtZero(v, plan.ready)
  {
    ShutScan(cfg, v, plan.ready);
    FrozenFilled(cfg, v, Next(cfg, w, TickStep(plan)).hb);
  }

  lemma OpenTick(cfg: Config, w: World, plan: Plan)
    requires cfg.highWatermark == 1 && Steady(cfg, w) && w.hb.audit.bound == [] && Within(cfg, w.hb)
    requires Enabled(cfg, w, TickStep(plan))
    ensures var u := Next(cfg, w, TickStep(plan));
            (u.hb.audit.bound == [] && Within(cfg, u.hb)) || (Filled(cfg, u.hb) && ShutDown(cfg, u))
    ensures TickNeverAtZero(cfg, w, plan)
  {
    var v := Process(cfg, Fresh(w.hb), w.Todo(), plan.choices);
    TodoAllTracked(cfg, w);
    LowBatch(cfg, Fresh(w.hb), w.Todo(), plan.choices, w.results, w.asked);
    if v.audit.bound == [] { UnboundTick(cfg, w, plan, v); } else { FillingTick(cfg, w, plan, v); }
  }

  lemma FilledTick(cfg: Config, w: World, plan: Plan)
    requires Filled(cfg, w.hb) && ShutDown(cfg, w) && Enabled(cfg, w, TickStep(plan))
    ensures Filled(cfg, Next(cfg, w, TickStep(plan)).hb) && ShutDown(cfg, Next(cfg, w, TickStep(plan)))
    ensures TickNeverAtZero(cfg, w, plan)
  {
    NextShut(cfg, w, TickStep(plan));
    TickShut(cfg, w, plan);
    FrozenFilled(cfg, w.hb, Next(cfg, w, TickStep(plan)).hb);
    NoDecrements(cfg, Fresh(w.hb), w.Todo(), plan.choices);
  }

  lemma LowTick(cfg: Config, w: World, plan: Plan)
    requires cfg.highWatermark == 1 && Low(cfg, w) && Enabled(cfg, w, TickStep(plan))
    ensures var u := Next(cfg, w, TickStep(plan));
            (u.hb.audit.bound == [] && Within(cfg, u.hb)) || (Filled(cfg, u.hb) && ShutDown(cfg, u))
    ensures TickNeverAtZero(cfg, w, plan)
  {
    if w.hb.audit.bound == [] { OpenTick(cfg, w, plan); } else { FilledTick(cfg, w, plan); }
  }

  lemma NextLow(cfg: Config, w: World, s: Step)
    requires cfg.highWatermark == 1 && Low(cfg, w) && Enabled(cfg, w, s) && EngineReports(s) && !s.Bind?
    ensures Low(cfg, Next(cfg, w, s))
  {
    NextSteady(cfg, w, s);
    if s.TickStep? {
      LowTick(cfg, w, s.plan);
    } else if w.hb.audit.bound != [] {
      NextShut(cfg, w, s);
    }
  }

  lemma {:induction false} RunLow(cfg: Config, w: World, steps: seq<Step>)
    requires cfg.highWatermark == 1 && Low(cfg, w) && Legal(cfg, w, steps)
    requires forall s <- steps :: EngineReports(s) && !s.Bind?
    ensures Low(cfg, After(cfg, w, steps))
    decreases |steps|
  {
    if steps != [] {
      assert steps[0] in steps;
      NextLow(cfg, w, steps[0]);
      RunLow(cfg, Next(cfg, w, steps[0]), steps[1..]);
    }
  }

  lemma {:induction false} LowRun(cfg: Config, start: World, steps: seq<Step>)
    requires cfg.highWatermark == 1 && UnboundServiceRun(cfg, start, steps)
    ensures Low(cfg, After(cfg, start, steps))
  {
    StartSteady(cfg, start);
    RunLow(cfg, start, steps);
  }

  lemma FilledBounded(cfg: Config, w: World, id: Id)
    requires cfg.highWatermark == 1 && Filled(cfg, w.hb) && WorldSound(w)
    ensures WithinRequests(w, id) && LoadBounded(cfg, w.hb)
  {
    assert |multiset(WriteIds(w.hb.out.writes))| == |multiset(JobIds(w.hb.out.jobs))|;
    assert multiset(JobIds(w.hb.out.jobs)) <= multiset(w.asked);
    assert |w.hb.pending| == |w.hb.pending.Keys|;
  }

  /** With a watermark of one, whatever the ids, delivery and load stay within bounds. */
  lemma {:induction false} LowSafe(cfg: Config, start: World, steps: seq<Step>, id: Id)
    requires cfg.highWatermark == 1 && UnboundServiceRun(cfg, start, steps)
    ensures var w := After(cfg, start, steps); WithinRequests(w, id) && LoadBounded(cfg, w.hb)
  {
    LowRun(cfg, start, steps);
    var w := After(cfg, start, steps);
    if w.hb.audit.bound == [] {
      WritesWithinRequests(cfg, start, steps, id);
      BoundedLoad(cfg, start, steps);
    } else {
      FilledBounded(cfg, w, id);
    }
  }

  // ---- the theorems --------------------------------------------------------------------------

  ghost predicate UnboundNeverOverdelivers(cfg: Config, start: World) {
    forall steps, id | UnboundServiceRun(cfg, start, steps) :: WithinRequests(After(cfg, start, steps), id)
  }

  /** Without binding steps, exactly the services that cannot have both kinds open at once never overdeliver. */
  lemma UnboundDeliveryIsExact(cfg: Config, start: World)
    requires start == Start(start.hb.pool.maxSize, start.hb.pool.idleTimeout, start.hb.pool.maxLifetime)
    ensures UnboundNeverOverdelivers(cfg, start) <==> !BothAtOnce(cfg, start.hb.pool)
  {
    if BothAtOnce(cfg, start.hb.pool) {
      var k := Trouble(start);
      TroubleFits(cfg, start);
      WholeUnboundRun(k, cfg, start);
      assert !WithinRequests(After(cfg, start, UnboundRun(k)), k.up.id);
    } else if BothRoutes(cfg, start.hb.pool) {
      forall steps, id | UnboundServiceRun(cfg, start, steps) ensures WithinRequests(After(cfg, start, steps), id) {
        LowSafe(cfg, start, steps, id);
      }
    } else {
      DeliveryIsExact(cfg, start);
    }
  }

  ghost predicate UnboundAlwaysBounded(cfg: Config, start: World) {
    forall steps | UnboundServiceRun(cfg, start, steps) :: LoadBounded(cfg, After(cfg, start, steps).hb)
  }

  /** Without binding steps, exactly those services keep their load bounded. */
  lemma UnboundLoadIsExact(cfg: Config, start: World)
    requires start == Start(start.hb.pool.maxSize, start.hb.pool.idleTimeout, start.hb.pool.maxLifetime)
    requires cfg.highWatermark < WORD
    ensures UnboundAlwaysBounded(cfg, start) <==> !BothAtOnce(cfg, start.hb.pool)
  {
    if BothAtOnce(cfg, start.hb.pool) {
      var k := Trouble(start);
      TroubleFits(cfg, start);
      WholeUnboundRun(k, cfg, start);
      AnyRunSound(cfg, start, UnboundRun(k));
      OverdeliveredUnbounded(cfg, After(cfg, start, UnboundRun(k)), k.up.id);
    } else if BothRoutes(cfg, start.hb.pool) {
      forall steps | UnboundServiceRun(cfg, start, steps) ensures LoadBounded(cfg, After(cfg, start, steps).hb) {
        LowSafe(cfg, start, steps, "");
      }
    } else {
      LoadIsExact(cfg, start);
    }
  }

  ghost predicate UnboundNeverUnderflows(cfg: Config, start: World) {
    forall steps, plan | UnboundServiceRun(cfg, start, steps)
                         && Enabled(cfg, After(cfg, start, steps), TickStep(plan)) ::
      TickNeverAtZero(cfg, After(cfg, start, steps), plan)
  }

  /** Without binding steps, exactly those services never decrement a zero counter. */
  lemma UnboundUnderflowIsExact(cfg: Config, start: World)
    requires start == Start(start.hb.pool.maxSize, start.hb.pool.idleTimeout, start.hb.pool.maxLifetime)
    requires cfg.highWatermark < WORD
    ensures UnboundNeverUnderflows(cfg, start) <==> !BothAtOnce(cfg, start.hb.pool)
  {
    if BothAtOnce(cfg, start.hb.pool) {
      var k := Trouble(start);
      TroubleFits(cfg, start);
      WholeUnboundRun(k, cfg, start);
      TippingUnderflows(k, cfg, After(cfg, start, UnboundPart(k) + LocalPart(k)), CalmTick(k.now, 1, []).plan);
    } else if BothRoutes(cfg, start.hb.pool) {
      forall steps, plan | UnboundServiceRun(cfg, start, steps)
                           && Enabled(cfg, After(cfg, start, steps), TickStep(plan))
        ensures TickNeverAtZero(cfg, After(cfg, start, steps), plan)
      {
        LowRun(cfg, start, steps);
        LowTick(cfg, After(cfg, start, steps), plan);
      }
    } else {
      UnderflowIsExact(cfg, start);
    }
  }
}
