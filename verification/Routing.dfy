/** Exactly which configurations keep delivery and load within bounds whatever ids their clients use. */
module Routing {
  import opened Messages
  import opened Seqs
  import opened Sessions
  import opened HeartbeatModel
  import opened Runs
  import opened Ledger
  import opened Delivery
  import opened Load
  import opened Failures
  import opened MixedRouting

  /** The service can send some requests to its engine and some upstream. */
  predicate BothRoutes(cfg: Config, p: Pool) {
    cfg.hasEngine && cfg.highWatermark > 0 && cfg.queueHighWatermark > 0 && p.maxSize > 0
  }

  // ---- without both routes -------------------------------------------------------------------

  /** Nothing went one of the ways, and nothing can. */
  ghost predicate Barren(cfg: Config, w: Work) {
    if !cfg.hasEngine then w.out.jobs == []
    else
      && w.audit.bound == []
      && (cfg.highWatermark == 0 || cfg.queueHighWatermark == 0 || (w.pool.maxSize == 0 && w.pool.sessions == map[]))
  }

  lemma AskBarren(cfg: Config, w: Work, req: Request, c: Choice)
    requires Barren(cfg, w)
    ensures Barren(cfg, HandleAsk(cfg, w, req, c))
  {
    if cfg.hasEngine && Admits(cfg, w.metrics) {
      LastReadyFound(w.pool, w.pool.lru);
      assert Acquire(w.pool, c) == None;
    }
  }

  lemma HandleBarren(cfg: Config, w: Work, m: Message, c: Choice)
    requires Barren(cfg, w)
    ensures Barren(cfg, Handle(cfg, w, m, c))
  {
    var v := w.(audit := w.audit.(clock := c.now));
    match m
    case Ask(req) => AskBarren(cfg, v, req, c);
    case WsEvent(rsp) => EventsAreQuiet(v, rsp, c);
    case _ =>
  }

  lemma {:induction false} ProcessBarren(cfg: Config, w: Work, batch: seq<Message>, choices: seq<Choice>)
    requires |choices| == |batch| && Barren(cfg, w)
    ensures Barren(cfg, Process(cfg, w, batch, choices))
    decreases |batch|
  {
    if batch != [] {
      HandleBarren(cfg, w, batch[0], choices[0]);
      ProcessBarren(cfg, Handle(cfg, w, batch[0], choices[0]), batch[1..], choices[1..]);
    }
  }

  lemma {:induction false} EmitAllBarren(cfg: Config, w: Work, ready: seq<Id>)
    requires Barren(cfg, w)
    ensures Barren(cfg, EmitAll(w, ready))
    decreases |ready|
  {
    if ready != [] { EmitAllBarren(cfg, EmitOne(w, ready[0]), ready[1..]); }
  }

  lemma NextBarren(cfg: Config, w: World, s: Step)
    requires Barren(cfg, w.hb) && Enabled(cfg, w, s)
    ensures Barren(cfg, Next(cfg, w, s).hb)
  {
    if s.TickStep? {
      ProcessBarren(cfg, Fresh(w.hb), w.Todo(), s.plan.choices);
      EmitAllBarren(cfg, Process(cfg, Fresh(w.hb), w.Todo(), s.plan.choices), s.plan.ready);
    }
  }

  lemma {:induction false} RunBarren(cfg: Config, w: World, steps: seq<Step>)
    requires Barren(cfg, w.hb) && Legal(cfg, w, steps)
    ensures Barren(cfg, After(cfg, w, steps).hb)
    decreases |steps|
  {
    if steps != [] {
      NextBarren(cfg, w, steps[0]);
      RunBarren(cfg, Next(cfg, w, steps[0]), steps[1..]);
    }
  }

  /** A service without both routes never routes an id both ways, whatever is asked of it. */
  lemma {:induction false} OneRouteUnmixed(cfg: Config, start: World, steps: seq<Step>)
    requires AnyRun(cfg, start, steps) && !BothRoutes(cfg, start.hb.pool)
    ensures Unmixed(After(cfg, start, steps).hb)
  {
    RunBarren(cfg, start, steps);
  }

  // ---- with both routes ----------------------------------------------------------------------

  function SomeRequest(backend: Backend): Request {
    Request("r", "", "", VoiceSettings("", 1.0, 1.0, 0), AudioSettings(0, 0, Pcm, 0), backend)
  }

  /** The scenario that goes wrong, at a time when no session is too old. */
  function Trouble(start: World): Scenario {
    Scenario(SomeRequest(Upstream), SomeRequest(Local), Synthesis([], 0, 0, 0, 0, ""), start.hb.pool.maxLifetime - 1)
  }

  lemma TroubleFits(cfg: Config, start: World)
    requires start == Start(start.hb.pool.maxSize, start.hb.pool.idleTimeout, start.hb.pool.maxLifetime)
    requires BothRoutes(cfg, start.hb.pool)
    ensures Fits(Trouble(start), cfg, start)
  {
  }

  // ---- delivery ------------------------------------------------------------------------------

  ghost predicate WithinRequests(w: World, id: Id) { WriteCount(w.hb, id) <= multiset(w.asked)[id] }

  /** Whatever the run and the ids, no id gets more client writes than it was requested. */
  ghost predicate NeverOverdelivers(cfg: Config, start: World) {
    forall steps, id | ServiceRun(cfg, start, steps) :: WithinRequests(After(cfg, start, steps), id)
  }

  /** Exactly the services without both routes never overdeliver. */
  lemma DeliveryIsExact(cfg: Config, start: World)
    requires start == Start(start.hb.pool.maxSize, start.hb.pool.idleTimeout, start.hb.pool.maxLifetime)
    ensures NeverOverdelivers(cfg, start) <==> !BothRoutes(cfg, start.hb.pool)
  {
    if BothRoutes(cfg, start.hb.pool) {
      var k := Trouble(start);
      TroubleFits(cfg, start);
      WholeRun(k, cfg, start);
      assert !WithinRequests(After(cfg, start, FatalRun(k)), k.up.id);
    } else {
      forall steps, id | ServiceRun(cfg, start, steps) ensures WithinRequests(After(cfg, start, steps), id) {
        OneRouteUnmixed(cfg, start, steps);
        assert !Mixed(After(cfg, start, steps).hb, id);
        WritesWithinRequests(cfg, start, steps, id);
      }
    }
  }

  // ---- load ----------------------------------------------------------------------------------

  ghost predicate LoadBounded(cfg: Config, w: Work) {
    |w.pending| <= w.metrics.inflight == Open(w) <= cfg.highWatermark
  }

  /** Whatever the run and the ids, the counter is the exact number of open slots and covers the pending requests. */
  ghost predicate AlwaysBounded(cfg: Config, start: World) {
    forall steps | ServiceRun(cfg, start, steps) :: LoadBounded(cfg, After(cfg, start, steps).hb)
  }

  lemma AcceptedWithinAsked(jobs: seq<Id>, bound: seq<Id>, failures: seq<Id>, queued: seq<Id>, asked: seq<Id>)
    requires Accounted(jobs, bound, failures, queued, asked)
    ensures |jobs| + |bound| <= |asked|
  {
    assert |multiset(jobs) + multiset(bound) + multiset(failures) + multiset(queued)| == |multiset(asked)|;
  }

  lemma OverdeliveredUnbounded(cfg: Config, w: World, id: Id)
    requires Overdelivered(w, id) && WorldSound(w)
    ensures !LoadBounded(cfg, w.hb)
  {
    AcceptedWithinAsked(JobIds(w.hb.out.jobs), w.hb.audit.bound, FailureIds(w.hb.failures), AskIds(w.Todo()), w.asked);
    assert |WriteIds(w.hb.out.writes)| == |w.hb.out.writes| && |JobIds(w.hb.out.jobs)| == |w.hb.out.jobs|;
  }

  /** Exactly the services without both routes keep their load bounded. */
  lemma LoadIsExact(cfg: Config, start: World)
    requires start == Start(start.hb.pool.maxSize, start.hb.pool.idleTimeout, start.hb.pool.maxLifetime)
    requires cfg.highWatermark < WORD
    ensures AlwaysBounded(cfg, start) <==> !BothRoutes(cfg, start.hb.pool)
  {
    if BothRoutes(cfg, start.hb.pool) {
      var k := Trouble(start);
      TroubleFits(cfg, start);
      WholeRun(k, cfg, start);
      AnyRunSound(cfg, start, FatalRun(k));
      OverdeliveredUnbounded(cfg, After(cfg, start, FatalRun(k)), k.up.id);
    } else {
      forall steps | ServiceRun(cfg, start, steps) ensures LoadBounded(cfg, After(cfg, start, steps).hb) {
        OneRouteUnmixed(cfg, start, steps);
        BoundedLoad(cfg, start, steps);
      }
    }
  }

  // ---- underflow -----------------------------------------------------------------------------

  /** No decrement of the tick meets a zero counter. */
  ghost predicate TickNeverAtZero(cfg: Config, w: World, plan: Plan)
    requires Enabled(cfg, w, TickStep(plan))
  {
    && NeverAtZero(cfg, Fresh(w.hb), w.Todo(), plan.choices)
    && EmitNeverAtZero(Process(cfg, Fresh(w.hb), w.Todo(), plan.choices), plan.ready)
  }

  ghost predicate NeverUnderflows(cfg: Config, start: World) {
    forall steps, plan | ServiceRun(cfg, start, steps) && Enabled(cfg, After(cfg, start, steps), TickStep(plan)) ::
      TickNeverAtZero(cfg, After(cfg, start, steps), plan)
  }

  lemma TippingUnderflows(k: Scenario, cfg: Config, w: World, plan: Plan)
    requires Tipping(k, cfg, w) && Enabled(cfg, w, TickStep(plan))
    ensures !TickNeverAtZero(cfg, w, plan)
  {
  }

  lemma {:induction false} TickedRun(cfg: Config, start: World, steps: seq<Step>, plan: Plan)
    requires ServiceRun(cfg, start, steps) && Enabled(cfg, After(cfg, start, steps), TickStep(plan))
    ensures ServiceRun(cfg, start, steps + [TickStep(plan)])
    ensures After(cfg, start, steps + [TickStep(plan)]) == Next(cfg, After(cfg, start, steps), TickStep(plan))
  {
    Alone(cfg, After(cfg, start, steps), TickStep(plan));
    Continued(cfg, start, steps, [TickStep(plan)]);
  }

  /** Exactly the services without both routes never decrement a zero counter. */
  lemma UnderflowIsExact(cfg: Config, start: World)
    requires start == Start(start.hb.pool.maxSize, start.hb.pool.idleTimeout, start.hb.pool.maxLifetime)
    requires cfg.highWatermark < WORD
    ensures NeverUnderflows(cfg, start) <==> !BothRoutes(cfg, start.hb.pool)
  {
    if BothRoutes(cfg, start.hb.pool) {
      var k := Trouble(start);
      TroubleFits(cfg, start);
      WholeRun(k, cfg, start);
      TippingUnderflows(k, cfg, After(cfg, start, UpstreamPart(k) + LocalPart(k)), CalmTick(k.now, 1, []).plan);
    } else {
      forall steps, plan | ServiceRun(cfg, start, steps) && Enabled(cfg, After(cfg, start, steps), TickStep(plan))
        ensures TickNeverAtZero(cfg, After(cfg, start, steps), plan)
      {
        TickedRun(cfg, start, steps, plan);
        OneRouteUnmixed(cfg, start, steps + [TickStep(plan)]);
        NoUnderflow(cfg, start, steps, plan);
      }
    }
  }
}
