/** The inflight counter as a bound on the load. */
module Load {
  import opened Messages
  import opened HeartbeatModel
  import opened Runs
  import opened Ledger
  import opened Delivery

  ghost predicate Unmixed(w: Work) { forall id :: !Mixed(w, id) }

  ghost predicate AllTracked(cfg: Config, w: Work, done: seq<Write>, results: seq<Synthesis>) {
    forall id :: Tracked(cfg, w, done, results, id)
  }

  /** Requests accepted and not yet written to a client. */
  function Open(w: Work): int { |w.out.jobs| + |w.audit.bound| - |w.out.writes| }

  lemma Fewer<T>(a: multiset<T>, b: multiset<T>)
    requires a <= b
    ensures |a| <= |b|
  {
    assert b == a + (b - a);
  }

  /** Any set of ids that each still hold a slot is no larger than the number of open slots. */
  lemma SlotsCounted(w: Work, ids: set<Id>)
    requires forall id :: multiset(WriteIds(w.out.writes))[id] + (if id in ids then 1 else 0)
                          <= multiset(JobIds(w.out.jobs))[id] + multiset(w.audit.bound)[id]
    ensures |ids| <= Open(w)
  {
    var written, accepted := multiset(WriteIds(w.out.writes)), multiset(JobIds(w.out.jobs)) + multiset(w.audit.bound);
    assert written + multiset(ids) <= accepted;
    Fewer(written + multiset(ids), accepted);
  }

  /** Every id is accepted at least as often as it was written, counting its pending entry. */
  ghost predicate Covered(w: Work) {
    forall id :: multiset(WriteIds(w.out.writes))[id] + Held(w, id)
                 <= multiset(JobIds(w.out.jobs))[id] + multiset(w.audit.bound)[id]
  }

  lemma UnmixedCovered(cfg: Config, w: Work, done: seq<Write>, results: seq<Synthesis>)
    requires AllTracked(cfg, w, done, results) && Unmixed(w)
    ensures Covered(w)
  {
    forall id ensures multiset(WriteIds(w.out.writes))[id] + Held(w, id)
                      <= multiset(JobIds(w.out.jobs))[id] + multiset(w.audit.bound)[id]
    {
      UnmixedOpen(cfg, w, done, results, id);
    }
  }

  lemma PendingCounted(w: Work)
    requires Covered(w)
    ensures |w.pending| <= Open(w)
  {
    forall id ensures multiset(WriteIds(w.out.writes))[id] + (if id in w.pending.Keys then 1 else 0)
                      <= multiset(JobIds(w.out.jobs))[id] + multiset(w.audit.bound)[id]
    {
      assert Held(w, id) == if id in w.pending.Keys then 1 else 0;
    }
    SlotsCounted(w, w.pending.Keys);
  }

  // ---- history only grows --------------------------------------------------------------------

  lemma HandleGrows(cfg: Config, w: Work, m: Message, c: Choice)
    ensures var v := Handle(cfg, w, m, c); w.out.jobs <= v.out.jobs && w.audit.bound <= v.audit.bound
  {
    if m.WsEvent? { EventsAreQuiet(w.(audit := w.audit.(clock := c.now)), m.rsp, c); }
  }

  lemma {:induction false} ProcessGrows(cfg: Config, w: Work, batch: seq<Message>, choices: seq<Choice>)
    requires |choices| == |batch|
    ensures var v := Process(cfg, w, batch, choices); w.out.jobs <= v.out.jobs && w.audit.bound <= v.audit.bound
    decreases |batch|
  {
    if batch != [] {
      HandleGrows(cfg, w, batch[0], choices[0]);
      ProcessGrows(cfg, Handle(cfg, w, batch[0], choices[0]), batch[1..], choices[1..]);
    }
  }

  lemma {:induction false} EmitAllGrows(w: Work, ready: seq<Id>)
    ensures var v := EmitAll(w, ready); w.out.jobs == v.out.jobs && w.audit.bound == v.audit.bound
    decreases |ready|
  {
    if ready != [] { EmitAllGrows(EmitOne(w, ready[0]), ready[1..]); }
  }

  lemma UnmixedBefore(w: Work, v: Work)
    requires Unmixed(v) && w.out.jobs <= v.out.jobs && w.audit.bound <= v.audit.bound
    ensures Unmixed(w)
  {
    forall id ensures !Mixed(w, id) {
      assert !Mixed(v, id);
      assert JobIds(w.out.jobs) <= JobIds(v.out.jobs);
    }
  }

  // ---- within the high watermark -------------------------------------------------------------

  /** A decrement never meets a zero counter while the batch is handled. */
  ghost predicate NeverAtZero(cfg: Config, w: Work, batch: seq<Message>, choices: seq<Choice>)
    requires |choices| == |batch|
    decreases |batch|
  {
    batch != [] ==>
      && (batch[0].IsDone() ==> w.metrics.inflight > 0)
      && NeverAtZero(cfg, Handle(cfg, w, batch[0], choices[0]), batch[1..], choices[1..])
  }

  /** Nor while the finished requests are emitted. */
  ghost predicate EmitNeverAtZero(w: Work, ready: seq<Id>)
    decreases |ready|
  {
    ready != [] ==> w.metrics.inflight > 0 && EmitNeverAtZero(EmitOne(w, ready[0]), ready[1..])
  }

  /** The counter is the true number of open slots, and there are no more of them than the watermark. */
  ghost predicate Within(cfg: Config, w: Work) {
    w.metrics.inflight == Open(w) <= cfg.highWatermark
  }

  lemma SmallWord(n: int, high: nat)
    requires 0 <= n <= high < WORD
    ensures n % WORD == n
  {
  }

  lemma HandleOpen(cfg: Config, w: Work, m: Message, c: Choice)
    requires Within(cfg, w)
    ensures Open(Handle(cfg, w, m, c)) <= cfg.highWatermark
    ensures m.IsDone() ==> Open(Handle(cfg, w, m, c)) == Open(w) - 1
  {
    if m.WsEvent? { EventsAreQuiet(w.(audit := w.audit.(clock := c.now)), m.rsp, c); }
  }

  lemma WithinWhenCovered(cfg: Config, w: Work, queued: seq<Id>, asked: seq<Id>)
    requires cfg.highWatermark < WORD && Balanced(w, queued, asked) && Covered(w) && Open(w) <= cfg.highWatermark
    ensures Within(cfg, w) && |w.pending| <= w.metrics.inflight
  {
    PendingCounted(w);
    SmallWord(Open(w), cfg.highWatermark);
  }

  /** A message keeps the counter exact whenever it leaves every id covered. */
  lemma HandleCovered(cfg: Config, w: Work, m: Message, c: Choice, queued: seq<Id>, asked: seq<Id>)
    requires cfg.highWatermark < WORD && Within(cfg, w) && Balanced(w, AskId(m) + queued, asked)
    requires Covered(Handle(cfg, w, m, c))
    ensures Within(cfg, Handle(cfg, w, m, c)) && Balanced(Handle(cfg, w, m, c), queued, asked)
    ensures m.IsDone() ==> w.metrics.inflight > 0
  {
    HandleBalanced(cfg, w, m, c, queued, asked);
    HandleOpen(cfg, w, m, c);
    WithinWhenCovered(cfg, Handle(cfg, w, m, c), queued, asked);
  }

  /** So does an emission. */
  lemma EmitCovered(cfg: Config, w: Work, x: Id)
    requires cfg.highWatermark < WORD && Within(cfg, w) && x in w.pending && Covered(EmitOne(w, x))
    ensures Within(cfg, EmitOne(w, x)) && w.metrics.inflight > 0
  {
    PendingCounted(EmitOne(w, x));
    SmallWord(Open(EmitOne(w, x)), cfg.highWatermark);
  }

  lemma HandleAllTracked(cfg: Config, w: Work, m: Message, c: Choice, done: seq<Write>, results: seq<Synthesis>)
    requires AllTracked(cfg, w, DoneWrite(m) + done, results)
    ensures AllTracked(cfg, Handle(cfg, w, m, c), done, results)
  {
    forall id ensures Tracked(cfg, Handle(cfg, w, m, c), done, results, id) {
      HandleTracked(cfg, w, m, c, done, results, id);
    }
  }

  lemma HandleWithin(cfg: Config, w: Work, m: Message, c: Choice, done: seq<Write>, results: seq<Synthesis>,
                     queued: seq<Id>, asked: seq<Id>)
    requires cfg.highWatermark < WORD && Within(cfg, w)
    requires Balanced(w, AskId(m) + queued, asked) && AllTracked(cfg, w, DoneWrite(m) + done, results)
    requires Unmixed(Handle(cfg, w, m, c))
    ensures Within(cfg, Handle(cfg, w, m, c)) && Balanced(Handle(cfg, w, m, c), queued, asked)
    ensures AllTracked(cfg, Handle(cfg, w, m, c), done, results)
    ensures m.IsDone() ==> w.metrics.inflight > 0
  {
    HandleAllTracked(cfg, w, m, c, done, results);
    UnmixedCovered(cfg, Handle(cfg, w, m, c), done, results);
    HandleCovered(cfg, w, m, c, queued, asked);
  }

  lemma {:induction false} ProcessWithin(cfg: Config, w: Work, batch: seq<Message>, choices: seq<Choice>,
                                         results: seq<Synthesis>, asked: seq<Id>)
    requires cfg.highWatermark < WORD && Within(cfg, w)
    requires |choices| == |batch| && Balanced(w, AskIds(batch), asked) && AllTracked(cfg, w, DoneWrites(batch), results)
    requires Unmixed(Process(cfg, w, batch, choices))
    ensures Within(cfg, Process(cfg, w, batch, choices)) && NeverAtZero(cfg, w, batch, choices)
    ensures Balanced(Process(cfg, w, batch, choices), [], asked)
            && AllTracked(cfg, Process(cfg, w, batch, choices), [], results)
    decreases |batch|
  {
    if batch != [] {
      var v := Handle(cfg, w, batch[0], choices[0]);
      ProcessGrows(cfg, v, batch[1..], choices[1..]);
      UnmixedBefore(v, Process(cfg, w, batch, choices));
      HandleWithin(cfg, w, batch[0], choices[0], DoneWrites(batch[1..]), results, AskIds(batch[1..]), asked);
      ProcessWithin(cfg, v, batch[1..], choices[1..], results, asked);
    }
  }

  lemma EmitWithin(cfg: Config, w: Work, x: Id, results: seq<Synthesis>)
    requires cfg.highWatermark < WORD && Within(cfg, w) && AllTracked(cfg, w, [], results) && Unmixed(w)
    requires x in w.pending && w.pending[x].finalReceived
    ensures Within(cfg, EmitOne(w, x)) && AllTracked(cfg, EmitOne(w, x), [], results) && Unmixed(EmitOne(w, x))
    ensures w.metrics.inflight > 0
  {
    forall id ensures Tracked(cfg, EmitOne(w, x), [], results, id) {
      EmitTracked(cfg, w, x, results, id);
    }
    forall id ensures !Mixed(EmitOne(w, x), id) {
      assert !Mixed(w, id);
    }
    UnmixedCovered(cfg, EmitOne(w, x), [], results);
    EmitCovered(cfg, w, x);
  }

  lemma {:induction false} EmitAllWithin(cfg: Config, w: Work, ready: seq<Id>, results: seq<Synthesis>)
    requires cfg.highWatermark < WORD && Within(cfg, w) && AllTracked(cfg, w, [], results) && Unmixed(w)
    requires Emittable(w, ready)
    ensures Within(cfg, EmitAll(w, ready)) && EmitNeverAtZero(w, ready)
    decreases |ready|
  {
    if ready != [] {
      assert ready[0] in ready;
      EmitWithin(cfg, w, ready[0], results);
      EmittableNext(w, ready);
      EmitAllWithin(cfg, EmitOne(w, ready[0]), ready[1..], results);
    }
  }

  ghost predicate Steady(cfg: Config, w: World) {
    WorldSound(w) && forall id :: WorldTracked(cfg, w, id)
  }

  /** A tick keeps the load within the watermark and never decrements a zero counter. */
  lemma TickWithin(cfg: Config, w: World, plan: Plan)
    requires cfg.highWatermark < WORD && Within(cfg, w.hb) && Steady(cfg, w)
    requires Enabled(cfg, w, TickStep(plan)) && Unmixed(Fresh(Tick(cfg, w.hb, w.Todo(), plan)))
    ensures Within(cfg, Fresh(Tick(cfg, w.hb, w.Todo(), plan)))
    ensures NeverAtZero(cfg, Fresh(w.hb), w.Todo(), plan.choices)
    ensures EmitNeverAtZero(Process(cfg, Fresh(w.hb), w.Todo(), plan.choices), plan.ready)
  {
    var v := Process(cfg, Fresh(w.hb), w.Todo(), plan.choices);
    EmitAllGrows(v, plan.ready);
    UnmixedBefore(v, Fresh(Tick(cfg, w.hb, w.Todo(), plan)));
    TodoAllTracked(cfg, w);
    ProcessWithin(cfg, Fresh(w.hb), w.Todo(), plan.choices, w.results, w.asked);
    EmitAllWithin(cfg, v, plan.ready, w.results);
  }

  lemma TodoTracked(cfg: Config, w: World, id: Id)
    requires WorldTracked(cfg, w, id)
    ensures Tracked(cfg, Fresh(w.hb), DoneWrites(w.Todo()), w.results, id)
  {
    DoneWritesAppend(w.reqQ, w.wsQ);
    NoDoneWrites(w.wsQ);
    assert DoneWrites(w.Todo()) == DoneWrites(w.reqQ);
  }

  lemma TodoAllTracked(cfg: Config, w: World)
    requires Steady(cfg, w)
    ensures AllTracked(cfg, Fresh(w.hb), DoneWrites(w.Todo()), w.results)
  {
    forall id ensures Tracked(cfg, Fresh(w.hb), DoneWrites(w.Todo()), w.results, id) {
      assert WorldTracked(cfg, w, id);
      TodoTracked(cfg, w, id);
    }
  }

  // ---- every run -----------------------------------------------------------------------------

  lemma NextGrows(cfg: Config, w: World, s: Step)
    requires Enabled(cfg, w, s)
    ensures var v := Next(cfg, w, s); w.hb.out.jobs <= v.hb.out.jobs && w.hb.audit.bound <= v.hb.audit.bound
  {
    if s.TickStep? {
      ProcessGrows(cfg, Fresh(w.hb), w.Todo(), s.plan.choices);
      EmitAllGrows(Process(cfg, Fresh(w.hb), w.Todo(), s.plan.choices), s.plan.ready);
    }
  }

  lemma {:induction false} RunGrows(cfg: Config, w: World, steps: seq<Step>)
    requires Legal(cfg, w, steps)
    ensures var v := After(cfg, w, steps); w.hb.out.jobs <= v.hb.out.jobs && w.hb.audit.bound <= v.hb.audit.bound
    decreases |steps|
  {
    if steps != [] {
      NextGrows(cfg, w, steps[0]);
      RunGrows(cfg, Next(cfg, w, steps[0]), steps[1..]);
    }
  }

  lemma NextWithin(cfg: Config, w: World, s: Step)
    requires cfg.highWatermark < WORD && Within(cfg, w.hb) && Steady(cfg, w)
    requires Enabled(cfg, w, s) && Unmixed(Next(cfg, w, s).hb)
    ensures Within(cfg, Next(cfg, w, s).hb)
  {
    if s.TickStep? { TickWithin(cfg, w, s.plan); }
  }

  lemma {:induction false} RunWithin(cfg: Config, w: World, steps: seq<Step>)
    requires cfg.highWatermark < WORD && Within(cfg, w.hb) && Steady(cfg, w)
    requires Legal(cfg, w, steps) && (forall s <- steps :: EngineReports(s)) && Unmixed(After(cfg, w, steps).hb)
    ensures Within(cfg, After(cfg, w, steps).hb)
    decreases |steps|
  {
    if steps != [] {
      var s, rest := steps[0], steps[1..];
      assert s in steps;
      var v := Next(cfg, w, s);
      RunGrows(cfg, v, rest);
      UnmixedBefore(v.hb, After(cfg, w, steps).hb);
      NextWithin(cfg, w, s);
      NextSteady(cfg, w, s);
      RunWithin(cfg, v, rest);
    }
  }

  lemma NextSteady(cfg: Config, w: World, s: Step)
    requires Steady(cfg, w) && Enabled(cfg, w, s) && EngineReports(s)
    ensures Steady(cfg, Next(cfg, w, s))
  {
    NextSound(cfg, w, s);
    forall id ensures WorldTracked(cfg, Next(cfg, w, s), id) { NextTracked(cfg, w, s, id); }
  }

  lemma StartSteady(cfg: Config, start: World)
    requires start == Start(start.hb.pool.maxSize, start.hb.pool.idleTimeout, start.hb.pool.maxLifetime)
    ensures Steady(cfg, start)
  {
    forall id ensures WorldTracked(cfg, start, id) && WorldSound(start) { StartInvariants(cfg, start, id); }
  }

  lemma {:induction false} RunSteady(cfg: Config, w: World, steps: seq<Step>)
    requires Steady(cfg, w) && Legal(cfg, w, steps) && forall s <- steps :: EngineReports(s)
    ensures Steady(cfg, After(cfg, w, steps))
  {
    RunSound(cfg, w, steps);
    forall id ensures WorldTracked(cfg, After(cfg, w, steps), id) { RunTracked(cfg, w, steps, id); }
  }

  lemma SteadyLoad(cfg: Config, w: World)
    requires cfg.highWatermark < WORD && Steady(cfg, w) && Unmixed(w.hb) && Within(cfg, w.hb)
    ensures |w.hb.pending| <= w.hb.metrics.inflight
  {
    forall id ensures Tracked(cfg, w.hb, DoneWrites(w.reqQ), w.results, id) { assert WorldTracked(cfg, w, id); }
    UnmixedCovered(cfg, w.hb, DoneWrites(w.reqQ), w.results);
    WithinWhenCovered(cfg, w.hb, AskIds(w.Todo()), w.asked);
  }

  /**
   * Bounded load: as long as no id has been routed both ways, the pending requests never outnumber the inflight
   * counter and the counter never exceeds the high watermark; it is the exact number of open slots, unwrapped.
   */
  lemma {:induction false} BoundedLoad(cfg: Config, start: World, steps: seq<Step>)
    requires cfg.highWatermark < WORD && ServiceRun(cfg, start, steps) && Unmixed(After(cfg, start, steps).hb)
    ensures var w := After(cfg, start, steps).hb; |w.pending| <= w.metrics.inflight == Open(w) <= cfg.highWatermark
  {
    StartSteady(cfg, start);
    RunSteady(cfg, start, steps);
    RunWithin(cfg, start, steps);
    SteadyLoad(cfg, After(cfg, start, steps));
  }

  /** In every tick of such a run, no decrement meets a zero counter. */
  lemma {:induction false} NoUnderflow(cfg: Config, start: World, steps: seq<Step>, plan: Plan)
    requires cfg.highWatermark < WORD && ServiceRun(cfg, start, steps)
    requires Enabled(cfg, After(cfg, start, steps), TickStep(plan))
    requires Unmixed(Next(cfg, After(cfg, start, steps), TickStep(plan)).hb)
    ensures var w := After(cfg, start, steps);
            NeverAtZero(cfg, Fresh(w.hb), w.Todo(), plan.choices)
            && EmitNeverAtZero(Process(cfg, Fresh(w.hb), w.Todo(), plan.choices), plan.ready)
  {
    var w := After(cfg, start, steps);
    NextGrows(cfg, w, TickStep(plan));
    UnmixedBefore(w.hb, Next(cfg, w, TickStep(plan)).hb);
    BoundedLoad(cfg, start, steps);
    StartSteady(cfg, start);
    RunSteady(cfg, start, steps);
    TickWithin(cfg, w, plan);
  }

  /** Ids that are each requested at most once are never routed both ways. */
  lemma UniqueIdsAreUnmixed(cfg: Config, start: World, steps: seq<Step>)
    requires AnyRun(cfg, start, steps) && forall id :: multiset(After(cfg, start, steps).asked)[id] <= 1
    ensures Unmixed(After(cfg, start, steps).hb)
  {
    AnyRunSound(cfg, start, steps);
    var w := After(cfg, start, steps);
    AccountedUnmixed(w.hb, AskIds(w.Todo()), w.asked);
  }

  lemma AccountedUnmixed(w: Work, queued: seq<Id>, asked: seq<Id>)
    requires Balanced(w, queued, asked) && forall id :: multiset(asked)[id] <= 1
    ensures Unmixed(w)
  {
    forall id ensures !Mixed(w, id) {
      assert multiset(JobIds(w.out.jobs))[id] + multiset(w.audit.bound)[id] <= multiset(asked)[id];
    }
  }
}
